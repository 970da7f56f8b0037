/**
 * Conservation on an MT5 account. The ticket survives a partial close, and the
 * next close of it overwrites the record, so volume is conserved only as far as
 * nothing is overwritten.
 */
module MT5Ledger {
  import opened Common
  import opened TradeTypes
  import opened MockBroker
  import opened BrokerLedger

  /** An MT5 hedging account nobody has traded on yet. */
  predicate FreshMT5(account: Account) {
    account.platform == MT5 && !account.netting && account.positions == map[] && account.closes == map[]
  }

  /** The volume a ticket was opened with. */
  ghost function Opened(start: Account, orders: seq<Order>, t: Ticket): int {
    if orders == [] then 0
    else
      var before := orders[..|orders| - 1];
      Opened(start, before, t) + OpenedBy(Run(start, before), orders[|orders| - 1], t)
  }

  ghost function OpenedBy(a: Account, order: Order, t: Ticket): int {
    if order.OpenOrder? && a.nextTicket == t && Apply(a, order).nextTicket != t then order.request.volume else 0
  }

  /** Volume asked to be closed beyond what the ticket held. */
  ghost function Excess(start: Account, orders: seq<Order>, t: Ticket): (excess: int)
    ensures excess >= 0
    ensures NeverOverCloses(start, orders) ==> excess == 0
  {
    if orders == [] then 0
    else
      var before, last := orders[..|orders| - 1], orders[|orders| - 1];
      Excess(start, before, t) + (if ClosesTicket(last, t) then OverClosed(Run(start, before), last) else 0)
  }

  predicate ClosesTicket(order: Order, t: Ticket) {
    order.CloseOrder? && order.ticket == t
  }

  /** An executed close of a ticket whose earlier close is on record. */
  ghost predicate Recloses(a: Account, order: Order, t: Ticket) {
    ClosesTicket(order, t) && IsLive(a, t) && ClosedVolume(a, t) > 0
  }

  /** Recorded volume lost because a later close overwrote the record. */
  ghost function Overwritten(start: Account, orders: seq<Order>, t: Ticket): (lost: int)
    ensures lost >= 0
    ensures lost == 0 <==> NeverRecloses(start, orders, t)
  {
    if orders == [] then 0
    else
      var before, last := orders[..|orders| - 1], orders[|orders| - 1];
      var a := Run(start, before);
      Overwritten(start, before, t) + (if Recloses(a, last, t) then ClosedVolume(a, t) else 0)
  }

  ghost predicate NeverRecloses(start: Account, orders: seq<Order>, t: Ticket) {
    orders == [] ||
    (&& NeverRecloses(start, orders[..|orders| - 1], t)
     && !Recloses(Run(start, orders[..|orders| - 1]), orders[|orders| - 1], t))
  }

  ghost predicate Consistent(a: Account) {
    && a.platform == MT5 && !a.netting
    && (forall t :: t in a.positions ==> t < a.nextTicket)
    && (forall t :: t in a.closes ==> t in a.positions)
  }

  /** Volume a ticket holds or has on record. */
  ghost function Known(a: Account, t: Ticket): int {
    LiveVolume(a, t) + ClosedVolume(a, t)
  }

  /** One close within the ticket's volume keeps what is known of it exactly when nothing was on record yet. */
  lemma CloseKeepsIff(a: Account, order: Order)
    requires Consistent(a) && order.CloseOrder? && IsLive(a, order.ticket) && OverClosed(a, order) == 0
    ensures Known(Apply(a, order), order.ticket) == Known(a, order.ticket) <==> ClosedVolume(a, order.ticket) == 0
  {
  }

  lemma OrderAccounts(a: Account, order: Order, t: Ticket)
    requires Consistent(a)
    ensures Consistent(Apply(a, order))
    ensures Known(Apply(a, order), t)
            == Known(a, t) + OpenedBy(a, order, t)
               + (if ClosesTicket(order, t) then OverClosed(a, order) else 0)
               - (if Recloses(a, order, t) then ClosedVolume(a, t) else 0)
  {
  }

  /**
   * Over every run: what a ticket holds or has on record is what it was opened
   * with, plus over-closed, less overwritten.
   */
  lemma {:induction false} RunAccounts(start: Account, orders: seq<Order>, t: Ticket)
    requires FreshMT5(start)
    ensures Consistent(Run(start, orders))
    ensures Known(Run(start, orders), t) == Opened(start, orders, t) +
              Excess(start, orders, t) - Overwritten(start, orders, t)
  {
    if orders != [] {
      var before := orders[..|orders| - 1];
      RunAccounts(start, before, t);
      OrderAccounts(Run(start, before), orders[|orders| - 1], t);
    }
  }

  /**
   * Over every run that closes no more than a ticket holds, the opened volume
   * is what the ticket still holds plus what is recorded as closed if and only
   * if no executed close hit a ticket that already had a close on record.
   */
  lemma MT5ConservationIff(start: Account, orders: seq<Order>, t: Ticket)
    requires FreshMT5(start) && NeverOverCloses(start, orders)
    ensures Opened(start, orders, t) == LiveVolume(Run(start, orders), t) + ClosedVolume(Run(start, orders), t)
            <==> NeverRecloses(start, orders, t)
  {
    RunAccounts(start, orders, t);
  }

  /** The shortest such run: two partial closes of one ticket. */
  lemma MT5OverwritesCloseRecords(start: Account, request: OpenRequest, price: int, now: int)
    requires FreshMT5(start)
    requires request.symbol == "EURUSD" && request.volume == 10
    ensures var t := start.nextTicket;
            var orders := [OpenOrder(request, price), CloseOrder(t, Some(4), price, now),
                           CloseOrder(t, Some(3), price, now)];
            var a := Run(start, orders);
            && NeverOverCloses(start, orders)
            && LiveVolume(a, t) + ClosedVolume(a, t) < 10
  {
    var t := start.nextTicket;
    var open := OpenOrder(request, price);
    var first, second := CloseOrder(t, Some(4), price, now), CloseOrder(t, Some(3), price, now);
    var orders := [open, first, second];
    assert orders[..2] == [open, first] && orders[..2][..1] == [open] && [open][..0] == [];
    var a := Apply(start, open);
    assert Run(start, []) == start;
    assert Run(start, [open]) == a;
    assert Run(start, [open, first]) == Apply(a, first);
    assert Run(start, orders) == Apply(Apply(a, first), second);
    assert IsLive(a, t) && a.positions[t].volume == 10;
    assert IsLive(Apply(a, first), t) && Apply(a, first).positions[t].volume == 6;
    assert NeverOverCloses(start, []);
    assert NeverOverCloses(start, [open]) by {
      assert [open][..|[open]| - 1] == [];
    }
    assert NeverOverCloses(start, [open, first]) by {
      assert [open, first][..|[open, first]| - 1] == [open];
    }
  }
}
