/**
 * What a ticket really earned, beside what the broker keeps on record for it:
 * an MT5 close overwrites the record, and with it the profit, of an earlier one.
 */
module EarnedProfit {
  import opened TradeTypes
  import opened MockBroker
  import opened BrokerLedger
  import opened MT5Ledger

  ghost function RecordedProfit(a: Account, t: Ticket): int {
    if t in a.closes then a.closes[t].profit else 0
  }

  /** What an order books on ticket `t`. */
  ghost function BookedBy(a: Account, order: Order, t: Ticket): int {
    if ClosesTicket(order, t) && IsLive(a, t) then RecordOf(a, order).profit else 0
  }

  /** The recorded profit an order overwrites on ticket `t`. */
  ghost function LostBy(a: Account, order: Order, t: Ticket): int {
    if ClosesTicket(order, t) && IsLive(a, t) then RecordedProfit(a, t) else 0
  }

  /** Everything the closes of a ticket moved the balance by. */
  ghost function Earned(start: Account, orders: seq<Order>, t: Ticket): int {
    if orders == [] then 0
    else
      var before := orders[..|orders| - 1];
      Earned(start, before, t) + BookedBy(Run(start, before), orders[|orders| - 1], t)
  }

  ghost function LostProfit(start: Account, orders: seq<Order>, t: Ticket): int {
    if orders == [] then 0
    else
      var before := orders[..|orders| - 1];
      LostProfit(start, before, t) + LostBy(Run(start, before), orders[|orders| - 1], t)
  }

  /** The overwritten profits of all tickets. */
  ghost function LostProfits(start: Account, orders: seq<Order>): int {
    if orders == [] then 0
    else
      var before, last := orders[..|orders| - 1], orders[|orders| - 1];
      LostProfits(start, before) + (if last.CloseOrder? then LostBy(Run(start, before), last, last.ticket) else 0)
  }

  lemma OrderBooks(a: Account, order: Order, t: Ticket)
    ensures RecordedProfit(Apply(a, order), t) == RecordedProfit(a, t) + BookedBy(a, order, t) - LostBy(a, order, t)
  {
  }

  /** Over every run at any broker account: earned is on record, or was overwritten. */
  lemma {:induction false} EarnedIsOnRecord(start: Account, orders: seq<Order>, t: Ticket)
    ensures Earned(start, orders, t)
            == RecordedProfit(Run(start, orders), t) - RecordedProfit(start, t) + LostProfit(start, orders, t)
  {
    if orders != [] {
      var before := orders[..|orders| - 1];
      EarnedIsOnRecord(start, before, t);
      OrderBooks(Run(start, before), orders[|orders| - 1], t);
    }
  }

  // ---- The balance ---------------------------------------------------------

  ghost predicate Issued(a: Account) {
    && (forall t :: t in a.positions ==> t < a.nextTicket)
    && (forall t :: t in a.closes ==> t < a.nextTicket)
  }

  lemma {:induction false} ProfitsUpdate(a: Account, b: Account, n: nat, i: Ticket)
    requires forall t: Ticket :: t < n && t != i ==> RecordedProfit(a, t) == RecordedProfit(b, t)
    ensures Profits(b, n) == Profits(a, n) + (if i < n then RecordedProfit(b, i) - RecordedProfit(a, i) else 0)
  {
    if n > 0 {
      ProfitsUpdate(a, b, n - 1, i);
      assert n - 1 != i ==> RecordedProfit(a, n - 1) == RecordedProfit(b, n - 1);
    }
  }

  lemma {:induction false} ProfitsBeyond(a: Account, n: nat, n': nat)
    requires n <= n' && forall t :: t in a.closes ==> t < n
    ensures Profits(a, n') == Profits(a, n)
  {
    if n < n' {
      ProfitsBeyond(a, n, n' - 1);
    }
  }

  lemma CloseMovesBalance(a: Account, order: Order)
    requires Issued(a) && order.CloseOrder?
    ensures var b := Apply(a, order);
            && Issued(b) && a.nextTicket <= b.nextTicket
            && b.balance == a.balance + BookedBy(a, order, order.ticket)
            && (forall t: Ticket :: t != order.ticket ==> RecordedProfit(a, t) == RecordedProfit(b, t))
  {
  }

  lemma OtherMovesNothing(a: Account, order: Order)
    requires Issued(a) && !order.CloseOrder?
    ensures var b := Apply(a, order);
            && Issued(b) && a.nextTicket <= b.nextTicket && b.balance == a.balance
            && b.closes == a.closes
  {
  }

  lemma OrderMovesBalance(a: Account, order: Order)
    requires Issued(a)
    ensures var b := Apply(a, order);
            && Issued(b)
            && b.balance - Profits(b, b.nextTicket)
               == a.balance - Profits(a, a.nextTicket) +
                   (if order.CloseOrder? then LostBy(a, order, order.ticket) else 0)
  {
    var b := Apply(a, order);
    if order.CloseOrder? {
      CloseMovesBalance(a, order);
      OrderBooks(a, order, order.ticket);
      ProfitsUpdate(a, b, b.nextTicket, order.ticket);
    } else {
      OtherMovesNothing(a, order);
      ProfitsUpdate(a, b, b.nextTicket, b.nextTicket);
    }
    ProfitsBeyond(a, a.nextTicket, b.nextTicket);
  }

  lemma {:induction false} BalanceAccounts(start: Account, orders: seq<Order>)
    requires Issued(start)
    ensures var a := Run(start, orders);
            && Issued(a)
            && a.balance - Profits(a, a.nextTicket)
               == start.balance - Profits(start, start.nextTicket) + LostProfits(start, orders)
  {
    if orders != [] {
      var before := orders[..|orders| - 1];
      BalanceAccounts(start, before);
      OrderMovesBalance(Run(start, before), orders[|orders| - 1]);
    }
  }

  /**
   * Over every run on an account nobody has traded on, on either platform and
   * hedging or netting: the balance is the initial one plus the recorded
   * profits if and only if the overwritten profits net to nothing.
   */
  lemma BalanceIsOnRecordIff(start: Account, orders: seq<Order>)
    requires start.positions == map[] && start.closes == map[]
    ensures var a := Run(start, orders);
            a.balance == start.balance + Profits(a, a.nextTicket) <==> LostProfits(start, orders) == 0
  {
    BalanceAccounts(start, orders);
    ProfitsOfNothing(start, start.nextTicket);
  }

  /** On MT4 nothing is ever overwritten: a ticket with a record is not live. */
  lemma {:induction false} MT4LosesNothing(start: Account, orders: seq<Order>, t: Ticket)
    requires Untraded(start)
    ensures LostProfit(start, orders, t) == 0
    ensures Earned(start, orders, t) == RecordedProfit(Run(start, orders), t)
  {
    if orders != [] {
      var before := orders[..|orders| - 1];
      MT4LosesNothing(start, before, t);
      HistoryBalanced(start, before);
    }
    EarnedIsOnRecord(start, orders, t);
  }
}
