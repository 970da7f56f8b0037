/**
 * Conservation at the simulated broker: whatever the run of orders, no volume
 * and no money appears or disappears along an MT4 chain of tickets.
 */
module BrokerLedger {
  import opened Common
  import opened TradeTypes
  import opened MockBroker

  datatype Order =
    | OpenOrder(request: OpenRequest, price: int)
    | ModifyOrder(ticket: Ticket, sl: Option<int>, tp: Option<int>)
    | CloseOrder(ticket: Ticket, volume: Option<nat>, price: int, now: int)

  function Apply(account: Account, order: Order): Account {
    match order
    case OpenOrder(request, price) => OpenPosition(account, request, price).0
    case ModifyOrder(ticket, sl, tp) => ModifyPosition(account, ticket, sl, tp).0
    case CloseOrder(ticket, volume, price, now) => ClosePosition(account, ticket, volume, price, now).0
  }

  function Run(start: Account, orders: seq<Order>): Account {
    if orders == [] then start else Apply(Run(start, orders[..|orders| - 1]), orders[|orders| - 1])
  }

  /** An MT4 account nobody has traded on yet. */
  predicate Untraded(account: Account) {
    account.platform == MT4 && !account.netting && account.positions == map[] && account.closes == map[]
  }

  /** Volume asked to be closed beyond what the ticket holds. */
  function OverClosed(account: Account, order: Order): nat {
    if order.CloseOrder? && IsLive(account, order.ticket) then
      Max(0, order.volume.GetOr(account.positions[order.ticket].volume) - account.positions[order.ticket].volume)
    else
      0
  }

  predicate NeverOverCloses(start: Account, orders: seq<Order>) {
    orders == [] ||
    (&& NeverOverCloses(start, orders[..|orders| - 1])
     && OverClosed(Run(start, orders[..|orders| - 1]), orders[|orders| - 1]) == 0)
  }

  // ---- The ledger: what each chain of tickets was opened with --------------

  /**
   * `root` sends every ticket to the one that opened its chain; `funded` is the
   * volume the chain was opened with; `excess` what was over-closed along it.
   */
  datatype Ledger = Ledger(root: map<Ticket, Ticket>, funded: map<Ticket, nat>, excess: map<Ticket, nat>)

  ghost function Record(a: Account, ledger: Ledger, order: Order): Ledger {
    if order.OpenOrder? && Apply(a, order).nextTicket != a.nextTicket then
      Fund(ledger, a.nextTicket, order.request.volume)
    else if order.CloseOrder? && order.ticket in ledger.root then
      var r := ledger.root[order.ticket];
      if Apply(a, order).nextTicket != a.nextTicket then
        ledger.(root := ledger.root[a.nextTicket := r])
      else
        AddExcess(ledger, r, OverClosed(a, order))
    else
      ledger
  }

  ghost function Fund(ledger: Ledger, t: Ticket, volume: nat): Ledger {
    Ledger(ledger.root[t := t], ledger.funded[t := volume], ledger.excess[t := 0])
  }

  ghost function AddExcess(ledger: Ledger, r: Ticket, more: nat): Ledger {
    if r in ledger.excess then ledger.(excess := ledger.excess[r := ledger.excess[r] + more]) else ledger
  }

  ghost function History(start: Account, orders: seq<Order>): Ledger {
    if orders == [] then
      Ledger(map[], map[], map[])
    else
      var before := orders[..|orders| - 1];
      Record(Run(start, before), History(start, before), orders[|orders| - 1])
  }

  ghost function LiveVolume(a: Account, t: Ticket): int {
    if IsLive(a, t) then a.positions[t].volume else 0
  }

  ghost function ClosedVolume(a: Account, t: Ticket): int {
    if t in a.closes then a.closes[t].volume else 0
  }

  /** Volume held or recorded as closed by a ticket, if it belongs to the chain of `r`. */
  ghost function Share(a: Account, root: map<Ticket, Ticket>, r: Ticket, t: Ticket): int {
    if t in root && root[t] == r then LiveVolume(a, t) + ClosedVolume(a, t) else 0
  }

  /** The volume accounted for along the chain of `r`, over all tickets below `n`. */
  ghost function Accounted(a: Account, root: map<Ticket, Ticket>, r: Ticket, n: nat): int {
    if n == 0 then 0 else Accounted(a, root, r, n - 1) + Share(a, root, r, n - 1)
  }

  /** The profit recorded by closes of tickets below `n`. */
  ghost function Profits(a: Account, n: nat): int {
    if n == 0 then 0 else Profits(a, n - 1) + (if n - 1 in a.closes then a.closes[n - 1].profit else 0)
  }

  ghost predicate WellKept(a: Account, ledger: Ledger) {
    && a.platform == MT4 && !a.netting
    && ledger.root.Keys == a.positions.Keys
    && ledger.excess.Keys == ledger.funded.Keys
    && (forall t :: t in a.positions ==> t < a.nextTicket && ledger.root[t] in ledger.funded)
    && (forall r :: r in ledger.funded ==> r < a.nextTicket)
    && (forall t :: t in a.closes <==> t in a.positions && a.positions[t].closed)
  }

  ghost predicate ChainBalanced(a: Account, ledger: Ledger, r: Ticket)
    requires r in ledger.funded && r in ledger.excess
  {
    ledger.funded[r] + ledger.excess[r] == Accounted(a, ledger.root, r, a.nextTicket)
  }

  ghost predicate Balanced(a: Account, ledger: Ledger, initial: int) {
    && WellKept(a, ledger)
    && (forall r :: r in ledger.funded ==> ChainBalanced(a, ledger, r))
    && a.balance == initial + Profits(a, a.nextTicket)
  }

  // ---- Every order keeps the books balanced --------------------------------

  lemma {:induction false} AccountedChange(a: Account, b: Account, root: map<Ticket, Ticket>,
                                           root': map<Ticket, Ticket>,
                                           r: Ticket, n: nat, i: Ticket)
    requires forall t: Ticket :: t < n && t != i ==> Share(a, root, r, t) == Share(b, root', r, t)
    ensures Accounted(b, root', r, n)
            == Accounted(a, root, r, n) + (if i < n then Share(b, root', r, i) - Share(a, root, r, i) else 0)
  {
    if n > 0 {
      AccountedChange(a, b, root, root', r, n - 1, i);
    }
  }

  lemma {:induction false} ProfitsChange(a: Account, b: Account, n: nat, i: Ticket)
    requires forall t: Ticket :: t < n && t != i ==>
               (t in a.closes <==> t in b.closes) && (t in a.closes ==> a.closes[t].profit == b.closes[t].profit)
    requires i !in a.closes
    ensures Profits(b, n) == Profits(a, n) + (if i < n && i in b.closes then b.closes[i].profit else 0)
  {
    if n > 0 {
      ProfitsChange(a, b, n - 1, i);
    }
  }

  lemma {:induction false} UnusedRootHoldsNothing(a: Account, root: map<Ticket, Ticket>, r: Ticket, n: nat)
    requires forall t :: t in root ==> root[t] != r
    ensures Accounted(a, root, r, n) == 0
  {
    if n > 0 {
      UnusedRootHoldsNothing(a, root, r, n - 1);
    }
  }

  lemma FundingBalances(a: Account, ledger: Ledger, initial: int, position: Position)
    requires Balanced(a, ledger, initial) && !position.closed
    ensures Balanced(a.(nextTicket := a.nextTicket + 1, positions := a.positions[a.nextTicket := position]),
                     Fund(ledger, a.nextTicket, position.volume), initial)
  {
    var n := a.nextTicket;
    var b := a.(nextTicket := n + 1, positions := a.positions[n := position]);
    var next := Fund(ledger, n, position.volume);
    forall r | r in next.funded
      ensures ChainBalanced(b, next, r)
    {
      AccountedChange(a, b, ledger.root, next.root, r, n, n);
      if r == n {
        UnusedRootHoldsNothing(a, ledger.root, r, n);
      }
    }
    ProfitsChange(a, b, n, n);
  }

  lemma RestopBalances(a: Account, ledger: Ledger, initial: int, i: Ticket, position: Position)
    requires Balanced(a, ledger, initial) && IsLive(a, i)
    requires !position.closed && position.volume == a.positions[i].volume
    ensures Balanced(a.(positions := a.positions[i := position]), ledger, initial)
  {
    var b := a.(positions := a.positions[i := position]);
    forall r | r in ledger.funded
      ensures ChainBalanced(b, ledger, r)
    {
      assert ChainBalanced(a, ledger, r);
      AccountedChange(a, b, ledger.root, ledger.root, r, a.nextTicket, i);
    }
    ProfitsChange(a, b, a.nextTicket, a.nextTicket);
  }

  /** The state after booking a close of ticket `i`, before any remainder is reissued. */
  ghost function Settle(a: Account, i: Ticket, record: CloseRecord): Account
    requires i in a.positions
  {
    a.(balance := a.balance + record.profit,
       closes := a.closes[i := record],
       positions := a.positions[i := a.positions[i].(closed := true)])
  }

  lemma SettlingBalances(a: Account, ledger: Ledger, initial: int, i: Ticket, record: CloseRecord)
    requires Balanced(a, ledger, initial) && IsLive(a, i)
    requires record.volume >= a.positions[i].volume
    ensures Balanced(Settle(a, i, record),
                     AddExcess(ledger, ledger.root[i], record.volume - a.positions[i].volume), initial)
  {
    var b := Settle(a, i, record);
    var next := AddExcess(ledger, ledger.root[i], record.volume - a.positions[i].volume);
    forall r | r in next.funded
      ensures ChainBalanced(b, next, r)
    {
      assert ChainBalanced(a, ledger, r);
      AccountedChange(a, b, ledger.root, ledger.root, r, a.nextTicket, i);
    }
    ProfitsChange(a, b, a.nextTicket, i);
  }

  /** Settling a ticket for less than it holds and reissuing the rest under a new one. */
  ghost function Split(a: Account, i: Ticket, record: CloseRecord, remainder: Position): Account
    requires i in a.positions
  {
    var settled := Settle(a, i, record);
    settled.(nextTicket := a.nextTicket + 1, positions := settled.positions[a.nextTicket := remainder])
  }

  lemma SplitChain(a: Account, ledger: Ledger, i: Ticket, record: CloseRecord, remainder: Position, r: Ticket)
    requires WellKept(a, ledger) && IsLive(a, i) && r in ledger.funded && ChainBalanced(a, ledger, r)
    requires !remainder.closed && record.volume + remainder.volume == a.positions[i].volume
    ensures ChainBalanced(Split(a, i, record, remainder),
                          ledger.(root := ledger.root[a.nextTicket := ledger.root[i]]), r)
  {
    var n, b := a.nextTicket, Split(a, i, record, remainder);
    var root' := ledger.root[n := ledger.root[i]];
    AccountedChange(a, b, ledger.root, root', r, n, i);
    assert Share(a, ledger.root, r, i) == Share(b, root', r, i) + Share(b, root', r, n);
  }

  lemma SplitWellKept(a: Account, ledger: Ledger, i: Ticket, record: CloseRecord, remainder: Position)
    requires WellKept(a, ledger) && IsLive(a, i) && !remainder.closed
    ensures WellKept(Split(a, i, record, remainder), ledger.(root := ledger.root[a.nextTicket := ledger.root[i]]))
  {
  }

  lemma SplitChains(a: Account, ledger: Ledger, initial: int, i: Ticket, record: CloseRecord, remainder: Position)
    requires Balanced(a, ledger, initial) && IsLive(a, i)
    requires !remainder.closed && record.volume + remainder.volume == a.positions[i].volume
    ensures forall r :: r in ledger.funded ==>
              ChainBalanced(Split(a, i, record, remainder),
                            ledger.(root := ledger.root[a.nextTicket := ledger.root[i]]), r)
  {
    forall r | r in ledger.funded
      ensures ChainBalanced(Split(a, i, record, remainder),
                            ledger.(root := ledger.root[a.nextTicket := ledger.root[i]]), r)
    {
      assert ChainBalanced(a, ledger, r);
      SplitChain(a, ledger, i, record, remainder, r);
    }
  }

  lemma SplitProfits(a: Account, ledger: Ledger, i: Ticket, record: CloseRecord, remainder: Position)
    requires WellKept(a, ledger) && IsLive(a, i)
    ensures var b := Split(a, i, record, remainder);
            b.balance - Profits(b, b.nextTicket) == a.balance - Profits(a, a.nextTicket)
  {
    ProfitsChange(a, Split(a, i, record, remainder), a.nextTicket, i);
  }

  lemma SplittingBalances(a: Account, ledger: Ledger, initial: int, i: Ticket, record: CloseRecord, remainder: Position)
    requires Balanced(a, ledger, initial) && IsLive(a, i)
    requires !remainder.closed && record.volume + remainder.volume == a.positions[i].volume
    ensures Balanced(Split(a, i, record, remainder),
                     ledger.(root := ledger.root[a.nextTicket := ledger.root[i]]), initial)
  {
    SplitChains(a, ledger, initial, i, record, remainder);
    SplitWellKept(a, ledger, i, record, remainder);
    SplitProfits(a, ledger, i, record, remainder);
  }

  /** What a close of a live ticket records. */
  ghost function RecordOf(a: Account, order: Order): CloseRecord
    requires order.CloseOrder? && IsLive(a, order.ticket)
  {
    var position := a.positions[order.ticket];
    var closing := order.volume.GetOr(position.volume);
    CloseRecord(order.ticket, position.symbol, position.orderType, position.openPrice, position.currentPrice,
                ProfitOf(position, closing, order.price), closing, order.now, COPIED_CLOSE)
  }

  /** An MT4 close settles the whole ticket, or splits it. */
  lemma MT4CloseIs(a: Account, order: Order)
    requires a.platform == MT4 && order.CloseOrder? && IsLive(a, order.ticket)
    ensures var i, record := order.ticket, RecordOf(a, order);
            var position := a.positions[i];
            Apply(a, order) ==
              if record.volume >= position.volume then Settle(a, i, record)
              else Split(a, i, record,
                         position.(ticket := a.nextTicket, volume := position.volume - record.volume, closed := false))
  {
  }

  lemma ClosingBalances(a: Account, ledger: Ledger, initial: int, order: Order)
    requires Balanced(a, ledger, initial) && order.CloseOrder? && IsLive(a, order.ticket)
    ensures Balanced(Apply(a, order), Record(a, ledger, order), initial)
  {
    var i, record := order.ticket, RecordOf(a, order);
    var position := a.positions[i];
    MT4CloseIs(a, order);
    if record.volume >= position.volume {
      SettlingBalances(a, ledger, initial, i, record);
    } else {
      SplittingBalances(a, ledger, initial, i, record,
                        position.(ticket := a.nextTicket, volume := position.volume - record.volume, closed := false));
    }
  }

  lemma RefusedCloseBalances(a: Account, ledger: Ledger, initial: int, order: Order)
    requires Balanced(a, ledger, initial) && order.CloseOrder? && !IsLive(a, order.ticket)
    ensures Balanced(Apply(a, order), Record(a, ledger, order), initial)
  {
    if order.ticket in ledger.root {
      assert AddExcess(ledger, ledger.root[order.ticket], 0) == ledger;
    }
  }

  lemma OrderBalances(a: Account, ledger: Ledger, initial: int, order: Order)
    requires Balanced(a, ledger, initial)
    ensures Balanced(Apply(a, order), Record(a, ledger, order), initial)
  {
    match order {
      case OpenOrder(request, price) =>
        FundingBalances(a, ledger, initial, Position(a.nextTicket, request.symbol, request.orderType, request.volume,
                                                     price, price, request.sl, request.tp, request.clientId, false));
      case ModifyOrder(i, sl, tp) =>
        if IsLive(a, i) {
          RestopBalances(a, ledger, initial, i, Apply(a, order).positions[i]);
        }
      case CloseOrder(_, _, _, _) =>
        if IsLive(a, order.ticket) {
          ClosingBalances(a, ledger, initial, order);
        } else {
          RefusedCloseBalances(a, ledger, initial, order);
        }
    }
  }

  lemma {:induction false} HistoryBalanced(start: Account, orders: seq<Order>)
    requires Untraded(start)
    ensures Balanced(Run(start, orders), History(start, orders), start.balance)
  {
    if orders == [] {
      ProfitsOfNothing(start, start.nextTicket);
    } else {
      var before := orders[..|orders| - 1];
      HistoryBalanced(start, before);
      OrderBalances(Run(start, before), History(start, before), start.balance, orders[|orders| - 1]);
    }
  }

  lemma {:induction false} ProfitsOfNothing(a: Account, n: nat)
    requires a.closes == map[]
    ensures Profits(a, n) == 0
  {
    if n > 0 {
      ProfitsOfNothing(a, n - 1);
    }
  }

  ghost predicate NoExcess(ledger: Ledger) {
    forall r :: r in ledger.excess ==> ledger.excess[r] == 0
  }

  lemma ExcessStep(a: Account, ledger: Ledger, order: Order)
    requires WellKept(a, ledger)
    ensures NoExcess(Record(a, ledger, order)) <==> NoExcess(ledger) && OverClosed(a, order) == 0
  {
    var next := Record(a, ledger, order);
    if order.CloseOrder? && order.ticket in ledger.root {
      var r := ledger.root[order.ticket];
      if !NoExcess(ledger) {
        var q :| q in ledger.excess && ledger.excess[q] != 0;
        assert next.excess[q] != 0;
      }
      if OverClosed(a, order) > 0 {
        assert next.excess[r] != 0;
      }
    } else if next != ledger && !NoExcess(ledger) {
      var q :| q in ledger.excess && ledger.excess[q] != 0;
      assert q < a.nextTicket;
      assert next.excess[q] != 0;
    }
  }

  lemma {:induction false} ExcessIffOverClosed(start: Account, orders: seq<Order>)
    requires Untraded(start)
    ensures NoExcess(History(start, orders)) <==> NeverOverCloses(start, orders)
  {
    if orders != [] {
      var before := orders[..|orders| - 1];
      ExcessIffOverClosed(start, before);
      HistoryBalanced(start, before);
      ExcessStep(Run(start, before), History(start, before), orders[|orders| - 1]);
    }
  }

  /**
   * Over every run of orders on a fresh MT4 account: the balance is the initial
   * one plus every recorded close, tickets are issued upwards, and exactly when
   * no close asks for more than its ticket holds, each chain's opened volume is
   * what it still holds plus what is recorded as closed along it.
   */
  lemma MT4Conservation(start: Account, orders: seq<Order>)
    requires Untraded(start)
    ensures var a := Run(start, orders); var ledger := History(start, orders);
            && a.balance == start.balance + Profits(a, a.nextTicket)
            && (forall t :: t in a.positions ==> t < a.nextTicket)
            && ledger.root.Keys == a.positions.Keys
            && ((forall r :: r in ledger.funded ==>
                   ledger.funded[r] == Accounted(a, ledger.root, r, a.nextTicket))
                <==> NeverOverCloses(start, orders))
  {
    HistoryBalanced(start, orders);
    ExcessIffOverClosed(start, orders);
    var a, ledger := Run(start, orders), History(start, orders);
    forall r | r in ledger.funded
      ensures ledger.funded[r] == Accounted(a, ledger.root, r, a.nextTicket) <==> ledger.excess[r] == 0
    {
      assert ChainBalanced(a, ledger, r);
    }
  }

  lemma CloseRecordKept(a: Account, ledger: Ledger, order: Order, t: Ticket)
    requires WellKept(a, ledger) && t in a.closes
    ensures t in Apply(a, order).closes && Apply(a, order).closes[t] == a.closes[t]
  {
    assert !IsLive(a, t);
  }

  /** Every ticket is closed at most once: a close record, once written, is final. */
  lemma {:induction false} CloseRecordsAreFinal(start: Account, orders: seq<Order>, n: nat, t: Ticket)
    requires Untraded(start) && n <= |orders|
    requires t in Run(start, orders[..n]).closes
    ensures t in Run(start, orders).closes
    ensures Run(start, orders).closes[t] == Run(start, orders[..n]).closes[t]
    ensures !IsLive(Run(start, orders), t)
  {
    HistoryBalanced(start, orders);
    if n == |orders| {
      assert orders[..n] == orders;
    } else {
      var before := orders[..|orders| - 1];
      assert before[..n] == orders[..n];
      CloseRecordsAreFinal(start, before, n, t);
      HistoryBalanced(start, before);
      CloseRecordKept(Run(start, before), History(start, before), orders[|orders| - 1], t);
    }
  }

  /**
   * A netting merge keeps the money in the position: its price times volume is
   * off by at most half a quoted unit per lot held.
   */
  lemma MergeKeepsValue(position: Position, volume: nat, price: int, unit: int)
    requires unit > 0 && position.volume + volume > 0
    ensures var merged := Merge(position, volume, price, unit);
            && merged.volume == position.volume + volume
            && 2 * Abs(merged.openPrice * merged.volume - (position.openPrice * position.volume + price * volume))
               <= unit * merged.volume
            && merged == position.(openPrice := merged.openPrice, volume := merged.volume)
  {
    var total := position.volume + volume;
    var weighted := position.openPrice * position.volume + price * volume;
    assert total * unit > 0;
    NearestInUnits(Round(weighted, total * unit), weighted, total, unit);
  }

  lemma NearestInUnits(n: int, weighted: int, total: int, unit: int)
    requires total > 0 && unit > 0 && total * unit > 0
    requires IsNearest(n, weighted, total * unit)
    ensures 2 * Abs(n * unit * total - weighted) <= unit * total
  {
    assert n * (total * unit) == n * unit * total;
  }

  // ---- Where an order goes -------------------------------------------------

  ghost predicate LiveOn(b: Account, symbol: Symbol, t: Ticket) {
    IsLive(b, t) && b.positions[t].symbol == symbol
  }

  /** The oldest live position on a symbol. */
  ghost predicate OldestOn(b: Account, symbol: Symbol, t: Ticket) {
    t < b.nextTicket && LiveOn(b, symbol, t) && forall u: Ticket :: u < t ==> !LiveOn(b, symbol, u)
  }

  lemma {:induction false} FirstLiveIsOldest(b: Account, symbol: Symbol, from: Ticket, t: Ticket)
    requires forall u: Ticket :: u < from ==> !LiveOn(b, symbol, u)
    ensures FirstLive(b, symbol, from) == Some(t) <==> OldestOn(b, symbol, t)
    decreases b.nextTicket - from
  {
    if from < b.nextTicket && !LiveOn(b, symbol, from) {
      FirstLiveIsOldest(b, symbol, from + 1, t);
    }
  }

  ghost function Pow10(n: nat): nat {
    if n == 0 then 1 else 10 * Pow10(n - 1)
  }

  /** The unit a merged price is rounded to is the last quoted digit. */
  lemma UnitIsLastDigit(digits: nat)
    requires digits <= 5
    ensures PriceUnit(digits) * Pow10(digits) == 100000
  {
    assert Pow10(1) == 10 && Pow10(2) == 100 && Pow10(3) == 1000 && Pow10(4) == 10000 && Pow10(5) == 100000;
  }

  /** On a netting account an order joins the oldest live position on its symbol when that is of the same kind. */
  ghost predicate Joins(b: Account, request: OpenRequest, t: Ticket) {
    b.netting && OldestOn(b, request.symbol, t) && b.positions[t].orderType == request.orderType
  }

  lemma OpenJoinsIff(b: Account, request: OpenRequest, price: int, t: Ticket)
    requires request.symbol in SYMBOLS
    requires SYMBOLS[request.symbol].minLot <= request.volume <= SYMBOLS[request.symbol].maxLot
    ensures var existing := FirstLive(b, request.symbol, 0);
            b.netting && existing == Some(t) && b.positions[t].orderType == request.orderType <==> Joins(b, request, t)
  {
    FirstLiveIsOldest(b, request.symbol, 0, t);
  }

  /**
   * Where an order of an allowed size goes: into the position it joins, whose
   * volume grows and whose value is kept up to half a quoted digit per lot, or
   * else to a new ticket, at the current price and with its own stops.
   */
  lemma OrderPlaced(b: Account, request: OpenRequest, price: int, t: Ticket)
    requires request.symbol in SYMBOLS
    requires SYMBOLS[request.symbol].minLot <= request.volume <= SYMBOLS[request.symbol].maxLot
    ensures var (b', result) := OpenPosition(b, request, price);
            && result == Executed(result.ticket, None, Some(price), Some(request.volume))
            && b' == b.(positions := b'.positions, nextTicket := b'.nextTicket)
            && (Joins(b, request, t) ==>
                  && result.ticket == t && b'.nextTicket == b.nextTicket
                  && b'.positions == b.positions[t := b'.positions[t]]
                  && GrownBy(b.positions[t], b'.positions[t], request.volume, price))
            && ((forall u :: !Joins(b, request, u)) ==>
                  && result.ticket == b.nextTicket && b'.nextTicket == b.nextTicket + 1
                  && b'.positions == b.positions[b.nextTicket := Position(b.nextTicket, request.symbol,
                       request.orderType, request.volume, price, price, request.sl, request.tp, request.clientId,
                       false)])
  {
    OpenJoinsIff(b, request, price, t);
    var existing := FirstLive(b, request.symbol, 0);
    if existing.Some? {
      OpenJoinsIff(b, request, price, existing.value);
    }
    if Joins(b, request, t) {
      var p, unit := b.positions[t], PriceUnit(SYMBOLS[request.symbol].digits);
      MergeKeepsValue(p, request.volume, price, unit);
      UnitIsLastDigit(SYMBOLS[request.symbol].digits);
    }
  }

  ghost predicate GrownBy(p: Position, p': Position, volume: nat, price: int)
    requires p.symbol in SYMBOLS
  {
    && p' == p.(openPrice := p'.openPrice, volume := p.volume + volume)
    && 2 * Abs(p'.openPrice * p'.volume - (p.openPrice * p.volume + price * volume))
       <= 100000 / Pow10(SYMBOLS[p.symbol].digits) * p'.volume
  }
}
