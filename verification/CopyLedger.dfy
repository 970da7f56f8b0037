/**
 * The broker's books over copying runs: a run's copies, sweeps and closes reach
 * the broker as orders, so what holds of runs of orders holds of them; and what
 * a mapping records of its profit, against what its position earned.
 */
module CopyLedger {
  import opened Common
  import opened TradeTypes
  import opened MockBroker
  import L = BrokerLedger
  import opened EarnedProfit
  import opened MemberModel
  import opened MemberAgreement
  import opened ReconcileModel
  import opened MemberRuns

  /** The broker call of an adjustment. */
  ghost function AdjustmentOrder(sub: Subscription, event: TradeEvent, mapping: Mapping, at: Moment): L.Order {
    if event.eventType == MODIFY then
      L.ModifyOrder(mapping.memberTicket,
                    if sub.settings.None? || sub.settings.value.copySl then event.sl else None,
                    if sub.settings.None? || sub.settings.value.copyTp then event.tp else None)
    else
      L.CloseOrder(mapping.memberTicket,
                   if event.eventType == PARTIAL_CLOSE
                   then Some(CloseVolume(mapping.volume, event.closeFraction.GetOr(WHOLE))) else None,
                   at.price, at.now)
  }

  ghost function CopyOrders(m: Member, b: Account, sub: Subscription, event: TradeEvent, symbol: Symbol, row: RowId,
                            at: Moment): seq<L.Order>
  {
    if event.eventId in m.rows then []
    else if Opens(event) then
      var sent := CopyToMember(m, b, sub, event, symbol, row, at).sent;
      if sent.Some? then [L.OpenOrder(sent.value, at.price)] else []
    else if event.ticket !in m.mappings || m.mappings[event.ticket].status == CLOSED then []
    else [AdjustmentOrder(sub, event, m.mappings[event.ticket], at)]
  }

  /** The orders one action sends to the broker: at most one. */
  ghost function OrdersOf(n: Node, action: Action): seq<L.Order> {
    match action
    case Copy(sub, event, symbol, row, at) => CopyOrders(n.member, n.broker, sub, event, symbol, row, at)
    case SweepAccount(_, _, _) => []
    case CloseAtBroker(ticket, volume, price, now) => [L.CloseOrder(ticket, volume, price, now)]
    case SetCopying(_, _) => []
  }

  ghost function AllOrders(n: Node, actions: seq<Action>): seq<L.Order> {
    if actions == [] then []
    else
      var before := actions[..|actions| - 1];
      AllOrders(n, before) + OrdersOf(Run(n, before), actions[|actions| - 1])
  }

  lemma OneOrder(b: Account, order: L.Order)
    ensures L.Run(b, [order]) == L.Apply(b, order)
  {
    assert [order][..0] == [];
  }

  lemma {:induction false} RunConcat(b: Account, first: seq<L.Order>, second: seq<L.Order>)
    ensures L.Run(b, first + second) == L.Run(L.Run(b, first), second)
  {
    if second == [] {
      assert first + second == first;
    } else {
      RunConcat(b, first, second[..|second| - 1]);
      assert (first + second)[..|first + second| - 1] == first + second[..|second| - 1];
    }
  }

  lemma OpenIsOrder(m: Member, b: Account, sub: Subscription, event: TradeEvent, symbol: Symbol, row: RowId, at: Moment)
    requires event.eventId in m.rows && CommentsBelow(b, row)
    ensures var step := OpenForMember(m, b, sub, event, symbol, row, at);
            step.broker == if step.sent.Some? then L.Apply(b, L.OpenOrder(step.sent.value, at.price)) else b
  {
    var before, request := OpenReduces(m, b, sub, event, symbol, row, at);
  }

  lemma CopyIsOrders(m: Member, b: Account, sub: Subscription, event: TradeEvent, symbol: Symbol, row: RowId,
                     at: Moment)
    requires CommentsBelow(b, row)
    ensures CopyToMember(m, b, sub, event, symbol, row, at).broker
            == L.Run(b, CopyOrders(m, b, sub, event, symbol, row, at))
  {
    if event.eventId !in m.rows {
      var m1 := m.(rows := m.rows[event.eventId := NewRow(sub, event, row)]);
      if Opens(event) {
        OpenIsOrder(m1, b, sub, event, symbol, row, at);
        var sent := CopyToMember(m, b, sub, event, symbol, row, at).sent;
        if sent.Some? {
          OneOrder(b, L.OpenOrder(sent.value, at.price));
        }
      } else if event.ticket in m.mappings && m.mappings[event.ticket].status != CLOSED {
        OneOrder(b, AdjustmentOrder(sub, event, m.mappings[event.ticket], at));
      }
    }
  }

  lemma NextIsOrders(n: Node, action: Action)
    requires CommentsBelow(n.broker, n.nextRow) && WellPosed(n, action)
    ensures Next(n, action).broker == L.Run(n.broker, OrdersOf(n, action))
  {
    match action {
      case Copy(sub, event, symbol, row, at) =>
        CopyIsOrders(n.member, n.broker, sub, event, symbol, row, at);
      case SweepAccount(_, _, _) =>
      case CloseAtBroker(ticket, volume, price, now) =>
        OneOrder(n.broker, L.CloseOrder(ticket, volume, price, now));
      case SetCopying(_, _) =>
    }
  }

  /** Every copying run is a run of orders at the broker. */
  lemma {:induction false} RunIsOrders(n: Node, actions: seq<Action>)
    requires CommentsBelow(n.broker, n.nextRow) && WellPosedRun(n, actions)
    ensures Run(n, actions).broker == L.Run(n.broker, AllOrders(n, actions))
    ensures CommentsBelow(Run(n, actions).broker, Run(n, actions).nextRow)
  {
    if actions != [] {
      var before, last := actions[..|actions| - 1], actions[|actions| - 1];
      WellPosedPrefix(n, actions);
      RunIsOrders(n, before);
      NextIsOrders(Run(n, before), last);
      NextComments(Run(n, before), last);
      RunConcat(n.broker, AllOrders(n, before), OrdersOf(Run(n, before), last));
    }
  }

  /**
   * Over every copying run from an account nobody has traded on, the balance is
   * the initial one plus the profits on record if and only if the overwritten
   * profits net to nothing.
   */
  lemma RunBalanceIsOnRecordIff(n: Node, actions: seq<Action>)
    requires n.broker.positions == map[] && n.broker.closes == map[] && WellPosedRun(n, actions)
    ensures var b := Run(n, actions).broker;
            b.balance == n.broker.balance + L.Profits(b, b.nextTicket)
            <==> LostProfits(n.broker, AllOrders(n, actions)) == 0
  {
    RunIsOrders(n, actions);
    BalanceIsOnRecordIff(n.broker, AllOrders(n, actions));
  }

  // ---- A mapping's profit --------------------------------------------------

  /** A closed mapping's profit is the one on record for its last ticket. */
  ghost predicate ProfitOnRecord(b: Account, mapping: Mapping) {
    mapping.status == CLOSED && mapping.profit.Some? ==>
      mapping.memberTicket in b.closes && mapping.profit == Some(b.closes[mapping.memberTicket].profit)
  }

  ghost predicate ProfitsOnRecord(m: Member, b: Account) {
    forall k :: k in m.mappings ==> ProfitOnRecord(b, m.mappings[k])
  }

  /** Records of tickets that are not live are left alone. */
  ghost predicate RecordsKept(b: Account, b': Account) {
    forall t: Ticket :: !IsLive(b, t) ==>
      (t in b.closes <==> t in b'.closes) && (t in b.closes ==> b'.closes[t] == b.closes[t])
  }

  lemma OrderKeepsRecords(b: Account, order: L.Order)
    ensures RecordsKept(b, L.Apply(b, order))
  {
  }

  lemma ClosedMappingKept(m: Member, b: Account, b': Account, k: Ticket)
    requires Tracked(m, b) && RecordsKept(b, b') && k in m.mappings && ProfitOnRecord(b, m.mappings[k])
    ensures ProfitOnRecord(b', m.mappings[k])
  {
    assert MappingOk(b, m.mappings[k]);
  }

  /** The adjusted mapping itself: still open, or ended with the broker's own figure. */
  lemma AdjustedOnRecord(m: Member, b: Account, sub: Subscription, event: TradeEvent, at: Moment)
    requires event.eventId in m.rows && !Opens(event)
    requires event.ticket in m.mappings && m.mappings[event.ticket].status != CLOSED
    ensures var step := AdjustForMember(m, b, sub, event, at);
            && step.broker == L.Apply(b, AdjustmentOrder(sub, event, m.mappings[event.ticket], at))
            && step.member.mappings.Keys == m.mappings.Keys
            && ProfitOnRecord(step.broker, step.member.mappings[event.ticket])
            && forall k :: k in m.mappings && k != event.ticket ==> step.member.mappings[k] == m.mappings[k]
  {
  }

  lemma AdjustOnRecord(m: Member, b: Account, sub: Subscription, event: TradeEvent, at: Moment)
    requires event.eventId in m.rows && !Opens(event) && Tracked(m, b) && ProfitsOnRecord(m, b)
    ensures var step := AdjustForMember(m, b, sub, event, at);
            ProfitsOnRecord(step.member, step.broker)
  {
    if event.ticket in m.mappings && m.mappings[event.ticket].status != CLOSED {
      var step := AdjustForMember(m, b, sub, event, at);
      AdjustedOnRecord(m, b, sub, event, at);
      OrderKeepsRecords(b, AdjustmentOrder(sub, event, m.mappings[event.ticket], at));
      forall k | k in m.mappings && k != event.ticket
        ensures ProfitOnRecord(step.broker, m.mappings[k])
      {
        ClosedMappingKept(m, b, step.broker, k);
      }
    }
  }

  lemma OpenOnRecord(m: Member, b: Account, sub: Subscription, event: TradeEvent, symbol: Symbol, row: RowId,
                     at: Moment)
    requires event.eventId in m.rows && CommentsBelow(b, row) && Tracked(m, b) && ProfitsOnRecord(m, b)
    ensures var step := OpenForMember(m, b, sub, event, symbol, row, at);
            ProfitsOnRecord(step.member, step.broker)
  {
    var before, request := OpenReduces(m, b, sub, event, symbol, row, at);
    OpenEffect(b, request, at.price);
  }

  lemma CopyOnRecord(m: Member, b: Account, sub: Subscription, event: TradeEvent, symbol: Symbol, row: RowId,
                     at: Moment)
    requires CommentsBelow(b, row) && Tracked(m, b) && ProfitsOnRecord(m, b)
    ensures var step := CopyToMember(m, b, sub, event, symbol, row, at);
            ProfitsOnRecord(step.member, step.broker)
  {
    if event.eventId !in m.rows {
      var m1 := m.(rows := m.rows[event.eventId := NewRow(sub, event, row)]);
      if Opens(event) {
        OpenOnRecord(m1, b, sub, event, symbol, row, at);
      } else {
        AdjustOnRecord(m1, b, sub, event, at);
      }
    }
  }

  lemma SweepOnRecord(m: Member, b: Account, equity: int, batch: set<Ticket>, now: int)
    requires ProfitsOnRecord(m, b)
    ensures ProfitsOnRecord(Sweep(m, b, equity, batch, now), b)
  {
    var m' := Sweep(m, b, equity, batch, now);
    forall k | k in m'.mappings
      ensures ProfitOnRecord(b, m'.mappings[k])
    {
      assert ProfitOnRecord(b, m.mappings[k]);
    }
  }

  lemma OutsideCloseOnRecord(m: Member, b: Account, t: Ticket, volume: Option<nat>, price: int, now: int)
    requires Tracked(m, b) && ProfitsOnRecord(m, b)
    ensures ProfitsOnRecord(m, ClosePosition(b, t, volume, price, now).0)
  {
    OrderKeepsRecords(b, L.CloseOrder(t, volume, price, now));
    forall k | k in m.mappings
      ensures ProfitOnRecord(ClosePosition(b, t, volume, price, now).0, m.mappings[k])
    {
      ClosedMappingKept(m, b, ClosePosition(b, t, volume, price, now).0, k);
    }
  }

  lemma NextOnRecord(n: Node, action: Action)
    requires NodeOk(n) && WellPosed(n, action) && ProfitsOnRecord(n.member, n.broker)
    ensures ProfitsOnRecord(Next(n, action).member, Next(n, action).broker)
  {
    match action {
      case Copy(sub, event, symbol, row, at) =>
        CopyOnRecord(n.member, n.broker, sub, event, symbol, row, at);
      case SweepAccount(equity, batch, now) =>
        SweepOnRecord(n.member, n.broker, equity, batch, now);
      case CloseAtBroker(t, volume, price, now) =>
        OutsideCloseOnRecord(n.member, n.broker, t, volume, price, now);
      case SetCopying(_, _) =>
    }
  }

  /** Over every run, whatever closed it, a closed mapping's profit is the one on record for its last ticket. */
  lemma {:induction false} RunOnRecord(n: Node, actions: seq<Action>)
    requires NodeOk(n) && EnabledRun(n, actions) && ProfitsOnRecord(n.member, n.broker)
    ensures ProfitsOnRecord(Run(n, actions).member, Run(n, actions).broker)
  {
    if actions != [] {
      var before := actions[..|actions| - 1];
      EnabledPrefix(n, actions);
      RunOnRecord(n, before);
      RunsStayInAgreement(n, before);
      NextOnRecord(Run(n, before), actions[|actions| - 1]);
    }
  }

  /** What a chain of tickets earned, all its closes counted. */
  ghost function ChainEarned(start: Account, orders: seq<L.Order>, chain: seq<Ticket>): int {
    if chain == [] then 0
    else ChainEarned(start, orders, chain[..|chain| - 1]) + Earned(start, orders, chain[|chain| - 1])
  }

  lemma EnabledIsWellPosed(n: Node, actions: seq<Action>)
    requires EnabledRun(n, actions)
    ensures WellPosedRun(n, actions)
  {
    forall i | 0 <= i < |actions|
      ensures WellPosed(Run(n, actions[..i]), actions[i])
    {
      assert Enabled(Run(n, actions[..i]), actions[i]);
    }
  }

  /** The earlier closes of a mapping's position: those of its former tickets, and those its last close overwrote. */
  ghost function EarlierProfit(start: Account, orders: seq<L.Order>, mapping: Mapping): int {
    ChainEarned(start, orders, mapping.ticketHistory) + LostProfit(start, orders, mapping.memberTicket)
  }

  /** The mapping's profit is everything its chain of tickets earned. */
  ghost predicate EarnedInFull(start: Account, orders: seq<L.Order>, mapping: Mapping) {
    mapping.profit == Some(ChainEarned(start, orders, Chain(mapping)))
  }

  lemma ProfitAndEarned(start: Account, orders: seq<L.Order>, mapping: Mapping)
    requires start.closes == map[] && mapping.status == CLOSED && mapping.profit.Some?
    requires ProfitOnRecord(L.Run(start, orders), mapping)
    ensures EarnedInFull(start, orders, mapping) <==> EarlierProfit(start, orders, mapping) == 0
  {
    EarnedIsOnRecord(start, orders, mapping.memberTicket);
    assert Chain(mapping)[..|mapping.ticketHistory|] == mapping.ticketHistory;
  }

  lemma FreshNodeOk(n: Node)
    requires n.member.mappings == map[] && n.broker.positions == map[] && !n.broker.netting
    ensures NodeOk(n) && ProfitsOnRecord(n.member, n.broker)
  {
  }

  lemma EndsOnRecord(n: Node, actions: seq<Action>, k: Ticket)
    requires NodeOk(n) && ProfitsOnRecord(n.member, n.broker) && EnabledRun(n, actions)
    requires k in Run(n, actions).member.mappings
    ensures ProfitOnRecord(L.Run(n.broker, AllOrders(n, actions)), Run(n, actions).member.mappings[k])
  {
    EnabledIsWellPosed(n, actions);
    RunIsOrders(n, actions);
    RunOnRecord(n, actions);
  }

  /**
   * Over every run from an account nobody has copied to or traded on: a closed
   * mapping's profit is what its whole position earned if and only if the
   * earlier closes net to nothing: those of its former tickets (MT4), and those
   * whose record the last close has overwritten (MT5).
   */
  lemma ProfitIsWhatWasEarnedIff(n: Node, actions: seq<Action>, k: Ticket)
    requires n.member.mappings == map[] && n.broker.positions == map[] && n.broker.closes == map[] && !n.broker.netting
    requires EnabledRun(n, actions) && k in Run(n, actions).member.mappings
    requires var mapping := Run(n, actions).member.mappings[k]; mapping.status == CLOSED && mapping.profit.Some?
    ensures var mapping, orders := Run(n, actions).member.mappings[k], AllOrders(n, actions);
            EarnedInFull(n.broker, orders, mapping) <==> EarlierProfit(n.broker, orders, mapping) == 0
  {
    FreshNodeOk(n);
    EndsOnRecord(n, actions, k);
    ProfitAndEarned(n.broker, AllOrders(n, actions), Run(n, actions).member.mappings[k]);
  }

  ghost function ChainRecorded(b: Account, chain: seq<Ticket>): int {
    if chain == [] then 0 else ChainRecorded(b, chain[..|chain| - 1]) + RecordedProfit(b, chain[|chain| - 1])
  }

  lemma {:induction false} MT4ChainIsOnRecord(start: Account, orders: seq<L.Order>, chain: seq<Ticket>)
    requires L.Untraded(start)
    ensures ChainEarned(start, orders, chain) == ChainRecorded(L.Run(start, orders), chain)
  {
    if chain != [] {
      MT4ChainIsOnRecord(start, orders, chain[..|chain| - 1]);
      MT4LosesNothing(start, orders, chain[|chain| - 1]);
    }
  }

  /** On MT4 that is: if and only if the records of the former tickets net to nothing. */
  lemma MT4ProfitIsWhatWasEarnedIff(n: Node, actions: seq<Action>, k: Ticket)
    requires n.member.mappings == map[] && L.Untraded(n.broker)
    requires EnabledRun(n, actions) && k in Run(n, actions).member.mappings
    requires var mapping := Run(n, actions).member.mappings[k]; mapping.status == CLOSED && mapping.profit.Some?
    ensures var mapping, b := Run(n, actions).member.mappings[k], Run(n, actions).broker;
            mapping.profit == Some(ChainRecorded(b, Chain(mapping))) <==> ChainRecorded(b, mapping.ticketHistory) == 0
  {
    var mapping, orders := Run(n, actions).member.mappings[k], AllOrders(n, actions);
    EnabledIsWellPosed(n, actions);
    RunIsOrders(n, actions);
    ProfitIsWhatWasEarnedIff(n, actions, k);
    MT4ChainIsOnRecord(n.broker, orders, Chain(mapping));
    MT4ChainIsOnRecord(n.broker, orders, mapping.ticketHistory);
    MT4LosesNothing(n.broker, orders, mapping.memberTicket);
  }

  /** Two closes of one ticket on MT5: the first made 4, and only the second's 6 stays on record. */
  lemma FirstProfitIsLost(start: Account, request: OpenRequest, now: int)
    requires start.platform == MT5 && !start.netting && start.positions == map[] && start.closes == map[]
    requires request.symbol == "EURUSD" && request.orderType == BUY && request.volume == 10
    ensures var t := start.nextTicket;
            var orders := [L.OpenOrder(request, 100000), L.CloseOrder(t, Some(4), 101000, now),
                           L.CloseOrder(t, None, 101000, now)];
            Earned(start, orders, t) == 10 && RecordedProfit(L.Run(start, orders), t) == 6
  {
    var t := start.nextTicket;
    var open := L.OpenOrder(request, 100000);
    var first, second := L.CloseOrder(t, Some(4), 101000, now), L.CloseOrder(t, None, 101000, now);
    var a := L.Apply(start, open);
    var b := L.Apply(a, first);
    assert IsLive(a, t) && a.positions[t].volume == 10 && a.positions[t].openPrice == 100000;
    assert L.RecordOf(a, first).profit == 4;
    assert IsLive(b, t) && b.positions[t] == a.positions[t].(volume := 6);
    assert L.RecordOf(b, second).profit == 6;
    ThreeOrders(start, open, first, second, t);
    OrderBooks(b, second, t);
    OrderBooks(a, first, t);
  }

  lemma ThreeOrders(start: Account, first: L.Order, second: L.Order, third: L.Order, t: Ticket)
    ensures var orders := [first, second, third];
            var a := L.Apply(start, first);
            var b := L.Apply(a, second);
            && L.Run(start, orders) == L.Apply(b, third)
            && Earned(start, orders, t) == BookedBy(start, first, t) + BookedBy(a, second, t) + BookedBy(b, third, t)
  {
    var orders := [first, second, third];
    assert orders[..2] == [first, second] && orders[..2][..1] == [first] && [first][..0] == [];
    assert L.Run(start, [first]) == L.Apply(start, first);
    assert L.Run(start, [first, second]) == L.Apply(L.Apply(start, first), second);
    assert Earned(start, [first], t) == BookedBy(start, first, t);
  }
}
