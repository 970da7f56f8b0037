/** What holds over every sequential run of copies, sweeps, broker-side closes and restarts on one account. */
module MemberRuns {
  import opened Common
  import opened TradeTypes
  import opened MockBroker
  import opened MemberModel
  import opened MemberAgreement
  import opened ReconcileModel

  datatype Action =
    | Copy(sub: Subscription, event: TradeEvent, symbol: Symbol, row: RowId, at: Moment)
    | SweepAccount(equity: int, batch: set<Ticket>, now: int)
    | CloseAtBroker(ticket: Ticket, volume: Option<nat>, price: int, now: int)
    | SetCopying(id: SubscriptionId, on: bool)

  /** An account as stored and at the broker, and a bound on the row ids created so far. */
  datatype Node = Node(member: Member, broker: Account, nextRow: RowId)

  ghost function StepOf(n: Node, action: Action): CopyStep
    requires action.Copy?
  {
    CopyToMember(n.member, n.broker, action.sub, action.event, action.symbol, action.row, action.at)
  }

  ghost function Next(n: Node, action: Action): Node {
    match action
    case Copy(_, _, _, row, _) =>
      var step := StepOf(n, action);
      Node(step.member, step.broker, row + 1)
    case SweepAccount(equity, batch, now) =>
      n.(member := Sweep(n.member, n.broker, equity, batch, now))
    case CloseAtBroker(ticket, volume, price, now) =>
      n.(broker := ClosePosition(n.broker, ticket, volume, price, now).0)
    case SetCopying(id, on) =>
      n.(member := n.member.(copying := if on then n.member.copying + {id} else n.member.copying - {id}))
  }

  ghost function Run(n: Node, actions: seq<Action>): Node {
    if actions == [] then n else Next(Run(n, actions[..|actions| - 1]), actions[|actions| - 1])
  }

  /** Row ids are fresh, and sweeps work on a proper query answer. */
  ghost predicate WellPosed(n: Node, action: Action) {
    match action
    case Copy(_, _, _, row, _) => n.nextRow <= row
    case SweepAccount(_, batch, now) =>
      Reachable(n.member) && IsBatch(AfterVanished(n.broker, n.member.mappings, now), now, batch)
    case CloseAtBroker(_, _, _, _) => true
    case SetCopying(_, _) => true
  }

  /** A close made at the broker itself is of a whole position. */
  ghost predicate ClosesWhole(n: Node, action: Action) {
    action.CloseAtBroker? ==> WholeClose(n.broker, action.ticket, action.volume)
  }

  /** Besides, no new OPEN reuses a ticket still held, and closes at the broker are whole. */
  ghost predicate Enabled(n: Node, action: Action) {
    && WellPosed(n, action)
    && (action.Copy? ==> SafeToCopy(n.member, action.event))
    && ClosesWhole(n, action)
  }

  ghost predicate ClosesWholeRun(n: Node, actions: seq<Action>) {
    forall i :: 0 <= i < |actions| ==> ClosesWhole(Run(n, actions[..i]), actions[i])
  }

  ghost predicate EnabledRun(n: Node, actions: seq<Action>) {
    forall i :: 0 <= i < |actions| ==> Enabled(Run(n, actions[..i]), actions[i])
  }

  lemma EnabledPrefix(n: Node, actions: seq<Action>)
    requires EnabledRun(n, actions) && actions != []
    ensures EnabledRun(n, actions[..|actions| - 1])
    ensures Enabled(Run(n, actions[..|actions| - 1]), actions[|actions| - 1])
  {
    var before := actions[..|actions| - 1];
    forall i | 0 <= i < |before|
      ensures Enabled(Run(n, before[..i]), before[i])
    {
      assert before[..i] == actions[..i];
    }
  }

  ghost predicate WellPosedRun(n: Node, actions: seq<Action>) {
    forall i :: 0 <= i < |actions| ==> WellPosed(Run(n, actions[..i]), actions[i])
  }

  lemma WellPosedPrefix(n: Node, actions: seq<Action>)
    requires WellPosedRun(n, actions) && actions != []
    ensures WellPosedRun(n, actions[..|actions| - 1])
    ensures WellPosed(Run(n, actions[..|actions| - 1]), actions[|actions| - 1])
  {
    var before := actions[..|actions| - 1];
    forall i | 0 <= i < |before|
      ensures WellPosed(Run(n, before[..i]), before[i])
    {
      assert before[..i] == actions[..i];
    }
  }

  lemma ClosesWholePrefix(n: Node, actions: seq<Action>)
    requires ClosesWholeRun(n, actions) && actions != []
    ensures ClosesWholeRun(n, actions[..|actions| - 1])
    ensures ClosesWhole(Run(n, actions[..|actions| - 1]), actions[|actions| - 1])
  {
    var before := actions[..|actions| - 1];
    forall i | 0 <= i < |before|
      ensures ClosesWhole(Run(n, before[..i]), before[i])
    {
      assert before[..i] == actions[..i];
    }
  }

  lemma EnabledExtends(n: Node, actions: seq<Action>)
    requires actions != [] && EnabledRun(n, actions[..|actions| - 1])
    requires Enabled(Run(n, actions[..|actions| - 1]), actions[|actions| - 1])
    ensures EnabledRun(n, actions)
  {
    var before := actions[..|actions| - 1];
    forall i | 0 <= i < |actions|
      ensures Enabled(Run(n, actions[..i]), actions[i])
    {
      if i < |before| {
        assert before[..i] == actions[..i] && Enabled(Run(n, before[..i]), before[i]);
      }
    }
  }

  // ---- Agreement over runs -------------------------------------------------

  ghost predicate NodeOk(n: Node) {
    Tracked(n.member, n.broker) && CommentsBelow(n.broker, n.nextRow)
  }

  lemma NextOk(n: Node, action: Action)
    requires NodeOk(n) && Enabled(n, action)
    ensures NodeOk(Next(n, action))
    ensures !action.CloseAtBroker? && AllHeldLive(n.member, n.broker) ==>
              AllHeldLive(Next(n, action).member, Next(n, action).broker)
    ensures action.SweepAccount? ==> InSync(Next(n, action).member, Next(n, action).broker)
  {
    match action {
      case Copy(sub, event, symbol, row, at) =>
        CopyTracked(n.member, n.broker, sub, event, symbol, row, at);
        CopyComments(n.member, n.broker, sub, event, symbol, row, at);
      case SweepAccount(equity, batch, now) =>
        SweepRestoresSyncIff(n.member, n.broker, equity, batch, now);
      case CloseAtBroker(t, volume, price, now) =>
        WholeCloseTracked(n.member, n.broker, t, volume, price, now);
        CloseEffect(n.broker, t, volume, price, now);
      case SetCopying(_, _) =>
    }
  }

  /** Up to the end of the run, no position was closed at the broker itself since the last sweep. */
  predicate SettledSince(actions: seq<Action>, inSync: bool) {
    if actions == [] then inSync
    else
      var last := actions[|actions| - 1];
      last.SweepAccount? || (!last.CloseAtBroker? && SettledSince(actions[..|actions| - 1], inSync))
  }

  /**
   * In every run, no live position is orphaned or claimed twice and volumes
   * agree; and whenever nothing was closed behind the platform's back since the
   * last sweep, the mappings holding volume are exactly the live positions.
   */
  lemma {:induction false} RunsStayInAgreement(n: Node, actions: seq<Action>)
    requires NodeOk(n) && EnabledRun(n, actions)
    ensures NodeOk(Run(n, actions))
    ensures SettledSince(actions, AllHeldLive(n.member, n.broker)) ==>
              InSync(Run(n, actions).member, Run(n, actions).broker)
  {
    if actions != [] {
      EnabledPrefix(n, actions);
      RunsStayInAgreement(n, actions[..|actions| - 1]);
      NextOk(Run(n, actions[..|actions| - 1]), actions[|actions| - 1]);
    }
  }

  /** The same, from an account nobody has copied to or traded on yet. */
  lemma RunsFromScratchAgree(n: Node, actions: seq<Action>)
    requires n.member.mappings == map[] && n.broker.positions == map[] && !n.broker.netting
    requires EnabledRun(n, actions)
    ensures Tracked(Run(n, actions).member, Run(n, actions).broker)
    ensures SettledSince(actions, true) ==> InSync(Run(n, actions).member, Run(n, actions).broker)
  {
    RunsStayInAgreement(n, actions);
  }

  /** Every ticket a mapping has had is issued once, closed once superseded, and belongs to no other mapping. */
  lemma TicketChains(n: Node, actions: seq<Action>)
    requires NodeOk(n) && EnabledRun(n, actions)
    ensures var m := Run(n, actions).member; var b := Run(n, actions).broker;
            forall k :: k in m.mappings ==>
              && ChainOk(b, m.mappings[k])
              && forall k', t :: k' != k && InChain(m.mappings, k', t) ==> t !in Chain(m.mappings[k])
  {
    RunsStayInAgreement(n, actions);
    var m, b := Run(n, actions).member, Run(n, actions).broker;
    forall k | k in m.mappings
      ensures ChainOk(b, m.mappings[k])
      ensures forall k', t :: k' != k && InChain(m.mappings, k', t) ==> t !in Chain(m.mappings[k])
    {
      assert MappingOk(b, m.mappings[k]);
      forall k', t | k' != k && InChain(m.mappings, k', t)
        ensures t !in Chain(m.mappings[k])
      {
        assert InChain(m.mappings, k, t) ==> k == k';
      }
    }
  }

  // ---- Results are permanent -----------------------------------------------

  ghost predicate HasResult(m: Member, k: Ticket, profit: int) {
    k in m.mappings && m.mappings[k].status == CLOSED && m.mappings[k].profit == Some(profit)
  }

  /** An OPEN of the master ticket `k` that has not been seen and that nothing stops. */
  ghost predicate Refills(n: Node, action: Action, k: Ticket) {
    && action.Copy? && Opens(action.event) && action.event.ticket == k
    && action.event.eventId !in n.member.rows
    && Executes(n.member, n.broker, action.sub, action.event, action.symbol, action.row, action.at)
  }

  lemma CopyTouchesOnlyItsTicket(n: Node, action: Action, k: Ticket)
    requires action.Copy? && k in n.member.mappings
    requires k != action.event.ticket || (n.member.mappings[k].status == CLOSED && !Opens(action.event))
    ensures k in StepOf(n, action).member.mappings && StepOf(n, action).member.mappings[k] == n.member.mappings[k]
  {
  }

  lemma RefillOrKeep(n: Node, action: Action, k: Ticket)
    requires action.Copy? && Opens(action.event) && k == action.event.ticket && k in n.member.mappings
    requires action.event.eventId !in n.member.rows
    ensures var m' := StepOf(n, action).member;
            k in m'.mappings && if StepOf(n, action).outcome == SUCCESS then m'.mappings[k].status == OPENED
                               else m'.mappings[k] == n.member.mappings[k]
  {
  }

  /** A copy leaves a recorded result alone if and only if it does not open the same master ticket again. */
  lemma CopyKeepsResultIff(n: Node, action: Action, k: Ticket, profit: int)
    requires action.Copy? && HasResult(n.member, k, profit)
    ensures HasResult(StepOf(n, action).member, k, profit) <==> !Refills(n, action, k)
    ensures !Refills(n, action, k) ==> StepOf(n, action).member.mappings[k] == n.member.mappings[k]
  {
    if k != action.event.ticket || !Opens(action.event) {
      CopyTouchesOnlyItsTicket(n, action, k);
    } else if action.event.eventId !in n.member.rows {
      ExecutesIff(n.member, n.broker, action.sub, action.event, action.symbol, action.row, action.at);
      RefillOrKeep(n, action, k);
    }
  }

  /**
   * As long as its master ticket is not opened again, a realised result, once
   * recorded, is never changed or erased and its position never reopens,
   * whatever later copies and sweeps do.
   */
  lemma {:induction false} ResultsArePermanent(n: Node, actions: seq<Action>, k: Ticket, profit: int)
    requires HasResult(n.member, k, profit) && WellPosedRun(n, actions)
    requires forall i :: 0 <= i < |actions| ==> !Refills(Run(n, actions[..i]), actions[i], k)
    ensures HasResult(Run(n, actions).member, k, profit)
    ensures Run(n, actions).member.mappings[k] == n.member.mappings[k]
  {
    if actions != [] {
      var before, last := actions[..|actions| - 1], actions[|actions| - 1];
      WellPosedPrefix(n, actions);
      forall i | 0 <= i < |before|
        ensures !Refills(Run(n, before[..i]), before[i], k)
      {
        assert before[..i] == actions[..i] && before[i] == actions[i];
      }
      ResultsArePermanent(n, before, k, profit);
      var mid := Run(n, before);
      match last {
        case Copy(_, _, _, _, _) => CopyKeepsResultIff(mid, last, k, profit);
        case SweepAccount(equity, batch, now) => SweepKeepsResults(mid.member, mid.broker, equity, batch, now, k);
        case CloseAtBroker(_, _, _, _) =>
        case SetCopying(_, _) =>
      }
    }
  }

  // ---- The breach lock -----------------------------------------------------

  ghost predicate Locked(m: Member, day: Day) {
    m.risk.Some? && m.risk.value.breached && m.risk.value.tradingDay == day
  }

  ghost predicate WithinDay(action: Action, day: Day) {
    action.Copy? ==> action.at.today == day
  }

  /** While locked, an OPEN reaches neither the broker nor the mappings. */
  lemma LockedOpens(m: Member, b: Account, sub: Subscription, event: TradeEvent, symbol: Symbol, row: RowId, at: Moment)
    requires Locked(m, at.today) && CommentsBelow(b, row) && Opens(event)
    ensures var step := CopyToMember(m, b, sub, event, symbol, row, at);
            step.sent.None? && step.broker == b && step.member.mappings == m.mappings && step.member.risk == m.risk
  {
    RecoveryNeverFires(b, row);
  }

  lemma LockHolds(n: Node, action: Action, day: Day)
    requires Locked(n.member, day) && CommentsBelow(n.broker, n.nextRow)
    requires WellPosed(n, action) && WithinDay(action, day)
    ensures Locked(Next(n, action).member, day)
    ensures action.Copy? && Opens(action.event) ==> StepOf(n, action).sent.None? && StepOf(n, action).broker == n.broker
  {
    if action.Copy? && Opens(action.event) {
      LockedOpens(n.member, n.broker, action.sub, action.event, action.symbol, action.row, action.at);
    }
  }

  lemma NextComments(n: Node, action: Action)
    requires CommentsBelow(n.broker, n.nextRow) && WellPosed(n, action)
    ensures CommentsBelow(Next(n, action).broker, Next(n, action).nextRow)
  {
    match action {
      case Copy(sub, event, symbol, row, at) =>
        CopyComments(n.member, n.broker, sub, event, symbol, row, at);
      case SweepAccount(_, _, _) =>
      case CloseAtBroker(t, volume, price, now) =>
        CloseEffect(n.broker, t, volume, price, now);
      case SetCopying(_, _) =>
    }
  }

  ghost predicate WithinDayRun(actions: seq<Action>, day: Day) {
    forall i :: 0 <= i < |actions| ==> WithinDay(actions[i], day)
  }

  lemma {:induction false} LockStays(n: Node, actions: seq<Action>, day: Day)
    requires CommentsBelow(n.broker, n.nextRow) && WellPosedRun(n, actions) && Locked(n.member, day)
    requires WithinDayRun(actions, day)
    ensures Locked(Run(n, actions).member, day) && CommentsBelow(Run(n, actions).broker, Run(n, actions).nextRow)
  {
    if actions != [] {
      var before, last := actions[..|actions| - 1], actions[|actions| - 1];
      WellPosedPrefix(n, actions);
      LockStays(n, before, day);
      LockHolds(Run(n, before), last, day);
      NextComments(Run(n, before), last);
    }
  }

  lemma WellPosedTake(n: Node, actions: seq<Action>, i: nat)
    requires WellPosedRun(n, actions) && i <= |actions|
    ensures WellPosedRun(n, actions[..i])
  {
    forall j | 0 <= j < i
      ensures WellPosed(Run(n, actions[..i][..j]), actions[..i][j])
    {
      assert actions[..i][..j] == actions[..j];
    }
  }

  lemma LockedCopy(n: Node, actions: seq<Action>, day: Day, i: nat)
    requires CommentsBelow(n.broker, n.nextRow) && WellPosedRun(n, actions) && Locked(n.member, day)
    requires WithinDayRun(actions, day)
    requires i < |actions| && actions[i].Copy? && Opens(actions[i].event)
    ensures var before := Run(n, actions[..i]);
            StepOf(before, actions[i]).sent.None? && StepOf(before, actions[i]).broker == before.broker
  {
    WellPosedTake(n, actions, i);
    LockStays(n, actions[..i], day);
    LockHolds(Run(n, actions[..i]), actions[i], day);
  }

  /**
   * Once a breach is recorded, no OPEN or pending order of any subscription
   * reaches the broker for the rest of that trading day, even if the member
   * restarts copying; hedging or netting.
   */
  lemma BreachLock(n: Node, actions: seq<Action>, day: Day)
    requires CommentsBelow(n.broker, n.nextRow) && WellPosedRun(n, actions) && Locked(n.member, day)
    requires WithinDayRun(actions, day)
    ensures Locked(Run(n, actions).member, day)
    ensures forall i :: 0 <= i < |actions| && actions[i].Copy? && Opens(actions[i].event) ==>
              var before := Run(n, actions[..i]);
              StepOf(before, actions[i]).sent.None? && StepOf(before, actions[i]).broker == before.broker
  {
    LockStays(n, actions, day);
    forall i: nat | i < |actions| && actions[i].Copy? && Opens(actions[i].event)
      ensures StepOf(Run(n, actions[..i]), actions[i]).sent.None?
      ensures StepOf(Run(n, actions[..i]), actions[i]).broker == Run(n, actions[..i]).broker
    {
      LockedCopy(n, actions, day, i);
    }
  }

  /** Only an OPEN copied on another trading day lifts the lock. */
  lemma OnlyAnotherDayUnlocks(n: Node, action: Action, day: Day)
    requires Locked(n.member, day) && CommentsBelow(n.broker, n.nextRow) && WellPosed(n, action)
    requires !Locked(Next(n, action).member, day)
    ensures action.Copy? && action.at.today != day && Opens(action.event)
  {
    if WithinDay(action, day) {
      LockHolds(n, action, day);
    }
  }

  /** The account-wide lock is what a breach on any one subscription writes. */
  lemma BreachLocks(n: Node, action: Action)
    requires action.Copy? && Opens(action.event) && action.event.eventId !in n.member.rows
    requires CommentsBelow(n.broker, action.row)
    requires StepOf(n, action).member.copying != n.member.copying
    ensures Locked(Next(n, action).member, action.at.today)
    ensures StepOf(n, action).sent.None?
  {
  }

  /** Copying one event leaves the risk state alone or moves it on to today's. */
  ghost predicate RiskMoves(m: Member, m': Member, today: Day) {
    || m'.risk == m.risk
    || (m'.risk.Some?
        && var now, start := m'.risk.value, TodaysRisk(m, today);
        now.tradingDay == today && now.dailyStartEquity == start.dailyStartEquity && (start.breached ==> now.breached))
  }

  lemma OpenMovesRisk(m: Member, b: Account, sub: Subscription, event: TradeEvent, symbol: Symbol, row: RowId,
                      at: Moment)
    requires event.eventId in m.rows
    ensures RiskMoves(m, OpenForMember(m, b, sub, event, symbol, row, at).member, at.today)
  {
  }

  lemma CopyMovesRisk(m: Member, b: Account, sub: Subscription, event: TradeEvent, symbol: Symbol, row: RowId,
                      at: Moment)
    ensures RiskMoves(m, CopyToMember(m, b, sub, event, symbol, row, at).member, at.today)
  {
    if event.eventId !in m.rows {
      var m1 := m.(rows := m.rows[event.eventId := NewRow(sub, event, row)]);
      if Opens(event) {
        OpenMovesRisk(m1, b, sub, event, symbol, row, at);
      } else {
        assert AdjustForMember(m1, b, sub, event, at).member.risk == m.risk;
      }
    }
  }

  /** Within a trading day, every loss check measures from the same starting equity. */
  lemma {:induction false} DayStartIsKept(n: Node, actions: seq<Action>, day: Day)
    requires n.member.risk.Some? && n.member.risk.value.tradingDay == day
    requires forall i :: 0 <= i < |actions| ==> WithinDay(actions[i], day)
    ensures var risk := Run(n, actions).member.risk;
            && risk.Some? && risk.value.tradingDay == day
            && risk.value.dailyStartEquity == n.member.risk.value.dailyStartEquity
            && (n.member.risk.value.breached ==> risk.value.breached)
  {
    if actions != [] {
      DayStartIsKept(n, actions[..|actions| - 1], day);
      DayStartStep(Run(n, actions[..|actions| - 1]), actions[|actions| - 1], day);
    }
  }

  lemma DayStartStep(n: Node, action: Action, day: Day)
    requires n.member.risk.Some? && n.member.risk.value.tradingDay == day && WithinDay(action, day)
    ensures var risk := Next(n, action).member.risk;
            && risk.Some? && risk.value.tradingDay == day
            && risk.value.dailyStartEquity == n.member.risk.value.dailyStartEquity
            && (n.member.risk.value.breached ==> risk.value.breached)
  {
    if action.Copy? {
      CopyMovesRisk(n.member, n.broker, action.sub, action.event, action.symbol, action.row, action.at);
    }
  }

  /** The first OPEN of a trading day that reaches the risk check starts it from the account's equity. */
  lemma DayStartsFromEquity(n: Node, action: Action)
    requires action.Copy? && (n.member.risk.Some? ==> n.member.risk.value.tradingDay != action.at.today)
    requires Next(n, action).member.risk != n.member.risk
    ensures Next(n, action).member.risk.Some?
    ensures Next(n, action).member.risk.value.tradingDay == action.at.today
    ensures Next(n, action).member.risk.value.dailyStartEquity == n.member.equity
  {
    CopyMovesRisk(n.member, n.broker, action.sub, action.event, action.symbol, action.row, action.at);
  }

  // ---- The peak the drawdown limit is measured from ------------------------

  /** The equities sweeps reported, in order. */
  function Reported(actions: seq<Action>): seq<int> {
    if actions == [] then []
    else
      var last := actions[|actions| - 1];
      Reported(actions[..|actions| - 1]) + (if last.SweepAccount? then [last.equity] else [])
  }

  lemma CopyKeepsFigures(m: Member, b: Account, sub: Subscription, event: TradeEvent, symbol: Symbol, row: RowId,
                         at: Moment)
    ensures var m' := CopyToMember(m, b, sub, event, symbol, row, at).member;
            m'.equity == m.equity && m'.peakEquity == m.peakEquity && m'.connection == m.connection
  {
  }

  lemma FiguresStep(n: Node, action: Action)
    requires WellPosed(n, action)
    ensures var m, m' := n.member, Next(n, action).member;
            if action.SweepAccount? then
              m'.equity == action.equity && m'.peakEquity == Max(m.peakEquity, action.equity)
            else
              m'.equity == m.equity && m'.peakEquity == m.peakEquity
  {
    match action {
      case Copy(sub, event, symbol, row, at) => CopyKeepsFigures(n.member, n.broker, sub, event, symbol, row, at);
      case SweepAccount(equity, batch, now) => SweepTakesBrokerFigures(n.member, n.broker, equity, batch, now);
      case CloseAtBroker(_, _, _, _) =>
      case SetCopying(_, _) =>
    }
  }

  /** The equity of the last report, and a peak that is the highest of the start and the reports. */
  ghost predicate HighWater(m: Member, start: Member, reported: seq<int>) {
    && m.equity == (if reported == [] then start.equity else reported[|reported| - 1])
    && m.peakEquity >= start.peakEquity
    && (forall i :: 0 <= i < |reported| ==> m.peakEquity >= reported[i])
    && (m.peakEquity == start.peakEquity || m.peakEquity in reported)
  }

  lemma HighWaterStep(m: Member, m': Member, start: Member, reported: seq<int>, equity: int)
    requires HighWater(m, start, reported)
    requires m'.equity == equity && m'.peakEquity == Max(m.peakEquity, equity)
    ensures HighWater(m', start, reported + [equity])
  {
  }

  /**
   * Over every run the stored equity is the last one a sweep reported, and the
   * peak the highest there has been: reached once, and never exceeded.
   */
  lemma {:induction false} PeakIsHighWaterMark(n: Node, actions: seq<Action>)
    requires WellPosedRun(n, actions)
    ensures HighWater(Run(n, actions).member, n.member, Reported(actions))
  {
    if actions != [] {
      var before, last := actions[..|actions| - 1], actions[|actions| - 1];
      WellPosedPrefix(n, actions);
      PeakIsHighWaterMark(n, before);
      var mid := Run(n, before);
      FiguresStep(mid, last);
      if last.SweepAccount? {
        HighWaterStep(mid.member, Next(mid, last).member, n.member, Reported(before), last.equity);
      } else {
        assert Reported(before) + [] == Reported(before);
      }
    }
  }
}
