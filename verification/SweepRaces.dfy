/**
 * A sweep beside a running copy worker. The sweep asks the broker for its
 * positions first and the store for its mappings later
 * (src/services/reconcile.service.ts), so copies may run in between.
 */
module SweepRaces {
  import opened Common
  import opened TradeTypes
  import opened MockBroker
  import opened MemberModel
  import opened MemberAgreement
  import opened ReconcileModel
  import opened MemberRuns

  ghost function LiveTickets(b: Account): set<Ticket> {
    LivePositions(b).Keys
  }

  /** Closes the mappings believed open whose ticket is missing from an earlier answer of the broker. */
  function CloseMissing(b: Account, live: set<Ticket>, mapping: Mapping, now: int): Mapping {
    if BelievedOpen(mapping) && mapping.memberTicket !in live
    then Ended(mapping, GetClosedPosition(b, mapping.memberTicket), None, now)
    else mapping
  }

  /** The closing pass of a sweep that works from that earlier answer. */
  ghost function LateSweep(m: Member, b: Account, live: set<Ticket>, now: int): Member {
    m.(mappings := map k | k in m.mappings :: CloseMissing(b, live, m.mappings[k], now))
  }

  /** With nothing in between, this is the sweep's closing pass. */
  lemma LateSweepInOneStep(m: Member, b: Account, now: int)
    ensures LateSweep(m, b, LiveTickets(b), now).mappings == AfterVanished(b, m.mappings, now)
  {
  }

  // ---- Tickets do not come back to life ------------------------------------

  /** Later, every live ticket is one that was live before or was issued since. */
  ghost predicate Later(b: Account, b': Account) {
    b.nextTicket <= b'.nextTicket && forall t: Ticket :: IsLive(b', t) && t < b.nextTicket ==> IsLive(b, t)
  }

  lemma CopyIsLater(m: Member, b: Account, sub: Subscription, event: TradeEvent, symbol: Symbol, row: RowId, at: Moment)
    requires CommentsBelow(b, row) && !b.netting
    ensures Later(b, CopyToMember(m, b, sub, event, symbol, row, at).broker)
  {
    if event.eventId !in m.rows {
      var m1 := m.(rows := m.rows[event.eventId := NewRow(sub, event, row)]);
      if Opens(event) {
        var before, request := OpenReduces(m1, b, sub, event, symbol, row, at);
        OpenEffect(b, request, at.price);
      } else {
        AdjustIsLater(m1, b, sub, event, at);
      }
    }
  }

  lemma AdjustIsLater(m: Member, b: Account, sub: Subscription, event: TradeEvent, at: Moment)
    requires event.eventId in m.rows
    ensures Later(b, AdjustForMember(m, b, sub, event, at).broker)
  {
    if event.ticket in m.mappings && m.mappings[event.ticket].status != CLOSED && event.eventType != MODIFY {
      var mapping := m.mappings[event.ticket];
      CloseEffect(b, mapping.memberTicket,
                  if event.eventType == PARTIAL_CLOSE
                  then Some(CloseVolume(mapping.volume, event.closeFraction.GetOr(WHOLE))) else None,
                  at.price, at.now);
    }
  }

  lemma NextIsLater(n: Node, action: Action)
    requires NodeOk(n) && WellPosed(n, action)
    ensures Later(n.broker, Next(n, action).broker)
  {
    match action {
      case Copy(sub, event, symbol, row, at) =>
        CopyIsLater(n.member, n.broker, sub, event, symbol, row, at);
      case SweepAccount(_, _, _) =>
      case CloseAtBroker(t, volume, price, now) =>
        CloseEffect(n.broker, t, volume, price, now);
      case SetCopying(_, _) =>
    }
  }

  lemma {:induction false} RunIsLater(n: Node, actions: seq<Action>)
    requires NodeOk(n) && EnabledRun(n, actions)
    ensures Later(n.broker, Run(n, actions).broker)
  {
    if actions != [] {
      var before := actions[..|actions| - 1];
      EnabledPrefix(n, actions);
      RunIsLater(n, before);
      RunsStayInAgreement(n, before);
      NextIsLater(Run(n, before), actions[|actions| - 1]);
    }
  }

  // ---- Exactly when the late sweep is harmless -----------------------------

  lemma HarmlessMissing(b: Account, live: set<Ticket>, mapping: Mapping, now: int)
    requires MappingOk(b, mapping)
    ensures var swept := CloseMissing(b, live, mapping, now);
            && Chain(swept) == Chain(mapping) && swept.memberTicket == mapping.memberTicket
            && (MappingOk(b, swept) <==> IsLive(b, mapping.memberTicket) ==> mapping.memberTicket in live)
  {
    assert Chain(CloseMissing(b, live, mapping, now)) == Chain(mapping);
  }

  lemma LateSweepTrackedIff(m: Member, b: Account, live: set<Ticket>, now: int)
    requires Tracked(m, b)
    ensures Tracked(LateSweep(m, b, live, now), b) <==> forall t: Ticket :: IsLive(b, t) ==> t in live
  {
    var m' := LateSweep(m, b, live, now);
    forall k | k in m.mappings
      ensures Chain(m'.mappings[k]) == Chain(m.mappings[k]) && m'.mappings[k].memberTicket == m.mappings[k].memberTicket
      ensures MappingOk(b, m'.mappings[k]) <==> IsLive(b, m.mappings[k].memberTicket) ==>
                m.mappings[k].memberTicket in live
    {
      assert MappingOk(b, m.mappings[k]);
      HarmlessMissing(b, live, m.mappings[k], now);
    }
    forall t: Ticket | IsLive(b, t)
      ensures Claimed(m'.mappings, t)
      ensures t !in live ==> exists k :: k in m'.mappings && !MappingOk(b, m'.mappings[k])
    {
      var k :| k in m.mappings && m.mappings[k].memberTicket == t;
      assert m'.mappings[k].memberTicket == t;
    }
    assert forall k, t :: InChain(m'.mappings, k, t) ==> InChain(m.mappings, k, t);
  }

  /**
   * Whatever runs between the broker's answer and the closing pass, the pass
   * keeps the agreement if and only if nothing issued in between, by an OPEN or
   * by an MT4 partial close, is still live: such a position is marked closed
   * and then belongs to nobody.
   */
  lemma RacedSweepIff(n: Node, actions: seq<Action>, now: int)
    requires NodeOk(n) && EnabledRun(n, actions)
    ensures var end := Run(n, actions);
            Tracked(LateSweep(end.member, end.broker, LiveTickets(n.broker), now), end.broker)
            <==> forall t: Ticket :: IsLive(end.broker, t) ==> t < n.broker.nextTicket
  {
    var end := Run(n, actions);
    RunsStayInAgreement(n, actions);
    RunIsLater(n, actions);
    LateSweepTrackedIff(end.member, end.broker, LiveTickets(n.broker), now);
    forall t: Ticket | IsLive(end.broker, t)
      ensures t in LiveTickets(n.broker) <==> t < n.broker.nextTicket
    {
    }
  }

  // ---- The closing writes, one at a time -----------------------------------

  /** Copies, closes and restarts, and the single closing writes of sweeps, in any order. */
  datatype Step = Act(action: Action) | CloseWrite(k: Ticket, asked: Ticket, now: int)

  /** One closing write: the row found by the query, with the result of the ticket it had then. */
  ghost function WriteClosed(n: Node, k: Ticket, asked: Ticket, now: int): Node
    requires k in n.member.mappings
  {
    var ended := Ended(n.member.mappings[k], GetClosedPosition(n.broker, asked), None, now);
    n.(member := n.member.(mappings := n.member.mappings[k := ended]))
  }

  ghost function NextStep(n: Node, step: Step): Node {
    match step
    case Act(action) => Next(n, action)
    case CloseWrite(k, asked, now) => if k in n.member.mappings then WriteClosed(n, k, asked, now) else n
  }

  ghost function RunSteps(n: Node, steps: seq<Step>): Node {
    if steps == [] then n else NextStep(RunSteps(n, steps[..|steps| - 1]), steps[|steps| - 1])
  }

  /** A closing write is harmless where the row's ticket, as it is now, is not live. */
  ghost predicate Harmless(n: Node, k: Ticket) {
    k in n.member.mappings ==> !IsLive(n.broker, n.member.mappings[k].memberTicket)
  }

  ghost predicate StepEnabled(n: Node, step: Step) {
    match step
    case Act(action) => Enabled(n, action)
    case CloseWrite(k, _, _) => Harmless(n, k)
  }

  ghost predicate StepsEnabled(n: Node, steps: seq<Step>) {
    steps == [] ||
    (StepsEnabled(n, steps[..|steps| - 1]) && StepEnabled(RunSteps(n, steps[..|steps| - 1]), steps[|steps| - 1]))
  }

  /** A closing write keeps the agreement if and only if the row's current ticket is not live. */
  lemma CloseWriteTrackedIff(n: Node, k: Ticket, asked: Ticket, now: int)
    requires Tracked(n.member, n.broker) && k in n.member.mappings
    ensures Tracked(WriteClosed(n, k, asked, now).member, n.broker) <==> Harmless(n, k)
  {
    var m, m', b := n.member, WriteClosed(n, k, asked, now).member, n.broker;
    var mapping := m'.mappings[k];
    assert MappingOk(b, m.mappings[k]);
    assert Chain(mapping) == Chain(m.mappings[k]);
    if Harmless(n, k) {
      assert MappingOk(b, mapping);
      OneMappingChanges(m, b, m', b, k, mapping);
    } else {
      assert !MappingOk(b, m'.mappings[k]);
    }
  }

  /** Sweeps may be spread over any number of steps: as long as each write is harmless, agreement is kept. */
  lemma {:induction false} StepsStayInAgreement(n: Node, steps: seq<Step>)
    requires NodeOk(n) && StepsEnabled(n, steps)
    ensures NodeOk(RunSteps(n, steps))
  {
    if steps != [] {
      var before, last := steps[..|steps| - 1], steps[|steps| - 1];
      StepsStayInAgreement(n, before);
      var mid := RunSteps(n, before);
      match last {
        case Act(action) => NextOk(mid, action);
        case CloseWrite(k, asked, now) =>
          if k in mid.member.mappings {
            CloseWriteTrackedIff(mid, k, asked, now);
          }
      }
    }
  }

  /** A step that opens master ticket `k` again. */
  predicate Reopens(step: Step, k: Ticket) {
    step.Act? && step.action.Copy? && Opens(step.action.event) && step.action.event.ticket == k
  }

  lemma CopyKeepsDeadTicket(m: Member, b: Account, sub: Subscription, event: TradeEvent, symbol: Symbol, row: RowId,
                            at: Moment, k: Ticket)
    requires k in m.mappings && !IsLive(b, m.mappings[k].memberTicket)
    requires !(Opens(event) && event.ticket == k)
    ensures var m' := CopyToMember(m, b, sub, event, symbol, row, at).member;
            k in m'.mappings && m'.mappings[k].memberTicket == m.mappings[k].memberTicket
  {
  }

  lemma NextKeepsDeadTicket(n: Node, action: Action, k: Ticket)
    requires NodeOk(n) && WellPosed(n, action) && !Reopens(Act(action), k)
    requires k in n.member.mappings && !IsLive(n.broker, n.member.mappings[k].memberTicket)
    ensures var m' := Next(n, action).member;
            k in m'.mappings && m'.mappings[k].memberTicket == n.member.mappings[k].memberTicket
  {
    match action {
      case Copy(sub, event, symbol, row, at) =>
        CopyKeepsDeadTicket(n.member, n.broker, sub, event, symbol, row, at, k);
      case SweepAccount(equity, batch, now) =>
        SweptMapping(n.member, n.broker, equity, batch, now, k);
      case CloseAtBroker(_, _, _, _) =>
      case SetCopying(_, _) =>
    }
  }

  lemma DeadStaysDead(n: Node, action: Action, k: Ticket)
    requires NodeOk(n) && WellPosed(n, action) && k in n.member.mappings
    requires !IsLive(n.broker, n.member.mappings[k].memberTicket)
    ensures !IsLive(Next(n, action).broker, n.member.mappings[k].memberTicket)
  {
    NextIsLater(n, action);
    assert MappingOk(n.broker, n.member.mappings[k]);
    assert n.member.mappings[k].memberTicket in Chain(n.member.mappings[k]);
  }

  lemma StepKeepsDeadTicket(n: Node, step: Step, k: Ticket)
    requires NodeOk(n) && StepEnabled(n, step) && !Reopens(step, k)
    requires k in n.member.mappings && !IsLive(n.broker, n.member.mappings[k].memberTicket)
    ensures var n', q := NextStep(n, step), n.member.mappings[k].memberTicket;
            k in n'.member.mappings && n'.member.mappings[k].memberTicket == q && !IsLive(n'.broker, q)
  {
    match step {
      case Act(action) =>
        NextKeepsDeadTicket(n, action, k);
        DeadStaysDead(n, action, k);
      case CloseWrite(_, _, _) =>
    }
  }

  /**
   * Whatever runs between the query and the write, other closing writes
   * included, the write of a row whose ticket had gone by the query is harmless
   * unless an OPEN of that master ticket was copied in between.
   */
  lemma {:induction false} HarmlessUnlessReopened(n: Node, steps: seq<Step>, k: Ticket)
    requires NodeOk(n) && StepsEnabled(n, steps)
    requires k in n.member.mappings && !IsLive(n.broker, n.member.mappings[k].memberTicket)
    requires forall step :: step in steps ==> !Reopens(step, k)
    ensures Harmless(RunSteps(n, steps), k)
    ensures k in RunSteps(n, steps).member.mappings
    ensures RunSteps(n, steps).member.mappings[k].memberTicket == n.member.mappings[k].memberTicket
  {
    if steps != [] {
      var before, last := steps[..|steps| - 1], steps[|steps| - 1];
      HarmlessUnlessReopened(n, before, k);
      StepsStayInAgreement(n, before);
      StepKeepsDeadTicket(RunSteps(n, before), last, k);
    }
  }

  /**
   * A closing write over a result already there keeps it if and only if it is
   * the one on record for the ticket asked about.
   */
  lemma CloseWriteKeepsResultIff(n: Node, k: Ticket, asked: Ticket, now: int, profit: int)
    requires HasResult(n.member, k, profit)
    ensures HasResult(WriteClosed(n, k, asked, now).member, k, profit)
            <==> asked in n.broker.closes && n.broker.closes[asked].profit == profit
  {
  }
}
