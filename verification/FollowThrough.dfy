/**
 * Whether the member's holdings follow the master's: what becomes of a copied
 * position once the master has closed its own.
 */
module FollowThrough {
  import opened TradeTypes
  import opened MockBroker
  import opened MemberModel
  import opened MemberAgreement
  import opened ReconcileModel
  import opened MemberRuns
  import opened SweepRaces
  import opened WatchModel
  import opened WatchRuns
  import opened MasterToMember

  /** The member holds a live position for master ticket `k`. */
  ghost predicate Holds(n: Node, k: Ticket) {
    k in n.member.mappings && IsLive(n.broker, n.member.mappings[k].memberTicket)
  }

  predicate CopiesEvent(action: Action, event: TradeEvent) {
    action.Copy? && action.event == event
  }

  /** Master ticket `k` is opened by one event and closed by one event. */
  predicate OneOpenOneClose(actions: seq<Action>, k: Ticket, open: TradeEvent, close: TradeEvent) {
    && Opens(open) && open.ticket == k && close.eventType == CLOSE && close.ticket == k && open.eventId != close.eventId
    && forall i :: 0 <= i < |actions| && actions[i].Copy? ==>
         && (actions[i].event.eventId == open.eventId ==> actions[i].event == open)
         && (actions[i].event.eventId == close.eventId ==> actions[i].event == close)
         && (Opens(actions[i].event) && actions[i].event.ticket == k ==> actions[i].event == open)
  }

  /** Something other than the master's close that may end the position of `k`, or part of it. */
  ghost predicate EndsOtherwise(n: Node, action: Action, k: Ticket, close: TradeEvent) {
    match action
    case Copy(_, event, _, _, _) =>
      event.ticket == k && event != close && !Opens(event) && event.eventType != MODIFY
    case CloseAtBroker(t, _, _, _) => k in n.member.mappings && t == n.member.mappings[k].memberTicket
    case SweepAccount(_, _, _) => false
    case SetCopying(_, _) => false
  }

  // ---- Steps ---------------------------------------------------------------

  /** Copying an event again, or one of another ticket, leaves the position of `k` as it is. */
  lemma OtherCopyKeeps(m: Member, b: Account, sub: Subscription, event: TradeEvent, symbol: Symbol, row: RowId,
                       at: Moment,
                       k: Ticket)
    requires Tracked(m, b) && CommentsBelow(b, row) && k in m.mappings
    requires event.eventId in m.rows || event.ticket != k
    ensures var step := CopyToMember(m, b, sub, event, symbol, row, at);
            && k in step.member.mappings && step.member.mappings[k] == m.mappings[k]
            && (IsLive(step.broker, m.mappings[k].memberTicket) <==> IsLive(b, m.mappings[k].memberTicket))
  {
    if event.eventId !in m.rows {
      var m1 := m.(rows := m.rows[event.eventId := NewRow(sub, event, row)]);
      assert MappingOk(b, m.mappings[k]) && InChain(m.mappings, k, m.mappings[k].memberTicket);
      if Opens(event) {
        var before, request := OpenReduces(m1, b, sub, event, symbol, row, at);
        OpenEffect(b, request, at.price);
      } else if event.ticket in m.mappings {
        assert InChain(m.mappings, event.ticket, m.mappings[event.ticket].memberTicket);
        OtherAdjustKeeps(m1, b, sub, event, at, k);
      }
    }
  }

  lemma OtherAdjustKeeps(m: Member, b: Account, sub: Subscription, event: TradeEvent, at: Moment, k: Ticket)
    requires event.eventId in m.rows && !Opens(event) && event.ticket in m.mappings && event.ticket != k
    requires k in m.mappings && m.mappings[event.ticket].memberTicket != m.mappings[k].memberTicket
    requires m.mappings[k].memberTicket < b.nextTicket
    ensures var step := AdjustForMember(m, b, sub, event, at);
            && k in step.member.mappings && step.member.mappings[k] == m.mappings[k]
            && (IsLive(step.broker, m.mappings[k].memberTicket) <==> IsLive(b, m.mappings[k].memberTicket))
  {
  }

  /** The first copy of the master's close ends a live position. */
  lemma CloseEnds(m: Member, b: Account, sub: Subscription, event: TradeEvent, symbol: Symbol, row: RowId, at: Moment)
    requires event.eventType == CLOSE && event.eventId !in m.rows && event.ticket in m.mappings
    ensures var step := CopyToMember(m, b, sub, event, symbol, row, at);
            && event.ticket in step.member.mappings
            && step.member.mappings[event.ticket].memberTicket == m.mappings[event.ticket].memberTicket
            && (Tracked(m, b) ==> !IsLive(step.broker, m.mappings[event.ticket].memberTicket))
  {
    if Tracked(m, b) {
      assert MappingOk(b, m.mappings[event.ticket]);
    }
  }

  lemma ModifyKeeps(m: Member, b: Account, sub: Subscription, event: TradeEvent, symbol: Symbol, row: RowId, at: Moment)
    requires event.eventType == MODIFY && event.ticket in m.mappings
    ensures var step := CopyToMember(m, b, sub, event, symbol, row, at);
            && event.ticket in step.member.mappings
            && step.member.mappings[event.ticket] == m.mappings[event.ticket]
            && (IsLive(step.broker, m.mappings[event.ticket].memberTicket) <==>
                IsLive(b, m.mappings[event.ticket].memberTicket))
  {
  }

  /** A position that is gone stays gone while its master ticket is not opened anew. */
  lemma GoneStaysGone(n: Node, action: Action, k: Ticket)
    requires NodeOk(n) && Enabled(n, action) && k in n.member.mappings && !Holds(n, k)
    requires action.Copy? && Opens(action.event) && action.event.ticket == k ==> action.event.eventId in n.member.rows
    ensures k in Next(n, action).member.mappings && !Holds(Next(n, action), k)
  {
    if action.Copy? && action.event.eventId in n.member.rows {
      OtherCopyKeeps(n.member, n.broker, action.sub, action.event, action.symbol, action.row, action.at, k);
    } else {
      NextKeepsDeadTicket(n, action, k);
      DeadStaysDead(n, action, k);
    }
  }

  /** Nothing but the first copy of the close ends a live position, when nothing else does. */
  lemma LiveStaysLive(n: Node, action: Action, k: Ticket, open: TradeEvent, close: TradeEvent)
    requires NodeOk(n) && Enabled(n, action) && Holds(n, k)
    requires OneOpenOneClose([action], k, open, close) && open.eventId in n.member.rows
    requires !EndsOtherwise(n, action, k, close)
    requires CopiesEvent(action, close) ==> close.eventId in n.member.rows
    ensures Holds(Next(n, action), k)
  {
    match action {
      case Copy(sub, event, symbol, row, at) =>
        assert [action][0] == action;
        if event.eventId in n.member.rows || event.ticket != k {
          OtherCopyKeeps(n.member, n.broker, sub, event, symbol, row, at, k);
        } else {
          ModifyKeeps(n.member, n.broker, sub, event, symbol, row, at);
        }
      case SweepAccount(equity, batch, now) =>
        SweptMapping(n.member, n.broker, equity, batch, now, k);
      case CloseAtBroker(t, volume, price, now) =>
        CloseEffect(n.broker, t, volume, price, now);
        assert MappingOk(n.broker, n.member.mappings[k]);
      case SetCopying(_, _) =>
    }
  }

  lemma OpenTables(m: Member, b: Account, sub: Subscription, event: TradeEvent, symbol: Symbol, row: RowId, at: Moment)
    requires event.eventId in m.rows
    ensures var m' := OpenForMember(m, b, sub, event, symbol, row, at).member;
            m'.rows.Keys == m.rows.Keys && m.mappings.Keys <= m'.mappings.Keys
  {
  }

  lemma AdjustTables(m: Member, b: Account, sub: Subscription, event: TradeEvent, at: Moment)
    requires event.eventId in m.rows
    ensures var m' := AdjustForMember(m, b, sub, event, at).member;
            m'.rows.Keys == m.rows.Keys && m.mappings.Keys <= m'.mappings.Keys
  {
  }

  /** A step adds the row of the event it copies and no other, and loses no mapping. */
  lemma NextTables(n: Node, action: Action)
    ensures var m' := Next(n, action).member;
            && m'.rows.Keys == n.member.rows.Keys + (if action.Copy? then {action.event.eventId} else {})
            && n.member.mappings.Keys <= m'.mappings.Keys
  {
    if action.Copy? && action.event.eventId !in n.member.rows {
      var m1 := n.member.(rows := n.member.rows[action.event.eventId := NewRow(action.sub, action.event, action.row)]);
      if Opens(action.event) {
        OpenTables(m1, n.broker, action.sub, action.event, action.symbol, action.row, action.at);
      } else {
        AdjustTables(m1, n.broker, action.sub, action.event, action.at);
      }
    }
  }

  // ---- Over runs -----------------------------------------------------------

  /** From an executed OPEN on: its row, and whether the close was copied before. */
  ghost predicate Following(n: Node, k: Ticket, open: TradeEvent, close: TradeEvent, ahead: bool) {
    && NodeOk(n) && k in n.member.mappings && open.eventId in n.member.rows
    && (ahead ==> close.eventId in n.member.rows)
    && (!ahead && close.eventId in n.member.rows ==> !Holds(n, k))
  }

  lemma FollowingStep(n: Node, action: Action, k: Ticket, open: TradeEvent, close: TradeEvent, ahead: bool)
    requires Following(n, k, open, close, ahead) && Enabled(n, action) && OneOpenOneClose([action], k, open, close)
    ensures Following(Next(n, action), k, open, close, ahead)
  {
    assert [action][0] == action;
    NextOk(n, action);
    NextTables(n, action);
    if close.eventId in n.member.rows {
      if !ahead {
        GoneStaysGone(n, action, k);
      }
    } else if close.eventId in Next(n, action).member.rows {
      CloseEnds(n.member, n.broker, action.sub, action.event, action.symbol, action.row, action.at);
    }
  }

  lemma OnePrefix(actions: seq<Action>, k: Ticket, open: TradeEvent, close: TradeEvent)
    requires OneOpenOneClose(actions, k, open, close) && actions != []
    ensures OneOpenOneClose(actions[..|actions| - 1], k, open, close)
    ensures OneOpenOneClose([actions[|actions| - 1]], k, open, close)
  {
  }

  lemma {:induction false} FollowingRun(n: Node, actions: seq<Action>, k: Ticket, open: TradeEvent, close: TradeEvent,
                                        ahead: bool)
    requires Following(n, k, open, close, ahead) && EnabledRun(n, actions) && OneOpenOneClose(actions, k, open, close)
    ensures Following(Run(n, actions), k, open, close, ahead)
  {
    if actions != [] {
      var before := actions[..|actions| - 1];
      EnabledPrefix(n, actions);
      OnePrefix(actions, k, open, close);
      FollowingRun(n, before, k, open, close, ahead);
      FollowingStep(Run(n, before), actions[|actions| - 1], k, open, close, ahead);
    }
  }

  ghost predicate NothingElseEnds(n: Node, actions: seq<Action>, k: Ticket, close: TradeEvent) {
    actions == [] ||
    (&& NothingElseEnds(n, actions[..|actions| - 1], k, close)
     && !EndsOtherwise(Run(n, actions[..|actions| - 1]), actions[|actions| - 1], k, close))
  }

  lemma {:induction false} HeldRun(n: Node, actions: seq<Action>, k: Ticket, open: TradeEvent, close: TradeEvent,
                                   ahead: bool)
    requires Following(n, k, open, close, ahead) && EnabledRun(n, actions) && OneOpenOneClose(actions, k, open, close)
    requires Holds(n, k) && NothingElseEnds(n, actions, k, close)
    ensures ahead || close.eventId !in Run(n, actions).member.rows ==> Holds(Run(n, actions), k)
  {
    if actions != [] {
      var before, last := actions[..|actions| - 1], actions[|actions| - 1];
      EnabledPrefix(n, actions);
      OnePrefix(actions, k, open, close);
      HeldRun(n, before, k, open, close, ahead);
      FollowingRun(n, before, k, open, close, ahead);
      var mid := Run(n, before);
      if ahead || close.eventId !in Next(mid, last).member.rows {
        NextTables(mid, last);
        LiveStaysLive(mid, last, k, open, close);
      }
    }
  }

  /** An executed OPEN on a ticket not mapped yet starts the following. */
  lemma OpenStartsFollowing(n: Node, action: Action, k: Ticket, open: TradeEvent, close: TradeEvent)
    requires NodeOk(n) && Enabled(n, action) && CopiesEvent(action, open) && OneOpenOneClose([action], k, open, close)
    requires open.eventId !in n.member.rows && StepOf(n, action).outcome == SUCCESS
    ensures var ahead := close.eventId in n.member.rows;
            Following(Next(n, action), k, open, close, ahead) && Holds(Next(n, action), k)
  {
    NextOk(n, action);
    var m1 := n.member.(rows := n.member.rows[open.eventId := NewRow(action.sub, open, action.row)]);
    var before, request := OpenReduces(m1, n.broker, action.sub, open, action.symbol, action.row, action.at);
    OpenEffect(n.broker, request, action.at.price);
    NextTables(n, action);
  }

  /**
   * The member's OPEN was executed and the master's close has been copied at
   * some time since, or before. If the close was copied after the OPEN, the
   * member holds nothing any more, whatever else ran. If it was copied ahead of
   * it, it was skipped for good; then, unless something else ended the
   * position, the member still holds it. So the member's holdings follow the
   * master's if and only if the close was not copied ahead of the OPEN.
   */
  lemma HoldingsFollowIff(n: Node, opening: Action, actions: seq<Action>, k: Ticket, open: TradeEvent,
                          close: TradeEvent)
    requires NodeOk(n) && Enabled(n, opening) && CopiesEvent(opening, open)
    requires open.eventId !in n.member.rows && StepOf(n, opening).outcome == SUCCESS
    requires OneOpenOneClose([opening], k, open, close) && OneOpenOneClose(actions, k, open, close)
    requires EnabledRun(Next(n, opening), actions)
    requires close.eventId in Run(Next(n, opening), actions).member.rows
    ensures close.eventId !in n.member.rows ==> !Holds(Run(Next(n, opening), actions), k)
    ensures NothingElseEnds(Next(n, opening), actions, k, close) ==>
              (!Holds(Run(Next(n, opening), actions), k) <==> close.eventId !in n.member.rows)
  {
    var ahead := close.eventId in n.member.rows;
    OpenStartsFollowing(n, opening, k, open, close);
    FollowingRun(Next(n, opening), actions, k, open, close, ahead);
    if NothingElseEnds(Next(n, opening), actions, k, close) {
      HeldRun(Next(n, opening), actions, k, open, close, ahead);
    }
  }

  // ---- Of a watched master -------------------------------------------------

  /** The watcher publishes one OPEN and one CLOSE of a ticket, each under an id of its own. */
  lemma WatchedTicket(strategy: StrategyId, first: seq<LivePosition>, polls: seq<PollInput>, actions: seq<Action>,
                      i: nat, j: nat)
    requires ValidRun(strategy, first, polls) && NeverReused(first, polls)
    requires CopiesOf(actions, Polled(strategy, first, polls).events)
    requires i < |Polled(strategy, first, polls).events| && j < |Polled(strategy, first, polls).events|
    requires var events := Polled(strategy, first, polls).events;
             events[i].eventType == OPEN && events[j].eventType == CLOSE && events[i].ticket == events[j].ticket
    ensures var events := Polled(strategy, first, polls).events;
            OneOpenOneClose(actions, events[i].ticket, events[i], events[j])
  {
    var events := Polled(strategy, first, polls).events;
    WatcherOpensOnce(strategy, first, polls);
    IdsAreUnique(strategy, first, polls);
    assert events[i].eventId != events[j].eventId;
    forall a | 0 <= a < |actions| && actions[a].Copy?
      ensures actions[a].event.eventId == events[i].eventId ==> actions[a].event == events[i]
      ensures actions[a].event.eventId == events[j].eventId ==> actions[a].event == events[j]
      ensures Opens(actions[a].event) && actions[a].event.ticket == events[i].ticket ==> actions[a].event == events[i]
    {
      var e :| 0 <= e < |events| && events[e] == actions[a].event;
      assert e != i && e != j ==> events[e].eventId != events[i].eventId && events[e].eventId != events[j].eventId;
    }
  }

  /**
   * A watched master's position, opened and closed, and both events copied: the
   * member holds nothing of it if its close was copied after its OPEN; and if
   * nothing else ended the position, only then.
   */
  lemma HoldingsFollowMaster(strategy: StrategyId, first: seq<LivePosition>, polls: seq<PollInput>, n: Node,
                             opening: Action, actions: seq<Action>, i: nat, j: nat)
    requires ValidRun(strategy, first, polls) && NeverReused(first, polls)
    requires CopiesOf(actions, Polled(strategy, first, polls).events)
    requires i < |Polled(strategy, first, polls).events| && j < |Polled(strategy, first, polls).events|
    requires var events := Polled(strategy, first, polls).events;
             && events[i].eventType == OPEN && events[j].eventType == CLOSE && events[i].ticket == events[j].ticket
             && CopiesEvent(opening, events[i]) && events[i].eventId !in n.member.rows
             && events[j].eventId in Run(Next(n, opening), actions).member.rows
    requires NodeOk(n) && Enabled(n, opening) && StepOf(n, opening).outcome == SUCCESS
    requires EnabledRun(Next(n, opening), actions)
    ensures var open, close := Polled(strategy, first, polls).events[i], Polled(strategy, first, polls).events[j];
            var end := Run(Next(n, opening), actions);
            && (close.eventId !in n.member.rows ==> !Holds(end, open.ticket))
            && (NothingElseEnds(Next(n, opening), actions, open.ticket, close) ==>
                  (!Holds(end, open.ticket) <==> close.eventId !in n.member.rows))
  {
    var events := Polled(strategy, first, polls).events;
    WatchedTicket(strategy, first, polls, actions, i, j);
    assert CopiesOf([opening], events);
    WatchedTicket(strategy, first, polls, [opening], i, j);
    HoldingsFollowIff(n, opening, actions, events[i].ticket, events[i], events[j]);
  }
}
