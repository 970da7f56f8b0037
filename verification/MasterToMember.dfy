/**
 * The whole path, from snapshots of the master's account to positions on a
 * member's account: what the watcher publishes is safe to copy.
 */
module MasterToMember {
  import opened TradeTypes
  import opened MockBroker
  import opened WatchModel
  import opened WatchTheorems
  import opened WatchRuns
  import opened MemberModel
  import opened MemberAgreement
  import opened MemberRuns

  // ---- The watcher opens each ticket once ----------------------------------

  /** No two events open the same master ticket. */
  ghost predicate OpensOnce(events: seq<TradeEvent>) {
    forall i, j :: 0 <= i < j < |events| && Opens(events[i]) && Opens(events[j]) ==>
        events[i].ticket != events[j].ticket
  }

  /** The events of one ticket keep their order in its log. */
  lemma {:induction false} LogPosition(events: seq<TradeEvent>, t: Ticket, i: nat)
    returns (p: nat)
    requires i < |events| && events[i].ticket == t
    ensures p < |LogOf(events, t)| && LogOf(events, t)[p] == events[i]
    ensures p == |LogOf(events[..i], t)|
  {
    var before := events[..|events| - 1];
    if i == |before| {
      p := |LogOf(before, t)|;
    } else {
      p := LogPosition(before, t, i);
      assert before[..i] == events[..i];
    }
  }

  lemma {:induction false} LogGrows(events: seq<TradeEvent>, t: Ticket, i: nat)
    requires i <= |events|
    ensures |LogOf(events[..i], t)| <= |LogOf(events, t)|
  {
    if i < |events| {
      LogGrows(events[..|events| - 1], t, i);
      assert events[..|events| - 1][..i] == events[..i];
    } else {
      assert events[..i] == events;
    }
  }

  /** Over every run of polls at a broker that never reuses a ticket, each ticket is opened at most once. */
  lemma WatcherOpensOnce(strategy: StrategyId, first: seq<LivePosition>, polls: seq<PollInput>)
    requires ValidRun(strategy, first, polls) && NeverReused(first, polls)
    ensures OpensOnce(Polled(strategy, first, polls).events)
  {
    var events := Polled(strategy, first, polls).events;
    forall i, j | 0 <= i < j < |events| && Opens(events[i]) && Opens(events[j])
      ensures events[i].ticket != events[j].ticket
    {
      var t := events[i].ticket;
      if events[j].ticket == t {
        var p := LogPosition(events, t, i);
        var q := LogPosition(events, t, j);
        LogPrecedes(events, t, i, j);
        LaterIsNoOpen(strategy, first, polls, t, q);
        assert false;
      }
    }
  }

  lemma LogPrecedes(events: seq<TradeEvent>, t: Ticket, i: nat, j: nat)
    requires i < j < |events| && events[i].ticket == t
    ensures |LogOf(events[..i], t)| < |LogOf(events[..j], t)|
  {
    assert events[..i + 1][..i] == events[..i];
    LogGrows(events[..j], t, i + 1);
    assert events[..j][..i + 1] == events[..i + 1];
  }

  lemma LaterIsNoOpen(strategy: StrategyId, first: seq<LivePosition>, polls: seq<PollInput>, t: Ticket, q: nat)
    requires ValidRun(strategy, first, polls) && NeverReused(first, polls)
    requires 0 < q < |LogOf(Polled(strategy, first, polls).events, t)|
    ensures !Opens(LogOf(Polled(strategy, first, polls).events, t)[q])
  {
    GrammarAndConservation(strategy, first, polls, t);
    var log := LogOf(Polled(strategy, first, polls).events, t);
    var baseline := BaselineVolume(first, t).Some?;
    if Running(log, baseline) {
      assert Between(log[q]);
    } else if q < |log| - 1 {
      assert Between(log[..|log| - 1][q]);
    }
  }

  // ---- Copying events that open each ticket once ---------------------------

  /** Every copy is of one of these events; any order, any repetitions. */
  ghost predicate CopiesOf(actions: seq<Action>, events: seq<TradeEvent>) {
    forall i :: 0 <= i < |actions| && actions[i].Copy? ==> actions[i].event in events
  }

  /** Mappings and row ids come from copies: the OPEN that created a mapping has left its row. */
  ghost predicate Accounted(m: Member, events: seq<TradeEvent>) {
    forall k :: k in m.mappings ==>
      exists e :: e in events && Opens(e) && e.ticket == k && e.eventId in m.rows
  }

  lemma AccountedOpen(m: Member, events: seq<TradeEvent>, event: TradeEvent)
    requires Accounted(m, events) && OpensOnce(events) && event in events
    ensures SafeToCopy(m, event)
  {
    if Opens(event) && event.ticket in m.mappings {
      var e :| e in events && Opens(e) && e.ticket == event.ticket && e.eventId in m.rows;
      var i :| 0 <= i < |events| && events[i] == e;
      var j :| 0 <= j < |events| && events[j] == event;
      assert i == j;
    }
  }

  lemma AdjustAddsNothing(m: Member, b: Account, sub: Subscription, event: TradeEvent, at: Moment, k: Ticket)
    requires event.eventId in m.rows && !Opens(event)
    ensures var m' := AdjustForMember(m, b, sub, event, at).member;
            m.rows.Keys <= m'.rows.Keys && (k in m'.mappings ==> k in m.mappings)
  {
  }

  lemma OpenAddsOnlyItsTicket(m: Member, b: Account, sub: Subscription, event: TradeEvent, symbol: Symbol, row: RowId,
                              at: Moment, k: Ticket)
    requires event.eventId in m.rows
    ensures var m' := OpenForMember(m, b, sub, event, symbol, row, at).member;
            m.rows.Keys <= m'.rows.Keys && (k in m'.mappings && k !in m.mappings ==> k == event.ticket)
  {
  }

  lemma CopyAddsOnlyItsTicket(m: Member, b: Account, sub: Subscription, event: TradeEvent, symbol: Symbol, row: RowId,
                              at: Moment, k: Ticket)
    ensures var m' := CopyToMember(m, b, sub, event, symbol, row, at).member;
            && m.rows.Keys <= m'.rows.Keys
            && event.eventId in m'.rows
            && (k in m'.mappings && k !in m.mappings ==> Opens(event) && k == event.ticket)
  {
    if event.eventId !in m.rows {
      var m1 := m.(rows := m.rows[event.eventId := NewRow(sub, event, row)]);
      if Opens(event) {
        OpenAddsOnlyItsTicket(m1, b, sub, event, symbol, row, at, k);
      } else {
        AdjustAddsNothing(m1, b, sub, event, at, k);
      }
    }
  }

  lemma NextAccounted(n: Node, action: Action, events: seq<TradeEvent>)
    requires Accounted(n.member, events)
    requires action.Copy? ==> action.event in events
    ensures Accounted(Next(n, action).member, events)
  {
    var m' := Next(n, action).member;
    if action.Copy? {
      forall k | k in m'.mappings
        ensures exists e :: e in events && Opens(e) && e.ticket == k && e.eventId in m'.rows
      {
        CopyAddsOnlyItsTicket(n.member, n.broker, action.sub, action.event, action.symbol, action.row, action.at, k);
        if k in n.member.mappings {
          var e :| e in events && Opens(e) && e.ticket == k && e.eventId in n.member.rows;
          assert e.eventId in m'.rows;
        } else {
          assert action.event in events;
        }
      }
    } else {
      assert m'.mappings.Keys == n.member.mappings.Keys && m'.rows == n.member.rows;
    }
  }

  lemma {:induction false} CopiesAreSafe(n: Node, actions: seq<Action>, events: seq<TradeEvent>)
    requires Accounted(n.member, events) && OpensOnce(events) && CopiesOf(actions, events)
    requires WellPosedRun(n, actions) && ClosesWholeRun(n, actions)
    ensures Accounted(Run(n, actions).member, events)
    ensures EnabledRun(n, actions)
  {
    if actions != [] {
      var before, last := actions[..|actions| - 1], actions[|actions| - 1];
      WellPosedPrefix(n, actions);
      ClosesWholePrefix(n, actions);
      CopiesAreSafe(n, before, events);
      NextAccounted(Run(n, before), last, events);
      if last.Copy? {
        AccountedOpen(Run(n, before).member, events, last.event);
      }
      EnabledExtends(n, actions);
    }
  }

  /**
   * From the master's snapshots to the member's positions: whatever a watcher
   * publishes over any run of polls, copied to a hedging account in any order
   * and with any repetitions, between sweeps, restarts and closes at the
   * broker, never orphans a position, claims one twice or mistakes a volume;
   * and unless something was closed behind the platform's back since the last
   * sweep, the mappings holding volume are exactly the live positions.
   */
  lemma MasterToMember(strategy: StrategyId, first: seq<LivePosition>, polls: seq<PollInput>, n: Node,
                       actions: seq<Action>)
    requires ValidRun(strategy, first, polls) && NeverReused(first, polls)
    requires n.member.mappings == map[] && n.broker.positions == map[] && !n.broker.netting
    requires CopiesOf(actions, Polled(strategy, first, polls).events)
    requires WellPosedRun(n, actions) && ClosesWholeRun(n, actions)
    ensures Tracked(Run(n, actions).member, Run(n, actions).broker)
    ensures SettledSince(actions, true) ==> InSync(Run(n, actions).member, Run(n, actions).broker)
  {
    var events := Polled(strategy, first, polls).events;
    WatcherOpensOnce(strategy, first, polls);
    CopiesAreSafe(n, actions, events);
    RunsFromScratchAgree(n, actions);
  }
}
