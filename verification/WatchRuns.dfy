/**
 * What is published over whole runs of polls, when the master's broker never
 * reuses a ticket: the grammar of each ticket's events, and conservation of its
 * volume.
 */
module WatchRuns {
  import opened Common
  import opened TradeTypes
  import opened FeedModel
  import opened WatchModel
  import opened WatchTheorems

  /**
   * One poll after the baseline: the snapshot, the order trades were queried in,
   * its context, which nonces have not expired, and whether their store answers.
   */
  datatype PollInput = PollInput(
    positions: seq<LivePosition>,
    order: seq<Ticket>,
    context: PollContext,
    unexpired: set<EventId>,
    nonceUp: bool)

  function Fresh(strategy: StrategyId): Feed {
    Feed(strategy, map[], [], {}, {})
  }

  ghost function Expire(f: Feed, unexpired: set<EventId>): Feed {
    f.(nonces := f.nonces * unexpired)
  }

  /** A run: the baseline poll on a new strategy, then further polls. */
  ghost function Polled(strategy: StrategyId, first: seq<LivePosition>, polls: seq<PollInput>): Feed {
    if polls == [] then Baseline(Fresh(strategy), first)
    else
      var f, last := Polled(strategy, first, polls[..|polls| - 1]), polls[|polls| - 1];
      if Lists(last.order, KnownPositions(f)) then
        Poll(Expire(f, last.unexpired), last.positions, last.order, last.context, last.nonceUp).0
      else
        f
  }

  ghost predicate ValidSnapshot(positions: seq<LivePosition>) {
    DistinctPositions(positions) && forall p :: p in positions ==> p.volume > 0
  }

  ghost predicate ValidRun(strategy: StrategyId, first: seq<LivePosition>, polls: seq<PollInput>) {
    if polls == [] then ValidSnapshot(first)
    else
      var before, last := polls[..|polls| - 1], polls[|polls| - 1];
      && ValidRun(strategy, first, before)
      && ValidSnapshot(last.positions)
      && Lists(last.order, KnownPositions(Polled(strategy, first, before)))
  }

  /** Tickets seen in some snapshot. */
  ghost function Seen(first: seq<LivePosition>, polls: seq<PollInput>): set<Ticket> {
    if polls == [] then LiveTickets(first)
    else Seen(first, polls[..|polls| - 1]) + LiveTickets(polls[|polls| - 1].positions)
  }

  /** Tickets seen in some snapshot and missing from a later one. */
  ghost function Retired(first: seq<LivePosition>, polls: seq<PollInput>): set<Ticket> {
    if polls == [] then {}
    else
      var before := polls[..|polls| - 1];
      Retired(first, before) + (Seen(first, before) - LiveTickets(polls[|polls| - 1].positions))
  }

  /** The broker never reuses a ticket. */
  ghost predicate NeverReused(first: seq<LivePosition>, polls: seq<PollInput>) {
    polls == [] ||
    (&& NeverReused(first, polls[..|polls| - 1])
     && Retired(first, polls[..|polls| - 1]) !! LiveTickets(polls[|polls| - 1].positions))
  }

  // ---- One poll, for one ticket, whatever the nonce store does --------------

  function IdsOf(log: seq<TradeEvent>): set<EventId> {
    set i | 0 <= i < |log| :: log[i].eventId
  }

  /** One ticket's share of the record; its used ids are those of its stored events. */
  function StoredState(f: Feed, t: Ticket): TicketState {
    var log := LogOf(f.events, t);
    TicketState(TradeOf(f, t), IdsOf(log), log)
  }

  /** Stored ids name their own ticket, and a nonce is only claimed for an event that was then stored. */
  ghost predicate IdsStored(f: Feed) {
    && (forall i :: 0 <= i < |f.events| ==>
        f.events[i].eventId.Derived? && f.events[i].eventId.ticket == f.events[i].ticket)
    && (forall id :: id in f.nonces ==> HasEvent(f.events, id))
  }

  /**
   * What a poll may leave of a ticket. A change with an unused id is absorbed;
   * one with a used id is dropped, or, if its nonce is gone, recorded without
   * being published again.
   */
  ghost predicate Polls(strategy: StrategyId, s: TicketState, s': TicketState, t: Ticket, live: Option<LivePosition>,
                        context: PollContext)
  {
    match TicketFinding(s, t, live, context)
    case ToPublish(change) => Accepts(strategy, s, s', InputFor(change, context.balance))
    case VolumeRose => s' == s
    case Unchanged => s' == s
  }

  ghost predicate Accepts(strategy: StrategyId, s: TicketState, s': TicketState, input: MasterInput) {
    if input.eventId !in s.claimed then s' == Absorb(strategy, s, input)
    else s' == s || s' == s.(trade := Some(PatchedTrade(s.trade, input)))
  }

  lemma {:induction false} StoredIds(events: seq<TradeEvent>, t: Ticket, id: EventId)
    requires forall i :: 0 <= i < |events| ==>
              events[i].eventId.Derived? && events[i].eventId.ticket == events[i].ticket
    requires id.Derived? && id.ticket == t
    ensures HasEvent(events, id) <==> id in IdsOf(LogOf(events, t))
  {
    if events != [] {
      var before, last := events[..|events| - 1], events[|events| - 1];
      StoredIds(before, t, id);
      assert HasEvent(events, id) <==> HasEvent(before, id) || last.eventId == id by {
        assert events[|events| - 1] == last;
        if HasEvent(before, id) {
          var i :| 0 <= i < |before| && before[i].eventId == id;
          assert events[i].eventId == id;
        }
      }
      assert events == before + [last];
      LogAppend(before, last, t);
      IdsAppend(LogOf(before, t), last);
    }
  }

  lemma LogAppend(events: seq<TradeEvent>, e: TradeEvent, t: Ticket)
    ensures LogOf(events + [e], t) == if e.ticket == t then LogOf(events, t) + [e] else LogOf(events, t)
  {
    assert (events + [e])[..|events|] == events;
    assert LogOf(events, t) + [] == LogOf(events, t);
  }

  lemma IdsAppend(log: seq<TradeEvent>, e: TradeEvent)
    ensures IdsOf(log + [e]) == IdsOf(log) + {e.eventId}
  {
    forall id | id in IdsOf(log) + {e.eventId}
      ensures id in IdsOf(log + [e])
    {
      if id in IdsOf(log) {
        var i :| 0 <= i < |log| && log[i].eventId == id;
        assert (log + [e])[i].eventId == id;
      } else {
        assert (log + [e])[|log|].eventId == id;
      }
    }
  }

  lemma PublishStores(f: Feed, context: PollContext, change: Change, nonceUp: bool)
    requires IdsStored(f)
    ensures var g := Publish(f, context, change, nonceUp).0;
            IdsStored(g) && g.strategy == f.strategy
  {
    var id := InputFor(change, context.balance).eventId;
    var g := Publish(f, context, change, nonceUp).0;
    forall other | other in g.nonces
      ensures HasEvent(g.events, other)
    {
      if HasEvent(f.events, other) {
        var i :| 0 <= i < |f.events| && f.events[i].eventId == other;
        assert g.events[i].eventId == other;
      } else {
        assert other == id && g.events[|f.events|].eventId == id;
      }
    }
  }

  lemma PublishAccepts(f: Feed, context: PollContext, change: Change, nonceUp: bool, t: Ticket)
    requires IdsStored(f)
    ensures var g := Publish(f, context, change, nonceUp).0;
            if change.ticket == t then
                Accepts(f.strategy, StoredState(f, t), StoredState(g, t), InputFor(change, context.balance))
            else StoredState(g, t) == StoredState(f, t)
  {
    var input := InputFor(change, context.balance);
    StoredIds(f.events, change.ticket, input.eventId);
    var event := EventOf(f.strategy, TradeOf(f, change.ticket), input);
    LogAppend(f.events, event, t);
    IdsAppend(LogOf(f.events, t), event);
  }

  lemma {:induction false} LivePassPolls(f: Feed, positions: seq<LivePosition>, context: PollContext, nonceUp: bool,
                                         t: Ticket)
    requires IdsStored(f) && DistinctPositions(positions)
    ensures var g := PollLive(f, KnownPositions(f), positions, context, nonceUp).0;
            && IdsStored(g) && g.strategy == f.strategy
            && if LiveAt(positions, t).Some?
               then Polls(f.strategy, StoredState(f, t), StoredState(g, t), t, LiveAt(positions, t), context)
               else StoredState(g, t) == StoredState(f, t)
  {
    if positions != [] {
      var before, p := positions[..|positions| - 1], positions[|positions| - 1];
      LivePassPolls(f, before, context, nonceUp, t);
      LiveAtMeaning(before, t);
      var g := PollLive(f, KnownPositions(f), before, context, nonceUp).0;
      var known := if p.ticket in KnownPositions(f) then Some(KnownPositions(f)[p.ticket]) else None;
      assert p.ticket == t ==> LiveAt(before, t).None?;
      match FindingFor(known, p) {
        case ToPublish(change) =>
          PublishStores(g, context, change, nonceUp);
          PublishAccepts(g, context, change, nonceUp, t);
        case VolumeRose =>
        case Unchanged =>
      }
    }
  }

  lemma {:induction false} VanishedPassPolls(f: Feed, g: Feed, r: WatchResult, order: seq<Ticket>, live: set<Ticket>,
                                             context: PollContext, nonceUp: bool, t: Ticket)
    requires IdsStored(g) && g.strategy == f.strategy
    requires forall u :: u in order ==> u in KnownPositions(f)
    requires forall i, j :: 0 <= i < j < |order| ==> order[i] != order[j]
    requires t !in live ==> StoredState(g, t) == StoredState(f, t)
    ensures var h := PollVanished(g, r, KnownPositions(f), order, live, context, nonceUp).0;
            && IdsStored(h) && h.strategy == f.strategy
            && if t in order && t !in live
               then Polls(f.strategy, StoredState(f, t), StoredState(h, t), t, None, context)
               else StoredState(h, t) == StoredState(g, t)
  {
    if order != [] {
      var before, u := order[..|order| - 1], order[|order| - 1];
      VanishedPassPolls(f, g, r, before, live, context, nonceUp, t);
      assert u !in before;
      assert t in order <==> t in before || t == u;
      var h := PollVanished(g, r, KnownPositions(f), before, live, context, nonceUp).0;
      if u !in live {
        var record := if u in context.closes then Some(context.closes[u]) else None;
        var change := CloseChange(u, KnownPositions(f)[u], record);
        PublishStores(h, context, change, nonceUp);
        PublishAccepts(h, context, change, nonceUp, t);
      }
    }
  }

  /** Whatever the nonce store does, a poll acts on each ticket separately. */
  lemma PollPolls(f: Feed, positions: seq<LivePosition>, order: seq<Ticket>, context: PollContext, nonceUp: bool,
                  t: Ticket)
    requires IdsStored(f) && DistinctPositions(positions) && Lists(order, KnownPositions(f))
    ensures var g := Poll(f, positions, order, context, nonceUp).0;
            && IdsStored(g) && g.strategy == f.strategy
            && Polls(f.strategy, StoredState(f, t), StoredState(g, t), t, LiveAt(positions, t), context)
  {
    var (g, r) := PollLive(f, KnownPositions(f), positions, context, nonceUp);
    LivePassPolls(f, positions, context, nonceUp, t);
    LiveAtMeaning(positions, t);
    VanishedPassPolls(f, g, r, order, LiveTickets(positions), context, nonceUp, t);
  }

  // ---- The grammar of one ticket's events ----------------------------------

  predicate Between(e: TradeEvent) {
    e.eventType == MODIFY || e.eventType == PARTIAL_CLOSE
  }

  /** OPEN (MODIFY | PARTIAL_CLOSE)*, without the OPEN for a ticket of the baseline. */
  predicate Running(log: seq<TradeEvent>, baseline: bool) {
    && (!baseline ==> |log| > 0 && log[0].eventType == OPEN)
    && forall i :: (if baseline then 0 else 1) <= i < |log| ==> Between(log[i])
  }

  predicate Finished(log: seq<TradeEvent>, baseline: bool) {
    |log| > 0 && log[|log| - 1].eventType == CLOSE && Running(log[..|log| - 1], baseline)
  }

  function PartialVolume(log: seq<TradeEvent>): nat {
    if log == [] then 0
    else
      var last := log[|log| - 1];
      PartialVolume(log[..|log| - 1]) + (if last.eventType == PARTIAL_CLOSE then last.volume else 0)
  }

  /** The volume a ticket started with: at the baseline, or by its OPEN event. */
  function Started(log: seq<TradeEvent>, baseline: Option<nat>): nat {
    if baseline.Some? then baseline.value else if log == [] then 0 else log[0].volume
  }

  ghost predicate TicketOk(s: TicketState, t: Ticket, baseline: Option<nat>) {
    match s.trade
    case None => baseline.None? && s.log == [] && s.claimed == {}
    case Some(trade) =>
      if IsOpen(trade) then
        && Running(s.log, baseline.Some?)
        && trade.volume > 0
        && Started(s.log, baseline) == PartialVolume(s.log) + trade.volume
        && Derived(CLOSE, t, Gone) !in s.claimed
        && (forall id :: id in s.claimed && id.Derived? && id.kind == PARTIAL_CLOSE && id.detail.VolumeChange? ==>
              id.detail.after >= trade.volume)
      else
        && trade.status == CLOSED
        && Finished(s.log, baseline.Some?)
        && Started(s.log, baseline) == PartialVolume(s.log) + s.log[|s.log| - 1].volume
  }

  lemma AppendEvent(log: seq<TradeEvent>, e: TradeEvent, baseline: Option<nat>)
    requires Running(log, baseline.Some?)
    ensures Between(e) ==> Running(log + [e], baseline.Some?)
    ensures e.eventType == CLOSE ==> Finished(log + [e], baseline.Some?)
    ensures PartialVolume(log + [e]) == PartialVolume(log) + (if e.eventType == PARTIAL_CLOSE then e.volume else 0)
    ensures Started(log + [e], baseline) == Started(log, baseline)
  {
    assert (log + [e])[..|log|] == log;
  }

  /** A change a poll may find for a recorded open trade: its stops, a smaller volume, or that it is gone. */
  predicate Shrinks(trade: MasterTrade, change: Change) {
    || (change.eventType == MODIFY && change.volume == trade.volume)
    || (change.eventType == PARTIAL_CLOSE && 0 < change.volume < trade.volume
        && change.detail == VolumeChange(trade.volume, trade.volume - change.volume))
    || (change.eventType == CLOSE && change.volume == trade.volume && change.detail == Gone)
  }

  lemma ShrinkKeeps(strategy: StrategyId, s: TicketState, t: Ticket, change: Change, balance: Option<int>,
                    baseline: Option<nat>)
    requires TicketOk(s, t, baseline) && s.trade.Some? && IsOpen(s.trade.value)
    requires change.ticket == t && Shrinks(s.trade.value, change)
    ensures var s' := Absorb(strategy, s, InputFor(change, balance));
            && TicketOk(s', t, baseline)
            && s.log <= s'.log
            && s'.trade.Some? && s'.trade.value.volume <= s.trade.value.volume
            && (IsOpen(s'.trade.value) <==> change.eventType != CLOSE)
  {
    var event := EventOf(strategy, s.trade, InputFor(change, balance));
    AppendEvent(s.log, event, baseline);
    assert event.eventType == change.eventType && event.volume == change.volume;
  }

  lemma OpenStarts(strategy: StrategyId, s: TicketState, t: Ticket, p: LivePosition, context: PollContext)
    requires TicketOk(s, t, None) && s.trade.None?
    requires p.ticket == t && p.volume > 0
    ensures var s' := TicketPoll(strategy, s, t, Some(p), context);
            TicketOk(s', t, None) && s'.trade.Some? && IsOpen(s'.trade.value)
  {
    var event := EventOf(strategy, None, InputFor(TicketFinding(s, t, Some(p), context).change, context.balance));
    assert s.log + [event] == [event];
    assert PartialVolume([]) == 0 && [event][..0] == [];
  }

  lemma FindingShrinks(s: TicketState, t: Ticket, live: Option<LivePosition>, context: PollContext)
    requires s.trade.Some? && (live.Some? ==> live.value.ticket == t && live.value.volume > 0 && IsOpen(s.trade.value))
    requires TicketFinding(s, t, live, context).ToPublish?
    ensures var change := TicketFinding(s, t, live, context).change;
            IsOpen(s.trade.value) && change.ticket == t && Shrinks(s.trade.value, change)
            && (change.eventType == CLOSE <==> live.None?)
  {
  }

  /** Recording a stop change without publishing it disturbs neither log nor volume. */
  lemma SilentModifyKeeps(s: TicketState, t: Ticket, change: Change, balance: Option<int>, baseline: Option<nat>)
    requires TicketOk(s, t, baseline) && s.trade.Some? && IsOpen(s.trade.value)
    requires change.eventType == MODIFY && change.volume == s.trade.value.volume
    ensures var s' := s.(trade := Some(PatchedTrade(s.trade, InputFor(change, balance))));
            TicketOk(s', t, baseline) && IsOpen(s'.trade.value) && s'.trade.value.volume == s.trade.value.volume
  {
  }

  /** One poll keeps a ticket's log in the grammar, its volume accounted for, and its recorded volume from rising. */
  lemma TicketPollKeeps(strategy: StrategyId, s: TicketState, s': TicketState, t: Ticket, live: Option<LivePosition>,
                        context: PollContext, baseline: Option<nat>)
    requires TicketOk(s, t, baseline) && Polls(strategy, s, s', t, live, context)
    requires live.Some? ==> live.value.ticket == t && live.value.volume > 0
    requires live.Some? && s.trade.Some? ==> IsOpen(s.trade.value)
    ensures && TicketOk(s', t, baseline)
            && s.log <= s'.log
            && (s'.trade.Some? <==> s.trade.Some? || live.Some?)
            && (s'.trade.Some? && !IsOpen(s'.trade.value) ==> live.None? && s.trade.Some?)
            && (s.trade.Some? ==> s'.trade.Some? && s'.trade.value.volume <= s.trade.value.volume)
  {
    if s.trade.None? {
      if live.Some? {
        OpenStarts(strategy, s, t, live.value, context);
      }
    } else if TicketFinding(s, t, live, context).ToPublish? {
      FindingShrinks(s, t, live, context);
      var change := TicketFinding(s, t, live, context).change;
      if InputFor(change, context.balance).eventId in s.claimed {
        OnlyStopChangesCanBeDropped(s, t, live, context, baseline);
        SilentModifyKeeps(s, t, change, context.balance, baseline);
      } else {
        ShrinkKeeps(strategy, s, t, change, context.balance, baseline);
      }
    }
  }

  /** Apart from stop changes, every change a poll finds is published: its id cannot have been claimed before. */
  lemma OnlyStopChangesCanBeDropped(s: TicketState, t: Ticket, live: Option<LivePosition>, context: PollContext,
                                    baseline: Option<nat>)
    requires TicketOk(s, t, baseline)
    requires live.Some? ==> live.value.ticket == t
    requires live.Some? && s.trade.Some? ==> IsOpen(s.trade.value)
    requires TicketFinding(s, t, live, context).ToPublish?
    requires InputFor(TicketFinding(s, t, live, context).change, context.balance).eventId in s.claimed
    ensures TicketFinding(s, t, live, context).change.eventType == MODIFY
  {
  }

  // ---- Over a whole run ----------------------------------------------------

  ghost function BaselineVolume(first: seq<LivePosition>, t: Ticket): Option<nat> {
    if LiveAt(first, t).Some? then Some(LiveAt(first, t).value.volume) else None
  }

  lemma {:induction false} BaselineTicket(strategy: StrategyId, first: seq<LivePosition>, t: Ticket)
    requires DistinctPositions(first)
    ensures var f := Baseline(Fresh(strategy), first);
            && f.events == [] && f.nonces == {} && f.strategy == strategy
            && (t in f.trades <==> t in LiveTickets(first))
            && (t in f.trades ==> f.trades[t].status == OPENED && Some(f.trades[t].volume) == BaselineVolume(first, t))
  {
    if first != [] {
      var before, p := first[..|first| - 1], first[|first| - 1];
      BaselineTicket(strategy, before, t);
      BaselineTicket(strategy, before, p.ticket);
      LiveAtMeaning(before, p.ticket);
      LiveAtMeaning(first, t);
      LiveAtMeaning(before, t);
    }
  }

  lemma {:induction false} BaselineMatches(strategy: StrategyId, first: seq<LivePosition>, t: Ticket)
    requires DistinctPositions(first)
    ensures Matches(StateOf(Baseline(Fresh(strategy), first), t), LiveAt(first, t))
  {
    if first != [] {
      var before, p := first[..|first| - 1], first[|first| - 1];
      BaselineMatches(strategy, before, t);
      BaselineTicket(strategy, before, p.ticket);
      LiveAtMeaning(before, p.ticket);
    }
  }

  /**
   * Trading already in flight is not replayed: after the baseline, the next poll
   * of the same positions publishes nothing.
   */
  lemma BaselineIsSilent(strategy: StrategyId, first: seq<LivePosition>, order: seq<Ticket>, context: PollContext)
    requires DistinctPositions(first)
    requires Lists(order, KnownPositions(Baseline(Fresh(strategy), first)))
    ensures var f := Baseline(Fresh(strategy), first);
            var (g, r) := Poll(f, first, order, context, true);
            g == f && f.events == [] && f.jobs == {} && r == EMPTY
  {
    var f := Baseline(Fresh(strategy), first);
    BaselineTicket(strategy, first, 0);
    forall p | p in first
      ensures FindingFor(Known(StateOf(f, p.ticket)), p) == Unchanged
    {
      BaselineMatches(strategy, first, p.ticket);
      LiveAtUnique(first, p);
    }
    UnchangedLivePass(f, first, context);
    forall t | t in order
      ensures t in LiveTickets(first)
    {
      BaselineTicket(strategy, first, t);
    }
    AllLivePass(f, EMPTY, order, LiveTickets(first), context);
    BaselineJobs(strategy, first);
  }

  lemma {:induction false} BaselineJobs(strategy: StrategyId, first: seq<LivePosition>)
    ensures Baseline(Fresh(strategy), first).jobs == {}
  {
    if first != [] {
      BaselineJobs(strategy, first[..|first| - 1]);
    }
  }

  lemma {:induction false} UnchangedLivePass(f: Feed, positions: seq<LivePosition>, context: PollContext)
    requires forall p :: p in positions ==> FindingFor(Known(StateOf(f, p.ticket)), p) == Unchanged
    ensures PollLive(f, KnownPositions(f), positions, context, true) == (f, EMPTY)
  {
    if positions != [] {
      UnchangedLivePass(f, positions[..|positions| - 1], context);
      assert FindingFor(Known(StateOf(f, positions[|positions| - 1].ticket)), positions[|positions| - 1]) == Unchanged;
    }
  }

  lemma {:induction false} AllLivePass(f: Feed, r: WatchResult, order: seq<Ticket>, live: set<Ticket>,
                                       context: PollContext)
    requires forall t :: t in order ==> t in KnownPositions(f) && t in live
    ensures PollVanished(f, r, KnownPositions(f), order, live, context, true) == (f, r)
  {
    if order != [] {
      AllLivePass(f, r, order[..|order| - 1], live, context);
    }
  }

  /**
   * Over every run, for every ticket: nothing is published for it before it is
   * seen, its log is a prefix of OPEN (MODIFY | PARTIAL_CLOSE)* CLOSE with no
   * OPEN for a baseline ticket, its volume is accounted for, and it is closed
   * only once it has left the broker.
   */
  lemma {:induction false} PublishedLogs(strategy: StrategyId, first: seq<LivePosition>, polls: seq<PollInput>,
                                         t: Ticket)
    requires ValidRun(strategy, first, polls) && NeverReused(first, polls)
    ensures var f := Polled(strategy, first, polls);
            && IdsStored(f)
            && TicketOk(StoredState(f, t), t, BaselineVolume(first, t))
            && (t in f.trades <==> t in Seen(first, polls))
            && (t in f.trades && !IsOpen(f.trades[t]) ==> t in Retired(first, polls))
  {
    if polls == [] {
      BaselineTicket(strategy, first, t);
      LiveAtMeaning(first, t);
    } else {
      var before, last := polls[..|polls| - 1], polls[|polls| - 1];
      PublishedLogs(strategy, first, before, t);
      var f := Expire(Polled(strategy, first, before), last.unexpired);
      PollPolls(f, last.positions, last.order, last.context, last.nonceUp, t);
      LiveAtMeaning(last.positions, t);
      var g := Polled(strategy, first, polls);
      assert StoredState(f, t) == StoredState(Polled(strategy, first, before), t);
      TicketPollKeeps(f.strategy, StoredState(f, t), StoredState(g, t), t, LiveAt(last.positions, t), last.context,
                      BaselineVolume(first, t));
    }
  }

  // ---- Ids are unique ------------------------------------------------------

  ghost predicate UniqueIds(events: seq<TradeEvent>) {
    forall i, j :: 0 <= i < j < |events| ==> events[i].eventId != events[j].eventId
  }

  lemma PublishKeepsUnique(f: Feed, context: PollContext, change: Change, nonceUp: bool)
    requires UniqueIds(f.events)
    ensures UniqueIds(Publish(f, context, change, nonceUp).0.events)
  {
  }

  lemma {:induction false} LivePassKeepsUnique(f: Feed, known: map<Ticket, MasterTrade>, positions: seq<LivePosition>,
                                               context: PollContext, nonceUp: bool)
    requires UniqueIds(f.events)
    ensures UniqueIds(PollLive(f, known, positions, context, nonceUp).0.events)
  {
    if positions != [] {
      LivePassKeepsUnique(f, known, positions[..|positions| - 1], context, nonceUp);
      var g := PollLive(f, known, positions[..|positions| - 1], context, nonceUp).0;
      var p := positions[|positions| - 1];
      match FindingFor(if p.ticket in known then Some(known[p.ticket]) else None, p) {
        case ToPublish(change) => PublishKeepsUnique(g, context, change, nonceUp);
        case VolumeRose =>
        case Unchanged =>
      }
    }
  }

  lemma {:induction false} VanishedPassKeepsUnique(f: Feed, r: WatchResult, known: map<Ticket, MasterTrade>,
                                                   order: seq<Ticket>, live: set<Ticket>, context: PollContext,
                                                   nonceUp: bool)
    requires UniqueIds(f.events) && forall t :: t in order ==> t in known
    ensures UniqueIds(PollVanished(f, r, known, order, live, context, nonceUp).0.events)
  {
    if order != [] {
      var t := order[|order| - 1];
      VanishedPassKeepsUnique(f, r, known, order[..|order| - 1], live, context, nonceUp);
      if t !in live {
        var record := if t in context.closes then Some(context.closes[t]) else None;
        PublishKeepsUnique(PollVanished(f, r, known, order[..|order| - 1], live, context, nonceUp).0, context,
                           CloseChange(t, known[t], record), nonceUp);
      }
    }
  }

  /** Over every run no two stored events share an id. */
  lemma {:induction false} IdsAreUnique(strategy: StrategyId, first: seq<LivePosition>, polls: seq<PollInput>)
    requires ValidRun(strategy, first, polls)
    ensures UniqueIds(Polled(strategy, first, polls).events)
  {
    if polls == [] {
      BaselineTicket(strategy, first, 0);
    } else {
      var before, last := polls[..|polls| - 1], polls[|polls| - 1];
      IdsAreUnique(strategy, first, before);
      var f := Expire(Polled(strategy, first, before), last.unexpired);
      LivePassKeepsUnique(f, KnownPositions(f), last.positions, last.context, last.nonceUp);
      var (g, r) := PollLive(f, KnownPositions(f), last.positions, last.context, last.nonceUp);
      VanishedPassKeepsUnique(g, r, KnownPositions(f), last.order, LiveTickets(last.positions), last.context,
                              last.nonceUp);
    }
  }

  lemma RunningIsNotFinished(log: seq<TradeEvent>, baseline: bool)
    requires Running(log, baseline)
    ensures !Finished(log, baseline)
  {
    if (baseline && |log| > 0) || |log| > 1 {
      assert Between(log[|log| - 1]);
    }
  }

  /** The grammar and the conservation law, spelled out. */
  lemma GrammarAndConservation(strategy: StrategyId, first: seq<LivePosition>, polls: seq<PollInput>, t: Ticket)
    requires ValidRun(strategy, first, polls) && NeverReused(first, polls)
    ensures var log := LogOf(Polled(strategy, first, polls).events, t);
            var baseline := BaselineVolume(first, t);
            && (log == [] || Running(log, baseline.Some?) || Finished(log, baseline.Some?))
            && (Finished(log, baseline.Some?) ==>
                  Started(log, baseline) == PartialVolume(log) + log[|log| - 1].volume)
  {
    PublishedLogs(strategy, first, polls, t);
    var log := LogOf(Polled(strategy, first, polls).events, t);
    if Running(log, BaselineVolume(first, t).Some?) {
      RunningIsNotFinished(log, BaselineVolume(first, t).Some?);
    }
  }
}
