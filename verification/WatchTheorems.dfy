/**
 * Polling is a diff and its patch. A poll acts on every ticket separately, so
 * everything is proved for one ticket and carried over by `PollIsPointwise`.
 */
module WatchTheorems {
  import opened Common
  import opened TradeTypes
  import opened FeedModel
  import opened WatchModel

  // ---- One ticket's share of the record ------------------------------------

  /** What is recorded about one ticket, which of its event ids are claimed, and its published events. */
  datatype TicketState = TicketState(trade: Option<MasterTrade>, claimed: set<EventId>, log: seq<TradeEvent>)

  function LogOf(events: seq<TradeEvent>, t: Ticket): seq<TradeEvent> {
    if events == [] then []
    else
      LogOf(events[..|events| - 1], t) + (if events[|events| - 1].ticket == t then [events[|events| - 1]] else [])
  }

  function ClaimedFor(nonces: set<EventId>, t: Ticket): set<EventId> {
    set id | id in nonces && id.Derived? && id.ticket == t
  }

  function StateOf(f: Feed, t: Ticket): TicketState {
    TicketState(TradeOf(f, t), ClaimedFor(f.nonces, t), LogOf(f.events, t))
  }

  /** Every stored event's id has been claimed: what the nonce store guarantees while it answers. */
  ghost predicate EventsClaimed(f: Feed) {
    forall i :: 0 <= i < |f.events| ==> f.events[i].eventId in f.nonces
  }

  function Absorb(strategy: StrategyId, s: TicketState, input: MasterInput): TicketState {
    if input.eventId in s.claimed then s
    else TicketState(Some(PatchedTrade(s.trade, input)), s.claimed + {input.eventId},
                     s.log + [EventOf(strategy, s.trade, input)])
  }

  function Known(s: TicketState): Option<MasterTrade> {
    if s.trade.Some? && IsOpen(s.trade.value) then s.trade else None
  }

  /** What a poll finds for one ticket, given its live position if there is one. */
  function TicketFinding(s: TicketState, t: Ticket, live: Option<LivePosition>, context: PollContext): Finding {
    match live
    case Some(p) => FindingFor(Known(s), p)
    case None =>
      if Known(s).None? then Unchanged
      else ToPublish(CloseChange(t, Known(s).value, if t in context.closes then Some(context.closes[t]) else None))
  }

  function TicketPoll(strategy: StrategyId, s: TicketState, t: Ticket, live: Option<LivePosition>,
                      context: PollContext)
    : TicketState
  {
    match TicketFinding(s, t, live, context)
    case ToPublish(change) => Absorb(strategy, s, InputFor(change, context.balance))
    case VolumeRose => s
    case Unchanged => s
  }

  // ---- A poll acts on each ticket separately -------------------------------

  lemma PublishIsPointwise(f: Feed, context: PollContext, change: Change, t: Ticket)
    requires EventsClaimed(f)
    ensures var g := Publish(f, context, change, true).0;
            && EventsClaimed(g) && g.strategy == f.strategy
            && StateOf(g, t) == if change.ticket == t
                                then Absorb(f.strategy, StateOf(f, t), InputFor(change, context.balance))
                                else StateOf(f, t)
    ensures Publish(f, context, change, true).1 <==>
              context.active && InputFor(change, context.balance).eventId !in f.nonces
  {
    var input := InputFor(change, context.balance);
    var g := Publish(f, context, change, true).0;
    if input.eventId !in f.nonces {
      var event := EventOf(f.strategy, TradeOf(f, change.ticket), input);
      assert g.events == f.events + [event];
      assert (f.events + [event])[..|f.events|] == f.events;
      assert ClaimedFor(g.nonces, t) == ClaimedFor(f.nonces, t) + (if change.ticket == t then {input.eventId} else {});
    }
  }

  function LiveAt(positions: seq<LivePosition>, t: Ticket): Option<LivePosition> {
    if positions == [] then None
    else if positions[|positions| - 1].ticket == t then Some(positions[|positions| - 1])
    else LiveAt(positions[..|positions| - 1], t)
  }

  lemma {:induction false} LiveAtMeaning(positions: seq<LivePosition>, t: Ticket)
    ensures LiveAt(positions, t).Some? <==> t in LiveTickets(positions)
    ensures LiveAt(positions, t).Some? ==>
              LiveAt(positions, t).value in positions && LiveAt(positions, t).value.ticket == t
  {
    if positions != [] {
      LiveAtMeaning(positions[..|positions| - 1], t);
      assert positions == positions[..|positions| - 1] + [positions[|positions| - 1]];
    }
  }

  lemma {:induction false} LivePassIsPointwise(f: Feed, positions: seq<LivePosition>, context: PollContext, t: Ticket)
    requires EventsClaimed(f) && DistinctPositions(positions)
    ensures var g := PollLive(f, KnownPositions(f), positions, context, true).0;
            && EventsClaimed(g) && g.strategy == f.strategy
            && StateOf(g, t) == if LiveAt(positions, t).Some?
                                then TicketPoll(f.strategy, StateOf(f, t), t, LiveAt(positions, t), context)
                                else StateOf(f, t)
  {
    if positions != [] {
      var before, p := positions[..|positions| - 1], positions[|positions| - 1];
      LivePassIsPointwise(f, before, context, t);
      LiveAtMeaning(before, t);
      var g := PollLive(f, KnownPositions(f), before, context, true).0;
      var known := if p.ticket in KnownPositions(f) then Some(KnownPositions(f)[p.ticket]) else None;
      assert p.ticket == t ==> LiveAt(before, t).None?;
      match FindingFor(known, p) {
        case ToPublish(change) => PublishIsPointwise(g, context, change, t);
        case VolumeRose =>
        case Unchanged =>
      }
    }
  }

  lemma {:induction false} VanishedPassIsPointwise(f: Feed, g: Feed, r: WatchResult, order: seq<Ticket>,
                                                   live: set<Ticket>,
                                                   context: PollContext, t: Ticket)
    requires EventsClaimed(g) && g.strategy == f.strategy
    requires forall u :: u in order ==> u in KnownPositions(f)
    requires forall i, j :: 0 <= i < j < |order| ==> order[i] != order[j]
    requires t !in live ==> StateOf(g, t) == StateOf(f, t)
    ensures var h := PollVanished(g, r, KnownPositions(f), order, live, context, true).0;
            && EventsClaimed(h) && h.strategy == f.strategy
            && StateOf(h, t) == if t in order && t !in live then TicketPoll(f.strategy, StateOf(f, t), t, None, context)
                                else StateOf(g, t)
  {
    if order != [] {
      var before, u := order[..|order| - 1], order[|order| - 1];
      VanishedPassIsPointwise(f, g, r, before, live, context, t);
      assert u !in before;
      assert t in order <==> t in before || t == u;
      var h := PollVanished(g, r, KnownPositions(f), before, live, context, true).0;
      if u !in live {
        var record := if u in context.closes then Some(context.closes[u]) else None;
        PublishIsPointwise(h, context, CloseChange(u, KnownPositions(f)[u], record), t);
      }
    }
  }

  /** After a poll, each ticket's state is a function of its own state before and its own live position. */
  lemma PollIsPointwise(f: Feed, positions: seq<LivePosition>, order: seq<Ticket>, context: PollContext, t: Ticket)
    requires EventsClaimed(f) && DistinctPositions(positions) && Lists(order, KnownPositions(f))
    ensures var g := Poll(f, positions, order, context, true).0;
            && EventsClaimed(g) && g.strategy == f.strategy
            && StateOf(g, t) == TicketPoll(f.strategy, StateOf(f, t), t, LiveAt(positions, t), context)
  {
    var (g, r) := PollLive(f, KnownPositions(f), positions, context, true);
    LivePassIsPointwise(f, positions, context, t);
    LiveAtMeaning(positions, t);
    VanishedPassIsPointwise(f, g, r, order, LiveTickets(positions), context, t);
  }

  // ---- Diff, then patch ----------------------------------------------------

  /** The record says about a ticket what the snapshot says, stops up to the price tolerance. */
  predicate Matches(s: TicketState, live: Option<LivePosition>) {
    match live
    case None => Known(s).None?
    case Some(p) =>
      && Known(s).Some? && Known(s).value.volume == p.volume
      && Abs(Known(s).value.sl.GetOr(0) - p.sl.GetOr(0)) <= PRICE_EPSILON
      && Abs(Known(s).value.tp.GetOr(0) - p.tp.GetOr(0)) <= PRICE_EPSILON
  }

  /**
   * What decides, before the poll, whether it can bring a ticket's record in
   * line: its volume did not rise, the id its change derives is unclaimed, and
   * a live ticket is not recorded as one that already ended.
   */
  predicate Patchable(s: TicketState, t: Ticket, live: Option<LivePosition>, context: PollContext) {
    match TicketFinding(s, t, live, context)
    case Unchanged => true
    case VolumeRose => false
    case ToPublish(change) =>
      && InputFor(change, context.balance).eventId !in s.claimed
      && (change.eventType == OPEN ==> s.trade.None?)
  }

  lemma TicketMatchesIffPatchable(strategy: StrategyId, s: TicketState, t: Ticket, live: Option<LivePosition>,
                                  context: PollContext)
    requires live.Some? ==> live.value.ticket == t
    ensures Matches(TicketPoll(strategy, s, t, live, context), live) <==> Patchable(s, t, live, context)
  {
  }

  /**
   * A trade that left the broker is recorded as closed, with the broker's own
   * price and profit, and published as a full close.
   */
  lemma VanishedIsRecorded(strategy: StrategyId, s: TicketState, t: Ticket, context: PollContext)
    requires Known(s).Some? && t in context.closes && Derived(CLOSE, t, Gone) !in s.claimed
    ensures var s' := TicketPoll(strategy, s, t, None, context);
            && s'.trade.Some? && s'.trade.value.status == CLOSED
            && s'.trade.value.closePrice == Some(context.closes[t].closePrice)
            && s'.trade.value.profit == Some(context.closes[t].profit)
            && |s'.log| == |s.log| + 1
            && s'.log[|s.log|].eventType == CLOSE && s'.log[|s.log|].ticket == t
            && s'.log[|s.log|].volume == s.trade.value.volume
            && s'.log[|s.log|].symbol == s.trade.value.symbol && s'.log[|s.log|].orderType == s.trade.value.orderType
  {
  }

  predicate SameStops(p: LivePosition, q: LivePosition) {
    && Abs(p.sl.GetOr(0) - q.sl.GetOr(0)) <= PRICE_EPSILON
    && Abs(p.tp.GetOr(0) - q.tp.GetOr(0)) <= PRICE_EPSILON
  }

  /** A fresh stop change is recorded as the broker reports it. */
  lemma FreshStopsAreRecorded(strategy: StrategyId, s: TicketState, t: Ticket, p: LivePosition, context: PollContext)
    requires Known(s).Some? && p.ticket == t && p.volume == s.trade.value.volume && StopsDiffer(s.trade.value, p)
    requires Derived(MODIFY, t, Stops(p.sl.GetOr(0), p.tp.GetOr(0))) !in s.claimed
    ensures var s' := TicketPoll(strategy, s, t, Some(p), context);
            && Known(s').Some? && s'.trade.value == s.trade.value.(sl := p.sl, tp := p.tp)
            && s'.claimed == s.claimed + {Derived(MODIFY, t, Stops(p.sl.GetOr(0), p.tp.GetOr(0)))}
  {
  }

  /**
   * Stops that move from p to q and back to p: the return derives the id p
   * already used, so it is dropped and the record keeps q.
   */
  lemma ReturningStopsAreDropped(strategy: StrategyId, s: TicketState, t: Ticket, p: LivePosition, q: LivePosition,
                                 context: PollContext)
    requires Known(s).Some? && p.ticket == q.ticket == t && p.volume == q.volume == s.trade.value.volume
    requires StopsDiffer(s.trade.value, p) && !SameStops(p, q)
    requires Derived(MODIFY, t, Stops(p.sl.GetOr(0), p.tp.GetOr(0))) !in s.claimed
    requires Derived(MODIFY, t, Stops(q.sl.GetOr(0), q.tp.GetOr(0))) !in s.claimed
    ensures var moved := TicketPoll(strategy, TicketPoll(strategy, s, t, Some(p), context), t, Some(q), context);
            && Matches(moved, Some(q))
            && TicketPoll(strategy, moved, t, Some(p), context) == moved
            && !Matches(moved, Some(p))
  {
    FreshStopsAreRecorded(strategy, s, t, p, context);
    FreshStopsAreRecorded(strategy, TicketPoll(strategy, s, t, Some(p), context), t, q, context);
  }

  /** Successive polls of one ticket that stays open, each with its own context. */
  function TicketPolls(strategy: StrategyId, s: TicketState, t: Ticket,
                       polls: seq<(LivePosition, PollContext)>)
    : TicketState
  {
    if polls == [] then s
    else
      var last := polls[|polls| - 1];
      TicketPoll(strategy, TicketPolls(strategy, s, t, polls[..|polls| - 1]), t, Some(last.0), last.1)
  }

  /** The last event of `log` beyond `before` is a stop change to these stops. */
  predicate AnnouncesStops(before: seq<TradeEvent>, log: seq<TradeEvent>, p: LivePosition) {
    |log| == |before| + 1 && before <= log
    && log[|before|].eventType == MODIFY && log[|before|].sl == p.sl && log[|before|].tp == p.tp
  }

  /**
   * A poll that finds other stops announces them if and only if the volume is
   * as recorded and the pair's id is unused: a smaller volume is announced
   * instead, and a larger one hides everything.
   */
  lemma StopsAnnouncedIff(strategy: StrategyId, s: TicketState, t: Ticket, p: LivePosition, context: PollContext)
    requires Known(s).Some? && p.ticket == t && StopsDiffer(s.trade.value, p)
    ensures AnnouncesStops(s.log, TicketPoll(strategy, s, t, Some(p), context).log, p)
            <==> p.volume == s.trade.value.volume
                 && Derived(MODIFY, t, Stops(p.sl.GetOr(0), p.tp.GetOr(0))) !in s.claimed
  {
  }

  /**
   * As long as a position holds more than is recorded, nothing about it is
   * published or recorded: neither its stops nor partial closes that leave it
   * above the recorded volume.
   */
  lemma {:induction false} RisenStaysSilent(strategy: StrategyId, s: TicketState, t: Ticket,
                                            polls: seq<(LivePosition, PollContext)>)
    requires Known(s).Some?
    requires forall i :: 0 <= i < |polls| ==>
               polls[i].0.ticket == t && polls[i].0.volume > s.trade.value.volume
    ensures TicketPolls(strategy, s, t, polls) == s
  {
    if polls != [] {
      RisenStaysSilent(strategy, s, t, polls[..|polls| - 1]);
    }
  }

  predicate HasStops(p: LivePosition, sl: Option<int>, tp: Option<int>) {
    p.sl == sl && p.tp == tp
  }

  lemma SameStopsPublishNoModify(strategy: StrategyId, s: TicketState, t: Ticket, p: LivePosition, context: PollContext)
    requires Known(s).Some? && p.ticket == t && HasStops(p, s.trade.value.sl, s.trade.value.tp)
    ensures var s' := TicketPoll(strategy, s, t, Some(p), context);
            && Known(s').Some? && s'.trade.value.sl == s.trade.value.sl && s'.trade.value.tp == s.trade.value.tp
            && s.log <= s'.log
            && (forall i :: |s.log| <= i < |s'.log| ==> s'.log[i].eventType == PARTIAL_CLOSE)
  {
  }

  /** While the stops stay as recorded, no poll publishes a stop change, however the volume moves. */
  lemma {:induction false} RecordedStopsStaySilent(strategy: StrategyId, s: TicketState, t: Ticket,
                                                   polls: seq<(LivePosition, PollContext)>)
    requires Known(s).Some?
    requires forall i :: 0 <= i < |polls| ==>
               polls[i].0.ticket == t && HasStops(polls[i].0, s.trade.value.sl, s.trade.value.tp)
    ensures var s' := TicketPolls(strategy, s, t, polls);
            && Known(s').Some? && s'.trade.value.sl == s.trade.value.sl && s'.trade.value.tp == s.trade.value.tp
            && s.log <= s'.log
            && (forall i :: |s.log| <= i < |s'.log| ==> s'.log[i].eventType == PARTIAL_CLOSE)
  {
    if polls != [] {
      var before, last := polls[..|polls| - 1], polls[|polls| - 1];
      RecordedStopsStaySilent(strategy, s, t, before);
      SameStopsPublishNoModify(strategy, TicketPolls(strategy, s, t, before), t, last.0, last.1);
    }
  }

  /**
   * A stop change seen together with a partial close is recorded, and as long
   * as the position keeps those stops no later poll publishes it.
   */
  lemma PartialCloseHidesStops(strategy: StrategyId, s: TicketState, t: Ticket, p: LivePosition, context: PollContext,
                               polls: seq<(LivePosition, PollContext)>)
    requires Known(s).Some? && p.ticket == t && p.volume < s.trade.value.volume && StopsDiffer(s.trade.value, p)
    requires Derived(PARTIAL_CLOSE, t, VolumeChange(s.trade.value.volume, p.volume)) !in s.claimed
    requires forall i :: 0 <= i < |polls| ==> polls[i].0.ticket == t && HasStops(polls[i].0, p.sl, p.tp)
    ensures var s' := TicketPoll(strategy, s, t, Some(p), context);
            var end := TicketPolls(strategy, s', t, polls);
            && s'.trade.Some? && !StopsDiffer(s'.trade.value, p)
            && TicketFinding(s', t, Some(p), context) == Unchanged
            && s.log <= end.log
            && (forall i :: |s.log| <= i < |end.log| ==> end.log[i].eventType == PARTIAL_CLOSE)
  {
    var s' := TicketPoll(strategy, s, t, Some(p), context);
    assert s'.log[|s.log|].eventType == PARTIAL_CLOSE && |s'.log| == |s.log| + 1;
    RecordedStopsStaySilent(strategy, s', t, polls);
  }

  /**
   * One poll turns the recorded open trades into the live snapshot exactly when
   * every ticket is patchable; a ticket whose volume rose stays as it was.
   */
  lemma PollPatchesIff(f: Feed, positions: seq<LivePosition>, order: seq<Ticket>, context: PollContext)
    requires EventsClaimed(f) && DistinctPositions(positions) && Lists(order, KnownPositions(f))
    ensures var g := Poll(f, positions, order, context, true).0;
            && ((forall t :: Matches(StateOf(g, t), LiveAt(positions, t)))
                <==> (forall t :: Patchable(StateOf(f, t), t, LiveAt(positions, t), context)))
            && (forall t :: TicketFinding(StateOf(f, t), t, LiveAt(positions, t), context) == VolumeRose ==>
                  StateOf(g, t) == StateOf(f, t))
  {
    var g := Poll(f, positions, order, context, true).0;
    forall t
      ensures Matches(StateOf(g, t), LiveAt(positions, t)) <==>
                Patchable(StateOf(f, t), t, LiveAt(positions, t), context)
      ensures TicketFinding(StateOf(f, t), t, LiveAt(positions, t), context) == VolumeRose ==>
                StateOf(g, t) == StateOf(f, t)
    {
      PollIsPointwise(f, positions, order, context, t);
      LiveAtMeaning(positions, t);
      TicketMatchesIffPatchable(f.strategy, StateOf(f, t), t, LiveAt(positions, t), context);
    }
    if forall t :: Matches(StateOf(g, t), LiveAt(positions, t)) {
      forall t ensures Patchable(StateOf(f, t), t, LiveAt(positions, t), context) {
        assert Matches(StateOf(g, t), LiveAt(positions, t));
      }
    } else {
      var t :| !Matches(StateOf(g, t), LiveAt(positions, t));
      assert !Patchable(StateOf(f, t), t, LiveAt(positions, t), context);
    }
  }

  ghost function Rises(known: map<Ticket, MasterTrade>, positions: seq<LivePosition>): set<LivePosition> {
    set p | p in positions && p.ticket in known && p.volume > known[p.ticket].volume
  }

  lemma RiseIsSkipped(f: Feed, r: WatchResult, known: map<Ticket, MasterTrade>, p: LivePosition, context: PollContext)
    ensures PollPosition(f, r, known, p, context, true).1.skipped
            == r.skipped + (if p.ticket in known && p.volume > known[p.ticket].volume then 1 else 0)
  {
  }

  lemma RisesGrow(known: map<Ticket, MasterTrade>, positions: seq<LivePosition>)
    requires DistinctPositions(positions) && positions != []
    ensures var before, p := positions[..|positions| - 1], positions[|positions| - 1];
            |Rises(known, positions)| == |Rises(known, before)|
                                         + (if p.ticket in known && p.volume > known[p.ticket].volume then 1 else 0)
  {
    var before, p := positions[..|positions| - 1], positions[|positions| - 1];
    assert positions == before + [p];
    assert p !in before;
    var added := if p.ticket in known && p.volume > known[p.ticket].volume then {p} else {};
    assert Rises(known, positions) == Rises(known, before) + added;
  }

  lemma {:induction false} LivePassCountsRises(f: Feed, known: map<Ticket, MasterTrade>, positions: seq<LivePosition>,
                                               context: PollContext)
    requires DistinctPositions(positions)
    ensures PollLive(f, known, positions, context, true).1.skipped == |Rises(known, positions)|
  {
    if positions != [] {
      var before, p := positions[..|positions| - 1], positions[|positions| - 1];
      LivePassCountsRises(f, known, before, context);
      var (g, r) := PollLive(f, known, before, context, true);
      RiseIsSkipped(g, r, known, p, context);
      RisesGrow(known, positions);
    }
  }

  lemma {:induction false} VanishedPassKeepsSkips(f: Feed, r: WatchResult, known: map<Ticket, MasterTrade>,
                                                  order: seq<Ticket>,
                                                  live: set<Ticket>, context: PollContext)
    requires forall t :: t in order ==> t in known
    ensures PollVanished(f, r, known, order, live, context, true).1.skipped == r.skipped
  {
    if order != [] {
      VanishedPassKeepsSkips(f, r, known, order[..|order| - 1], live, context);
    }
  }

  /** Every position whose volume rose is counted as skipped, and nothing else is. */
  lemma RisesAreCounted(f: Feed, positions: seq<LivePosition>, order: seq<Ticket>, context: PollContext)
    requires DistinctPositions(positions) && Lists(order, KnownPositions(f))
    ensures Poll(f, positions, order, context, true).1.skipped == |Rises(KnownPositions(f), positions)|
  {
    var (g, r) := PollLive(f, KnownPositions(f), positions, context, true);
    LivePassCountsRises(f, KnownPositions(f), positions, context);
    VanishedPassKeepsSkips(g, r, KnownPositions(f), order, LiveTickets(positions), context);
  }

  // ---- Polling the same snapshot again -------------------------------------

  lemma TicketPollAgain(strategy: StrategyId, s: TicketState, t: Ticket, live: Option<LivePosition>,
                        context: PollContext)
    requires live.Some? ==> live.value.ticket == t
    ensures var once := TicketPoll(strategy, s, t, live, context);
            match TicketFinding(once, t, live, context)
            case ToPublish(change) => InputFor(change, context.balance).eventId in once.claimed
            case VolumeRose => true
            case Unchanged => true
  {
  }

  /** A position that publishes nothing: no change, a rise, or a change whose id is already claimed. */
  ghost predicate Quiet(f: Feed, known: Option<MasterTrade>, p: LivePosition, context: PollContext) {
    match FindingFor(known, p)
    case ToPublish(change) => InputFor(change, context.balance).eventId in f.nonces
    case VolumeRose => true
    case Unchanged => true
  }

  predicate PublishedNothing(r: WatchResult) {
    r.opens == 0 && r.modified == 0 && r.partiallyClosed == 0 && r.closed == 0
  }

  lemma {:induction false} QuietLivePass(f: Feed, positions: seq<LivePosition>, context: PollContext)
    requires forall p :: p in positions ==> Quiet(f, Known(StateOf(f, p.ticket)), p, context)
    ensures var (g, r) := PollLive(f, KnownPositions(f), positions, context, true);
            g == f && PublishedNothing(r)
  {
    if positions != [] {
      QuietLivePass(f, positions[..|positions| - 1], context);
      assert Quiet(f, Known(StateOf(f, positions[|positions| - 1].ticket)), positions[|positions| - 1], context);
    }
  }

  lemma {:induction false} QuietVanishedPass(f: Feed, r: WatchResult, order: seq<Ticket>, live: set<Ticket>,
                                             context: PollContext)
    requires forall t :: t in order ==> t in KnownPositions(f)
    requires forall t :: t in order && t !in live ==> Derived(CLOSE, t, Gone) in f.nonces
    requires PublishedNothing(r)
    ensures var (g, r') := PollVanished(f, r, KnownPositions(f), order, live, context, true);
            g == f && PublishedNothing(r')
  {
    if order != [] {
      QuietVanishedPass(f, r, order[..|order| - 1], live, context);
    }
  }

  /**
   * From any state, polling the same snapshot a second time publishes nothing
   * and changes nothing, whatever the first poll could or could not patch.
   */
  lemma PollingAgainIsIdle(f: Feed, positions: seq<LivePosition>, order: seq<Ticket>, order': seq<Ticket>,
                           context: PollContext)
    requires EventsClaimed(f) && DistinctPositions(positions) && Lists(order, KnownPositions(f))
    requires Lists(order', KnownPositions(Poll(f, positions, order, context, true).0))
    ensures var g := Poll(f, positions, order, context, true).0;
            var (h, r) := Poll(g, positions, order', context, true);
            h == g && PublishedNothing(r)
  {
    var g := Poll(f, positions, order, context, true).0;
    forall p | p in positions
      ensures Quiet(g, Known(StateOf(g, p.ticket)), p, context)
    {
      var t := p.ticket;
      PollIsPointwise(f, positions, order, context, t);
      LiveAtUnique(positions, p);
      TicketPollAgain(f.strategy, StateOf(f, t), t, LiveAt(positions, t), context);
    }
    QuietLivePass(g, positions, context);
    forall t | t in order' && t !in LiveTickets(positions)
      ensures Derived(CLOSE, t, Gone) in g.nonces
    {
      PollIsPointwise(f, positions, order, context, t);
      LiveAtMeaning(positions, t);
      TicketPollAgain(f.strategy, StateOf(f, t), t, None, context);
      assert t in KnownPositions(g);
      assert Derived(CLOSE, t, Gone) in StateOf(g, t).claimed;
    }
    QuietVanishedPass(g, PollLive(g, KnownPositions(g), positions, context, true).1, order', LiveTickets(positions),
                      context);
  }

  lemma {:induction false} LiveAtUnique(positions: seq<LivePosition>, p: LivePosition)
    requires DistinctPositions(positions) && p in positions
    ensures LiveAt(positions, p.ticket) == Some(p)
  {
    var before, last := positions[..|positions| - 1], positions[|positions| - 1];
    if p != last {
      assert p in before;
      LiveAtUnique(before, p);
      var i :| 0 <= i < |before| && before[i] == p;
      assert positions[i] == p;
    }
  }
}
