/**
 * What one poll publishes and records about a position, told on the position
 * and the log (src/services/master-watch.service.ts).
 */
module WatchEvents {
  import opened Common
  import opened TradeTypes
  import opened FeedModel
  import opened WatchModel
  import opened WatchTheorems

  /** The log gains exactly `event` about its ticket, and its id is used up. */
  ghost predicate Publishes(s: TicketState, s': TicketState, event: TradeEvent) {
    s'.log == s.log + [event] && s'.claimed == s.claimed + {event.eventId}
  }

  lemma TicketOpened(strategy: StrategyId, s: TicketState, p: LivePosition, context: PollContext)
    requires Known(s).None? && Derived(OPEN, p.ticket, OpenedAt(p.volume, p.openPrice)) !in s.claimed
    ensures var s' := TicketPoll(strategy, s, p.ticket, Some(p), context);
            && Publishes(s, s', TradeEvent(Derived(OPEN, p.ticket, OpenedAt(p.volume, p.openPrice)), strategy, OPEN,
                                           p.ticket, p.symbol, p.orderType, p.volume, p.openPrice, p.sl, p.tp,
                                           context.balance, None))
            && (s.trade.None? ==>
                  s'.trade == Some(MasterTrade(p.symbol, p.orderType, p.volume, p.openPrice, p.sl, p.tp, OPENED,
                                               None, None)))
  {
  }

  lemma TicketReduced(strategy: StrategyId, s: TicketState, p: LivePosition, context: PollContext)
    requires Known(s).Some? && p.volume < s.trade.value.volume
    requires Derived(PARTIAL_CLOSE, p.ticket, VolumeChange(s.trade.value.volume, p.volume)) !in s.claimed
    ensures var s' := TicketPoll(strategy, s, p.ticket, Some(p), context);
            var was := s.trade.value;
            && |s'.log| == |s.log| + 1
            && s'.log[|s.log|].closeFraction.Some?
            && IsNearest(s'.log[|s.log|].closeFraction.value, (was.volume - p.volume) * WHOLE, was.volume)
            && Publishes(s, s', TradeEvent(Derived(PARTIAL_CLOSE, p.ticket, VolumeChange(was.volume, p.volume)),
                                           strategy, PARTIAL_CLOSE, p.ticket, p.symbol, p.orderType,
                                           was.volume - p.volume, p.currentPrice, p.sl, p.tp, context.balance,
                                           s'.log[|s.log|].closeFraction))
            && s'.trade == Some(was.(volume := p.volume, sl := p.sl, tp := p.tp, status := PARTIALLY_CLOSED))
  {
    var was := s.trade.value;
    FractionIsNearest(was.volume, was.volume - p.volume);
  }

  lemma FractionIsNearest(open: nat, part: nat)
    requires 0 < part <= open
    ensures IsNearest(CloseFraction(open, part), part * WHOLE, open)
  {
  }

  lemma TicketModified(strategy: StrategyId, s: TicketState, p: LivePosition, context: PollContext)
    requires Known(s).Some? && p.volume == s.trade.value.volume && StopsDiffer(s.trade.value, p)
    requires Derived(MODIFY, p.ticket, Stops(p.sl.GetOr(0), p.tp.GetOr(0))) !in s.claimed
    ensures var s' := TicketPoll(strategy, s, p.ticket, Some(p), context);
            && Publishes(s, s', TradeEvent(Derived(MODIFY, p.ticket, Stops(p.sl.GetOr(0), p.tp.GetOr(0))), strategy,
                                           MODIFY, p.ticket, p.symbol, p.orderType, p.volume, p.currentPrice,
                                           p.sl, p.tp, context.balance, None))
            && s'.trade == Some(s.trade.value.(sl := p.sl, tp := p.tp))
  {
  }

  lemma TicketClosed(strategy: StrategyId, s: TicketState, t: Ticket, context: PollContext)
    requires Known(s).Some? && Derived(CLOSE, t, Gone) !in s.claimed
    ensures var s' := TicketPoll(strategy, s, t, None, context);
            var was := s.trade.value;
            var price := if t in context.closes then context.closes[t].closePrice else 0;
            && Publishes(s, s', TradeEvent(Derived(CLOSE, t, Gone), strategy, CLOSE, t, was.symbol, was.orderType,
                                           was.volume, price, None, None, context.balance, None))
            && s'.trade == Some(was.(sl := None, tp := None, status := CLOSED, closePrice := Some(price),
                                     profit := if t in context.closes then Some(context.closes[t].profit)
                                               else was.profit))
  {
  }

  // ---- The same of a whole poll --------------------------------------------

  /** The strategy's record has an open trade on this ticket. */
  predicate OnRecord(f: Feed, t: Ticket) {
    t in f.trades && f.trades[t].status in {OPENED, PARTIALLY_CLOSED}
  }

  /** What is stored about a ticket after the poll: one more event, and this trade. */
  ghost predicate Announces(f: Feed, g: Feed, event: TradeEvent) {
    LogOf(g.events, event.ticket) == LogOf(f.events, event.ticket) + [event]
  }

  /** A position with no open record is announced as opened, at its opening price, and recorded as it is. */
  lemma PollAnnouncesOpen(f: Feed, positions: seq<LivePosition>, order: seq<Ticket>, context: PollContext,
                          p: LivePosition)
    requires EventsClaimed(f) && DistinctPositions(positions) && Lists(order, KnownPositions(f))
    requires p in positions && !OnRecord(f, p.ticket)
    requires Derived(OPEN, p.ticket, OpenedAt(p.volume, p.openPrice)) !in f.nonces
    ensures var g := Poll(f, positions, order, context, true).0;
            && Announces(f, g, TradeEvent(Derived(OPEN, p.ticket, OpenedAt(p.volume, p.openPrice)), f.strategy, OPEN,
                                          p.ticket, p.symbol, p.orderType, p.volume, p.openPrice, p.sl, p.tp,
                                          context.balance, None))
            && (p.ticket !in f.trades ==>
                  TradeOf(g, p.ticket) == Some(MasterTrade(p.symbol, p.orderType, p.volume, p.openPrice, p.sl, p.tp,
                                                           OPENED, None, None)))
  {
    PollIsPointwise(f, positions, order, context, p.ticket);
    LiveAtUnique(positions, p);
    TicketOpened(f.strategy, StateOf(f, p.ticket), p, context);
  }

  /** Every new position of the snapshot is announced as opened at its opening price. */
  ghost predicate OpensAnnounced(f: Feed, g: Feed, positions: seq<LivePosition>, context: PollContext) {
    forall p :: p in positions && !OnRecord(f, p.ticket)
                && Derived(OPEN, p.ticket, OpenedAt(p.volume, p.openPrice)) !in f.nonces
                ==> Announces(f, g, TradeEvent(Derived(OPEN, p.ticket, OpenedAt(p.volume, p.openPrice)), f.strategy,
                                               OPEN, p.ticket, p.symbol, p.orderType, p.volume, p.openPrice, p.sl,
                                               p.tp, context.balance, None))
  }

  lemma PollAnnouncesOpens(f: Feed, positions: seq<LivePosition>, order: seq<Ticket>, context: PollContext)
    requires EventsClaimed(f) && DistinctPositions(positions) && Lists(order, KnownPositions(f))
    ensures OpensAnnounced(f, Poll(f, positions, order, context, true).0, positions, context)
  {
    forall p | p in positions && !OnRecord(f, p.ticket)
               && Derived(OPEN, p.ticket, OpenedAt(p.volume, p.openPrice)) !in f.nonces
      ensures Announces(f, Poll(f, positions, order, context, true).0,
                        TradeEvent(Derived(OPEN, p.ticket, OpenedAt(p.volume, p.openPrice)), f.strategy, OPEN,
                                   p.ticket, p.symbol, p.orderType, p.volume, p.openPrice, p.sl, p.tp,
                                   context.balance, None))
    {
      PollAnnouncesOpen(f, positions, order, context, p);
    }
  }

  /** A smaller position is announced with the part that is gone and its share of the recorded volume. */
  lemma PollAnnouncesPartialClose(f: Feed, positions: seq<LivePosition>, order: seq<Ticket>, context: PollContext,
                                  p: LivePosition)
    returns (fraction: nat)
    requires EventsClaimed(f) && DistinctPositions(positions) && Lists(order, KnownPositions(f))
    requires p in positions && OnRecord(f, p.ticket) && p.volume < f.trades[p.ticket].volume
    requires Derived(PARTIAL_CLOSE, p.ticket, VolumeChange(f.trades[p.ticket].volume, p.volume)) !in f.nonces
    ensures IsNearest(fraction, (f.trades[p.ticket].volume - p.volume) * WHOLE, f.trades[p.ticket].volume)
    ensures var g := Poll(f, positions, order, context, true).0;
            var was := f.trades[p.ticket];
            && Announces(f, g, TradeEvent(Derived(PARTIAL_CLOSE, p.ticket, VolumeChange(was.volume, p.volume)),
                                          f.strategy, PARTIAL_CLOSE, p.ticket, p.symbol, p.orderType,
                                          was.volume - p.volume, p.currentPrice, p.sl, p.tp, context.balance,
                                          Some(fraction)))
            && TradeOf(g, p.ticket)
               == Some(was.(volume := p.volume, sl := p.sl, tp := p.tp, status := PARTIALLY_CLOSED))
  {
    PollIsPointwise(f, positions, order, context, p.ticket);
    LiveAtUnique(positions, p);
    var s := StateOf(f, p.ticket);
    TicketReduced(f.strategy, s, p, context);
    fraction := TicketPoll(f.strategy, s, p.ticket, Some(p), context).log[|s.log|].closeFraction.value;
  }

  /** A stop moved by more than the tolerance of 1e-5, an absent one counting as 0. */
  predicate StopMoved(was: Option<int>, now: Option<int>) {
    Abs(was.GetOr(0) - now.GetOr(0)) > 1
  }

  /** Other stops at the same volume are announced at the current price, and recorded. */
  lemma PollAnnouncesModify(f: Feed, positions: seq<LivePosition>, order: seq<Ticket>, context: PollContext,
                            p: LivePosition)
    requires EventsClaimed(f) && DistinctPositions(positions) && Lists(order, KnownPositions(f))
    requires p in positions && OnRecord(f, p.ticket) && p.volume == f.trades[p.ticket].volume
    requires StopMoved(f.trades[p.ticket].sl, p.sl) || StopMoved(f.trades[p.ticket].tp, p.tp)
    requires Derived(MODIFY, p.ticket, Stops(p.sl.GetOr(0), p.tp.GetOr(0))) !in f.nonces
    ensures var g := Poll(f, positions, order, context, true).0;
            && Announces(f, g, TradeEvent(Derived(MODIFY, p.ticket, Stops(p.sl.GetOr(0), p.tp.GetOr(0))), f.strategy,
                                          MODIFY, p.ticket, p.symbol, p.orderType, p.volume, p.currentPrice,
                                          p.sl, p.tp, context.balance, None))
            && TradeOf(g, p.ticket) == Some(f.trades[p.ticket].(sl := p.sl, tp := p.tp))
  {
    PollIsPointwise(f, positions, order, context, p.ticket);
    LiveAtUnique(positions, p);
    TicketModified(f.strategy, StateOf(f, p.ticket), p, context);
  }

  /** A position as recorded, or larger, is not announced and its record stays. */
  lemma PollIsSilent(f: Feed, positions: seq<LivePosition>, order: seq<Ticket>, context: PollContext, p: LivePosition)
    requires EventsClaimed(f) && DistinctPositions(positions) && Lists(order, KnownPositions(f))
    requires p in positions && OnRecord(f, p.ticket)
    requires p.volume > f.trades[p.ticket].volume
             || (p.volume == f.trades[p.ticket].volume && !StopMoved(f.trades[p.ticket].sl, p.sl)
                 && !StopMoved(f.trades[p.ticket].tp, p.tp))
    ensures StateOf(Poll(f, positions, order, context, true).0, p.ticket) == StateOf(f, p.ticket)
  {
    PollIsPointwise(f, positions, order, context, p.ticket);
    LiveAtUnique(positions, p);
  }

  /**
   * A recorded trade the broker no longer reports is announced as closed, with
   * what is recorded of it and the broker's closing price, or 0 without one.
   */
  lemma PollAnnouncesClose(f: Feed, positions: seq<LivePosition>, order: seq<Ticket>, context: PollContext, t: Ticket)
    requires EventsClaimed(f) && DistinctPositions(positions) && Lists(order, KnownPositions(f))
    requires OnRecord(f, t) && t !in LiveTickets(positions) && Derived(CLOSE, t, Gone) !in f.nonces
    ensures var g := Poll(f, positions, order, context, true).0;
            var was := f.trades[t];
            var price := if t in context.closes then context.closes[t].closePrice else 0;
            && Announces(f, g, TradeEvent(Derived(CLOSE, t, Gone), f.strategy, CLOSE, t, was.symbol, was.orderType,
                                          was.volume, price, None, None, context.balance, None))
            && TradeOf(g, t)
               == Some(was.(sl := None, tp := None, status := CLOSED, closePrice := Some(price),
                            profit := if t in context.closes then Some(context.closes[t].profit) else was.profit))
  {
    PollIsPointwise(f, positions, order, context, t);
    LiveAtMeaning(positions, t);
    TicketClosed(f.strategy, StateOf(f, t), t, context);
  }

  // ---- The baseline --------------------------------------------------------

  /** The first poll records every position as it is and leaves what is on record alone. */
  lemma {:induction false} BaselineRecords(f: Feed, positions: seq<LivePosition>, t: Ticket)
    requires DistinctPositions(positions)
    ensures var g := Baseline(f, positions);
            && g == f.(trades := g.trades)
            && TradeOf(g, t) ==
               if t in f.trades || LiveAt(positions, t).None? then TradeOf(f, t)
               else var p := LiveAt(positions, t).value;
                    Some(MasterTrade(p.symbol, p.orderType, p.volume, p.openPrice, p.sl, p.tp, OPENED, None, None))
  {
    if positions != [] {
      var before, last := positions[..|positions| - 1], positions[|positions| - 1];
      BaselineRecords(f, before, t);
      LiveAtMeaning(before, t);
      assert last.ticket == t ==> LiveAt(before, t).None?;
    }
  }

  // ---- Every published event gets a job ------------------------------------

  /** Every stored event waits for, or went to, the copy engine. */
  ghost predicate AllQueued(f: Feed) {
    forall i :: 0 <= i < |f.events| ==> f.events[i].eventId in f.jobs
  }

  /** An active strategy queues a job for each event it stores, and for nothing else. */
  lemma IngestQueues(f: Feed, input: MasterInput, nonceUp: bool)
    requires AllQueued(f)
    ensures var (g, status) := Ingest(f, true, input, nonceUp);
            && AllQueued(g)
            && f.events <= g.events && |g.events| <= |f.events| + 1
            && g.jobs == f.jobs + (if |g.events| > |f.events| then {input.eventId} else {})
            && (status == QUEUED <==> |g.events| > |f.events|)
  {
  }

  lemma {:induction false} LivePassQueues(f: Feed, known: map<Ticket, MasterTrade>, positions: seq<LivePosition>,
                                          context: PollContext, nonceUp: bool)
    requires AllQueued(f) && context.active
    ensures AllQueued(PollLive(f, known, positions, context, nonceUp).0)
  {
    if positions != [] {
      var p := positions[|positions| - 1];
      LivePassQueues(f, known, positions[..|positions| - 1], context, nonceUp);
      var g := PollLive(f, known, positions[..|positions| - 1], context, nonceUp).0;
      match FindingFor(if p.ticket in known then Some(known[p.ticket]) else None, p) {
        case ToPublish(change) => IngestQueues(g, InputFor(change, context.balance), nonceUp);
        case VolumeRose =>
        case Unchanged =>
      }
    }
  }

  lemma {:induction false} VanishedPassQueues(f: Feed, r: WatchResult, known: map<Ticket, MasterTrade>,
                                              order: seq<Ticket>, live: set<Ticket>, context: PollContext,
                                              nonceUp: bool)
    requires forall t :: t in order ==> t in known
    requires AllQueued(f) && context.active
    ensures AllQueued(PollVanished(f, r, known, order, live, context, nonceUp).0)
  {
    if order != [] {
      var t := order[|order| - 1];
      VanishedPassQueues(f, r, known, order[..|order| - 1], live, context, nonceUp);
      var g := PollVanished(f, r, known, order[..|order| - 1], live, context, nonceUp).0;
      if t !in live {
        var record := if t in context.closes then Some(context.closes[t]) else None;
        IngestQueues(g, InputFor(CloseChange(t, known[t], record), context.balance), nonceUp);
      }
    }
  }

  /** Whatever a poll publishes for an active strategy is queued for copying. */
  lemma PollQueues(f: Feed, positions: seq<LivePosition>, order: seq<Ticket>, context: PollContext, nonceUp: bool)
    requires AllQueued(f) && context.active && Lists(order, KnownPositions(f))
    ensures AllQueued(Poll(f, positions, order, context, nonceUp).0)
  {
    var (g, r) := PollLive(f, KnownPositions(f), positions, context, nonceUp);
    LivePassQueues(f, KnownPositions(f), positions, context, nonceUp);
    VanishedPassQueues(g, r, KnownPositions(f), order, LiveTickets(positions), context, nonceUp);
  }

  // ---- What the counters say -----------------------------------------------

  ghost function OfKind(events: seq<TradeEvent>, kind: EventType): nat {
    if events == [] then 0
    else OfKind(events[..|events| - 1], kind) + (if events[|events| - 1].eventType == kind then 1 else 0)
  }

  ghost function Counter(r: WatchResult, kind: EventType): nat {
    match kind
    case OPEN => r.opens
    case MODIFY => r.modified
    case PARTIAL_CLOSE => r.partiallyClosed
    case CLOSE => r.closed
    case _ => 0
  }

  lemma PublishCounts(f: Feed, r: WatchResult, context: PollContext, change: Change, nonceUp: bool, kind: EventType)
    requires context.active && change.eventType in {OPEN, MODIFY, PARTIAL_CLOSE, CLOSE}
    ensures var (g, published) := Publish(f, context, change, nonceUp);
            OfKind(g.events, kind) - OfKind(f.events, kind)
            == Counter(Count(r, change.eventType, published), kind) - Counter(r, kind)
  {
    var input := InputFor(change, context.balance);
    IngestReports(f, true, input, nonceUp);
    var g := Publish(f, context, change, nonceUp).0;
    assert |g.events| > |f.events| ==> g.events == f.events + [g.events[|f.events|]];
  }

  lemma {:induction false} LivePassCounts(f: Feed, known: map<Ticket, MasterTrade>, positions: seq<LivePosition>,
                                          context: PollContext, nonceUp: bool, kind: EventType)
    requires context.active
    ensures var (g, r) := PollLive(f, known, positions, context, nonceUp);
            OfKind(g.events, kind) == OfKind(f.events, kind) + Counter(r, kind)
  {
    if positions != [] {
      var p := positions[|positions| - 1];
      LivePassCounts(f, known, positions[..|positions| - 1], context, nonceUp, kind);
      var (g, r) := PollLive(f, known, positions[..|positions| - 1], context, nonceUp);
      match FindingFor(if p.ticket in known then Some(known[p.ticket]) else None, p) {
        case ToPublish(change) => PublishCounts(g, r, context, change, nonceUp, kind);
        case VolumeRose =>
        case Unchanged =>
      }
    }
  }

  lemma {:induction false} VanishedPassCounts(f: Feed, r: WatchResult, known: map<Ticket, MasterTrade>,
                                              order: seq<Ticket>, live: set<Ticket>, context: PollContext,
                                              nonceUp: bool, kind: EventType)
    requires forall t :: t in order ==> t in known
    requires context.active
    ensures var (g, r') := PollVanished(f, r, known, order, live, context, nonceUp);
            OfKind(g.events, kind) - OfKind(f.events, kind) == Counter(r', kind) - Counter(r, kind)
  {
    if order != [] {
      var t := order[|order| - 1];
      VanishedPassCounts(f, r, known, order[..|order| - 1], live, context, nonceUp, kind);
      var (g, r1) := PollVanished(f, r, known, order[..|order| - 1], live, context, nonceUp);
      if t !in live {
        var record := if t in context.closes then Some(context.closes[t]) else None;
        PublishCounts(g, r1, context, CloseChange(t, known[t], record), nonceUp, kind);
      }
    }
  }

  /** For an active strategy a poll's counters are the numbers of events of each kind it added to the log. */
  lemma PollCounts(f: Feed, positions: seq<LivePosition>, order: seq<Ticket>, context: PollContext, nonceUp: bool,
                   kind: EventType)
    requires context.active && Lists(order, KnownPositions(f))
    ensures var (g, r) := Poll(f, positions, order, context, nonceUp);
            OfKind(g.events, kind) == OfKind(f.events, kind) + Counter(r, kind)
  {
    var (g, r) := PollLive(f, KnownPositions(f), positions, context, nonceUp);
    LivePassCounts(f, KnownPositions(f), positions, context, nonceUp, kind);
    VanishedPassCounts(g, r, KnownPositions(f), order, LiveTickets(positions), context, nonceUp, kind);
  }
}
