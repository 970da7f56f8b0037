/**
 * Recording master events (src/services/master-event.service.ts): replay
 * suppression, the close fraction, and the record of the master's trades.
 */
module FeedModel {
  import opened Common
  import opened TradeTypes

  datatype MasterTrade = MasterTrade(
    symbol: Symbol,
    orderType: OrderType,
    volume: nat,
    openPrice: int,
    sl: Option<int>,
    tp: Option<int>,
    status: PositionStatus,
    closePrice: Option<int>,
    profit: Option<int>)

  datatype MasterInput = MasterInput(
    eventId: EventId,
    eventType: EventType,
    ticket: Ticket,
    symbol: Symbol,
    orderType: OrderType,
    volume: nat,
    price: int,
    sl: Option<int>,
    tp: Option<int>,
    profit: Option<int>,
    masterBalance: Option<int>)

  /** One strategy's record: its trades, its events in order of arrival, claimed nonces and queued jobs. */
  datatype Feed = Feed(
    strategy: StrategyId,
    trades: map<Ticket, MasterTrade>,
    events: seq<TradeEvent>,
    nonces: set<EventId>,
    jobs: set<EventId>)

  datatype IngestStatus = QUEUED | DUPLICATE | IGNORED | THROWN

  function TradeOf(f: Feed, t: Ticket): Option<MasterTrade> {
    if t in f.trades then Some(f.trades[t]) else None
  }

  /** The closed share of the open volume, in millionths, as the column stores it. */
  function CloseFraction(open: nat, closed: nat): (fraction: nat)
    requires open > 0
    ensures fraction <= WHOLE
  {
    if closed >= open then
      WHOLE
    else
      RoundAtMost(closed * WHOLE, open, WHOLE);
      Round(closed * WHOLE, open)
  }

  predicate ReducesKnownTrade(existing: Option<MasterTrade>, input: MasterInput) {
    input.eventType == PARTIAL_CLOSE && existing.Some? && existing.value.volume > 0
  }

  function PatchedTrade(existing: Option<MasterTrade>, input: MasterInput): MasterTrade {
    match existing
    case None =>
      MasterTrade(input.symbol, input.orderType, input.volume, input.price, input.sl, input.tp,
                  if input.eventType == PENDING_ORDER then PENDING else OPENED, None, None)
    case Some(trade) =>
      var volume := if ReducesKnownTrade(existing, input) then Max(trade.volume - input.volume, 0) else input.volume;
      var patched := trade.(volume := volume, sl := input.sl, tp := input.tp);
      if input.eventType == CLOSE then
        patched.(status := CLOSED, closePrice := Some(input.price),
                 profit := if input.profit.Some? then input.profit else trade.profit)
      else if input.eventType == PARTIAL_CLOSE then
        patched.(status := PARTIALLY_CLOSED)
      else
        patched
  }

  function EventOf(strategy: StrategyId, existing: Option<MasterTrade>, input: MasterInput): TradeEvent {
    TradeEvent(input.eventId, strategy, input.eventType, input.ticket, input.symbol, input.orderType, input.volume,
               input.price, input.sl, input.tp, input.masterBalance,
               if ReducesKnownTrade(existing, input) then Some(CloseFraction(existing.value.volume, input.volume))
                   else None)
  }

  predicate HasEvent(events: seq<TradeEvent>, id: EventId) {
    exists i :: 0 <= i < |events| && events[i].eventId == id
  }

  /** The trade is patched before the unique insert is tried; the flag tells whether the insert went through. */
  function StoreEvent(f: Feed, input: MasterInput): (Feed, bool) {
    var existing := TradeOf(f, input.ticket);
    var patched := f.(trades := f.trades[input.ticket := PatchedTrade(existing, input)]);
    if HasEvent(f.events, input.eventId) then
      (patched, false)
    else
      (patched.(events := f.events + [EventOf(f.strategy, existing, input)]), true)
  }

  /** `active`: the strategy is active. `nonceUp`: the nonce store answers. */
  function Ingest(f: Feed, active: bool, input: MasterInput, nonceUp: bool): (Feed, IngestStatus) {
    if nonceUp && input.eventId in f.nonces then
      (f, DUPLICATE)
    else
      var claimed := if nonceUp then f.(nonces := f.nonces + {input.eventId}) else f;
      var (stored, inserted) := StoreEvent(claimed, input);
      if !active then
        (stored, if inserted then IGNORED else THROWN)
      else if inserted then
        (stored.(jobs := stored.jobs + {input.eventId}), QUEUED)
      else
        (stored, DUPLICATE)
  }

  // ---- What is stored ------------------------------------------------------

  /** The event as the master reported it; a partial close of a recorded volume carries its share of that volume. */
  predicate Reports(event: TradeEvent, input: MasterInput, existing: Option<MasterTrade>) {
    && event.eventId == input.eventId && event.eventType == input.eventType && event.ticket == input.ticket
    && event.symbol == input.symbol && event.orderType == input.orderType && event.volume == input.volume
    && event.price == input.price && event.sl == input.sl && event.tp == input.tp
    && event.masterBalance == input.masterBalance
    && if input.eventType == PARTIAL_CLOSE && existing.Some? && existing.value.volume > 0
       then event.closeFraction.Some? && IsNearest(event.closeFraction.value,
                                                   Min(input.volume, existing.value.volume) * WHOLE,
                                                   existing.value.volume)
       else event.closeFraction.None?
  }

  /** What ingesting any event leaves in the log: nothing new, or one more event that says what the master said. */
  lemma IngestReports(f: Feed, active: bool, input: MasterInput, nonceUp: bool)
    ensures var (g, status) := Ingest(f, active, input, nonceUp);
            var stored := (nonceUp ==> input.eventId !in f.nonces) && !HasEvent(f.events, input.eventId);
            && (status == QUEUED <==> active && stored)
            && (status == IGNORED <==> !active && stored)
            && (status == THROWN <==> !active && !stored && (nonceUp ==> input.eventId !in f.nonces))
            && g.jobs == f.jobs + (if active && stored then {input.eventId} else {})
            && if stored then
                 && |g.events| == |f.events| + 1 && g.events[..|f.events|] == f.events
                 && g.events[|f.events|].strategyId == f.strategy
                 && Reports(g.events[|f.events|], input, TradeOf(f, input.ticket))
               else
                 g.events == f.events
  {
  }

  /**
   * And in the record: a new ticket as reported; a known one with the reported
   * stops and volume (a partial close takes its volume off, down to nothing),
   * keeping what it was opened as.
   */
  lemma IngestRecords(f: Feed, active: bool, input: MasterInput, nonceUp: bool)
    requires Ingest(f, active, input, nonceUp).0.events != f.events
    ensures var trade := TradeOf(Ingest(f, active, input, nonceUp).0, input.ticket);
            && trade.Some? && trade.value.sl == input.sl && trade.value.tp == input.tp
            && match TradeOf(f, input.ticket)
               case None =>
                 && trade.value.symbol == input.symbol && trade.value.orderType == input.orderType
                 && trade.value.openPrice == input.price && trade.value.volume == input.volume
                 && trade.value.closePrice.None? && trade.value.profit.None?
                 && trade.value.status in {PENDING, OPENED}
                 && (trade.value.status == PENDING <==> input.eventType == PENDING_ORDER)
               case Some(was) =>
                 && trade.value.symbol == was.symbol && trade.value.orderType == was.orderType
                 && trade.value.openPrice == was.openPrice
                 && (if input.eventType == PARTIAL_CLOSE && was.volume > 0
                     then trade.value.volume + Min(input.volume, was.volume) == was.volume
                     else trade.value.volume == input.volume)
                 && (if input.eventType == CLOSE
                     then trade.value.status == CLOSED && trade.value.closePrice == Some(input.price)
                          && trade.value.profit in {input.profit, was.profit}
                          && (input.profit.Some? ==> trade.value.profit == input.profit)
                     else trade.value.closePrice == was.closePrice && trade.value.profit == was.profit)
                 && (input.eventType == PARTIAL_CLOSE ==> trade.value.status == PARTIALLY_CLOSED)
                 && (input.eventType !in {CLOSE, PARTIAL_CLOSE} ==> trade.value.status == was.status)
  {
  }

  // ---- Replay --------------------------------------------------------------

  datatype Delivery = Delivery(active: bool, input: MasterInput)

  function IngestAll(f: Feed, deliveries: seq<Delivery>): Feed {
    if deliveries == [] then f
    else
      var last := deliveries[|deliveries| - 1];
      Ingest(IngestAll(f, deliveries[..|deliveries| - 1]), last.active, last.input, true).0
  }

  predicate Delivered(deliveries: seq<Delivery>, id: EventId) {
    exists i :: 0 <= i < |deliveries| && deliveries[i].input.eventId == id
  }

  /** The first delivery of each event id, in order. */
  function FirstDeliveries(deliveries: seq<Delivery>): seq<Delivery> {
    if deliveries == [] then []
    else
      var before, last := deliveries[..|deliveries| - 1], deliveries[|deliveries| - 1];
      FirstDeliveries(before) + (if Delivered(before, last.input.eventId) then [] else [last])
  }

  lemma {:induction false} DeliveredIsClaimed(f: Feed, deliveries: seq<Delivery>, id: EventId)
    requires Delivered(deliveries, id)
    ensures id in IngestAll(f, deliveries).nonces
  {
    var before, last := deliveries[..|deliveries| - 1], deliveries[|deliveries| - 1];
    if last.input.eventId != id {
      var i :| 0 <= i < |deliveries| && deliveries[i].input.eventId == id;
      assert before[i].input.eventId == id;
      DeliveredIsClaimed(f, before, id);
    }
  }

  /**
   * While the nonce store answers, any delivery sequence with repetitions
   * leaves exactly the trades, events, nonces and jobs that the first delivery
   * of each event leaves.
   */
  lemma {:induction false} ReplayIsNoOp(f: Feed, deliveries: seq<Delivery>)
    ensures IngestAll(f, deliveries) == IngestAll(f, FirstDeliveries(deliveries))
  {
    if deliveries != [] {
      var before, last := deliveries[..|deliveries| - 1], deliveries[|deliveries| - 1];
      ReplayIsNoOp(f, before);
      if Delivered(before, last.input.eventId) {
        DeliveredIsClaimed(f, before, last.input.eventId);
        assert FirstDeliveries(deliveries) == FirstDeliveries(before);
      } else {
        var firsts := FirstDeliveries(before);
        assert (firsts + [last])[..|firsts|] == firsts;
      }
    }
  }

  /** What a redelivery would write is what the record already says. */
  predicate AlreadyRecorded(existing: Option<MasterTrade>, input: MasterInput) {
    existing.Some? &&
    var trade := existing.value;
    && trade.sl == input.sl && trade.tp == input.tp
    && (if ReducesKnownTrade(existing, input) then input.volume == 0 else trade.volume == input.volume)
    && (input.eventType == PARTIAL_CLOSE ==> trade.status == PARTIALLY_CLOSED)
    && (input.eventType == CLOSE ==>
          trade.status == CLOSED && trade.closePrice == Some(input.price)
          && (input.profit.Some? ==> trade.profit == input.profit))
  }

  /**
   * Without the nonce store only the unique index is left, and it is tried
   * after the trade has been patched. Whatever has happened since, a
   * redelivery never adds an event or a job; it leaves the recorded trades
   * alone if and only if the record already says what it says.
   */
  lemma RedeliveryWithoutNonceIff(g: Feed, active: bool, input: MasterInput)
    requires HasEvent(g.events, input.eventId)
    ensures var (twice, status) := Ingest(g, active, input, false);
            && status == (if active then DUPLICATE else THROWN)
            && twice == g.(trades := twice.trades)
            && (twice.trades == g.trades <==> AlreadyRecorded(TradeOf(g, input.ticket), input))
  {
    var twice := Ingest(g, active, input, false).0;
    var t := input.ticket;
    assert twice.trades == g.trades[t := PatchedTrade(TradeOf(g, t), input)];
    assert twice.trades == g.trades <==> t in g.trades && twice.trades[t] == g.trades[t];
  }

  /**
   * Straight after the first delivery, that is every event but a partial close
   * and the close of a ticket that was never recorded.
   */
  lemma ImmediateRedeliveryIff(f: Feed, input: MasterInput, nonceUp: bool)
    requires input.volume > 0
    requires Ingest(f, true, input, nonceUp).1 == QUEUED
    ensures var once := Ingest(f, true, input, nonceUp).0;
            var (twice, status) := Ingest(once, true, input, false);
            && status == DUPLICATE
            && twice == once.(trades := twice.trades)
            && (twice.trades == once.trades <==>
                  input.eventType != PARTIAL_CLOSE && (input.eventType == CLOSE ==> input.ticket in f.trades))
  {
    var once := Ingest(f, true, input, nonceUp).0;
    assert once.events[|once.events| - 1].eventId == input.eventId;
    RedeliveryWithoutNonceIff(once, true, input);
  }

  /**
   * OPEN, PARTIAL_CLOSE, and the OPEN delivered again: the recorded volume is
   * back at its full size, and the next close fraction is taken against it.
   */
  lemma RedeliveredOpenRestoresVolume(f: Feed, open: MasterInput, part: MasterInput)
    requires open.eventType == OPEN && part.eventType == PARTIAL_CLOSE && open.ticket == part.ticket
    requires open.ticket !in f.trades && open.eventId != part.eventId && 0 < part.volume < open.volume
    requires !HasEvent(f.events, open.eventId) && !HasEvent(f.events, part.eventId)
    ensures var started := Ingest(f, true, open, false).0;
            var reduced := Ingest(started, true, part, false).0;
            var (again, status) := Ingest(reduced, true, open, false);
            && reduced.trades[open.ticket].volume == open.volume - part.volume
            && status == DUPLICATE && again.trades[open.ticket].volume == open.volume
  {
    var started := Ingest(f, true, open, false).0;
    var reduced := Ingest(started, true, part, false).0;
    assert started.events[|f.events|].eventId == open.eventId;
    assert !HasEvent(started.events, part.eventId);
    assert reduced.events[|f.events|].eventId == open.eventId;
  }
}
