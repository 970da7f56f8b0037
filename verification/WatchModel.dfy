/**
 * Turning a master account's live positions into events
 * (src/services/master-watch.service.ts).
 */
module WatchModel {
  import opened Common
  import opened TradeTypes
  import opened MockBroker
  import opened FeedModel

  /** An open position of the master, as its broker reports it. */
  datatype LivePosition = LivePosition(
    ticket: Ticket,
    symbol: Symbol,
    orderType: OrderType,
    volume: nat,
    openPrice: int,
    currentPrice: int,
    sl: Option<int>,
    tp: Option<int>)

  datatype Change = Change(
    eventType: EventType,
    ticket: Ticket,
    symbol: Symbol,
    orderType: OrderType,
    volume: nat,
    price: int,
    sl: Option<int>,
    tp: Option<int>,
    profit: Option<int>,
    detail: ChangeDetail)

  datatype WatchResult = WatchResult(
    baseline: bool,
    opens: nat,
    modified: nat,
    partiallyClosed: nat,
    closed: nat,
    skipped: nat)

  const EMPTY := WatchResult(false, 0, 0, 0, 0, 0)

  /** Price differences up to one unit of 1e-5 are not a stop change. */
  const PRICE_EPSILON: int := 1

  /** What one position calls for, given what was recorded about it. */
  datatype Finding = ToPublish(change: Change) | VolumeRose | Unchanged

  /**
   * What does not change during one poll: whether the strategy is active, its
   * balance, and the broker's close records.
   */
  datatype PollContext = PollContext(active: bool, balance: Option<int>, closes: map<Ticket, CloseRecord>)

  predicate IsOpen(trade: MasterTrade) {
    trade.status == OPENED || trade.status == PARTIALLY_CLOSED
  }

  function KnownPositions(f: Feed): map<Ticket, MasterTrade> {
    map t | t in f.trades && IsOpen(f.trades[t]) :: f.trades[t]
  }

  predicate StopsDiffer(trade: MasterTrade, p: LivePosition) {
    || Abs(trade.sl.GetOr(0) - p.sl.GetOr(0)) > PRICE_EPSILON
    || Abs(trade.tp.GetOr(0) - p.tp.GetOr(0)) > PRICE_EPSILON
  }

  function FindingFor(previous: Option<MasterTrade>, p: LivePosition): Finding {
    match previous
    case None =>
      ToPublish(Change(OPEN, p.ticket, p.symbol, p.orderType, p.volume, p.openPrice, p.sl, p.tp, None,
                       OpenedAt(p.volume, p.openPrice)))
    case Some(trade) =>
      if trade.volume > p.volume then
        ToPublish(Change(PARTIAL_CLOSE, p.ticket, p.symbol, p.orderType, trade.volume - p.volume, p.currentPrice,
                         p.sl, p.tp, None, VolumeChange(trade.volume, p.volume)))
      else if p.volume > trade.volume then
        VolumeRose
      else if StopsDiffer(trade, p) then
        ToPublish(Change(MODIFY, p.ticket, p.symbol, p.orderType, p.volume, p.currentPrice, p.sl, p.tp, None,
                         Stops(p.sl.GetOr(0), p.tp.GetOr(0))))
      else
        Unchanged
  }

  function CloseChange(t: Ticket, trade: MasterTrade, record: Option<CloseRecord>): Change {
    Change(CLOSE, t, trade.symbol, trade.orderType, trade.volume,
           if record.Some? then record.value.closePrice else 0, None, None,
           if record.Some? then Some(record.value.profit) else None, Gone)
  }

  function InputFor(change: Change, balance: Option<int>): MasterInput {
    MasterInput(Derived(change.eventType, change.ticket, change.detail), change.eventType, change.ticket, change.symbol,
                change.orderType, change.volume, change.price, change.sl, change.tp, change.profit, balance)
  }

  /** Publishes one change; true when it was accepted rather than a duplicate or refused. */
  function Publish(f: Feed, context: PollContext, change: Change, nonceUp: bool): (Feed, bool) {
    var (g, status) := Ingest(f, context.active, InputFor(change, context.balance), nonceUp);
    (g, status == QUEUED)
  }

  function Count(r: WatchResult, eventType: EventType, published: bool): WatchResult {
    if !published then r
    else match eventType
      case OPEN => r.(opens := r.opens + 1)
      case PARTIAL_CLOSE => r.(partiallyClosed := r.partiallyClosed + 1)
      case MODIFY => r.(modified := r.modified + 1)
      case CLOSE => r.(closed := r.closed + 1)
      case _ => r
  }

  function PollPosition(f: Feed, r: WatchResult, known: map<Ticket, MasterTrade>, p: LivePosition, context: PollContext,
                        nonceUp: bool): (Feed, WatchResult)
  {
    match FindingFor(if p.ticket in known then Some(known[p.ticket]) else None, p)
    case ToPublish(change) =>
      var (g, published) := Publish(f, context, change, nonceUp);
      (g, Count(r, change.eventType, published))
    case VolumeRose => (f, r.(skipped := r.skipped + 1))
    case Unchanged => (f, r)
  }

  function PollLive(f: Feed, known: map<Ticket, MasterTrade>, positions: seq<LivePosition>, context: PollContext,
                    nonceUp: bool): (Feed, WatchResult)
  {
    if positions == [] then
      (f, EMPTY)
    else
      var (g, r) := PollLive(f, known, positions[..|positions| - 1], context, nonceUp);
      PollPosition(g, r, known, positions[|positions| - 1], context, nonceUp)
  }

  function LiveTickets(positions: seq<LivePosition>): set<Ticket> {
    set p | p in positions :: p.ticket
  }

  /** The second pass, over the known trades in the order the query returned them. */
  function PollVanished(f: Feed, r: WatchResult, known: map<Ticket, MasterTrade>, order: seq<Ticket>, live: set<Ticket>,
                        context: PollContext, nonceUp: bool): (Feed, WatchResult)
    requires forall t :: t in order ==> t in known
  {
    if order == [] then
      (f, r)
    else
      var t := order[|order| - 1];
      var (g, r1) := PollVanished(f, r, known, order[..|order| - 1], live, context, nonceUp);
      if t in live then
        (g, r1)
      else
        var record := if t in context.closes then Some(context.closes[t]) else None;
        var (h, published) := Publish(g, context, CloseChange(t, known[t], record), nonceUp);
        (h, Count(r1, CLOSE, published))
  }

  /** `order` lists the known open trades, each once. */
  ghost predicate Lists(order: seq<Ticket>, known: map<Ticket, MasterTrade>) {
    && (forall t :: t in order <==> t in known)
    && forall i, j :: 0 <= i < j < |order| ==> order[i] != order[j]
  }

  ghost predicate DistinctPositions(positions: seq<LivePosition>) {
    forall i, j :: 0 <= i < j < |positions| ==> positions[i].ticket != positions[j].ticket
  }

  ghost function Poll(f: Feed, positions: seq<LivePosition>, order: seq<Ticket>, context: PollContext,
                      nonceUp: bool): (Feed, WatchResult)
    requires Lists(order, KnownPositions(f))
  {
    var known := KnownPositions(f);
    var (g, r) := PollLive(f, known, positions, context, nonceUp);
    PollVanished(g, r, known, order, LiveTickets(positions), context, nonceUp)
  }

  /** The first poll records what is open without publishing any of it. */
  function Baseline(f: Feed, positions: seq<LivePosition>): Feed {
    if positions == [] then f
    else
      var g := Baseline(f, positions[..|positions| - 1]);
      var p := positions[|positions| - 1];
      if p.ticket in g.trades then g
      else g.(trades := g.trades[p.ticket :=
             MasterTrade(p.symbol, p.orderType, p.volume, p.openPrice, p.sl, p.tp, OPENED, None, None)])
  }
}
