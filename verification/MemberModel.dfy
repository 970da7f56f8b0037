/**
 * What the platform stores about one member account, and what copying one
 * master event does to it and to its broker account
 * (src/services/copy-engine.service.ts). Table rows unique per
 * (eventId, accountId) and per (accountId, masterTicket) are kept per account,
 * keyed by the other half.
 */
module MemberModel {
  import opened Common
  import opened TradeTypes
  import opened LotCalculator
  import opened RiskEngine
  import opened MockBroker

  datatype CopySettings = CopySettings(
    lotMode: LotMode,
    fixedLot: int,
    multiplier: int,
    balanceRatio: int,
    riskPercent: int,
    minLot: int,
    maxLot: int,
    allowMinLotRounding: bool,
    copyBuy: bool,
    copySell: bool,
    copySl: bool,
    copyTp: bool,
    copyPendingOrders: bool,
    maxOpenTrades: int,
    allowedSymbols: seq<Symbol>)

  datatype RiskProfile = RiskProfile(
    maxDailyLoss: int,
    maxDailyLossPct: int,
    maxDrawdownPct: int,
    maxLotPerTrade: int,
    maxTotalLot: int,
    stopCopyOnBreach: bool)

  /** What a subscription without a risk profile is checked against: nothing. */
  const NO_LIMITS := RiskProfile(0, 0, 0, 0, 0, true)

  datatype Subscription = Subscription(
    id: SubscriptionId,
    accountId: AccountId,
    strategyId: StrategyId,
    active: bool,
    settings: Option<CopySettings>,
    risk: Option<RiskProfile>)

  datatype CopyStatus = UNFINISHED | SUCCESS | FAILED | SKIPPED

  datatype CopyTrade = CopyTrade(
    id: RowId,
    subscriptionId: SubscriptionId,
    eventType: EventType,
    masterTicket: Ticket,
    status: CopyStatus,
    memberTicket: Option<Ticket>,
    memberVolume: int,
    error: Option<ErrorCode>,
    attempts: nat)

  datatype Mapping = Mapping(
    subscriptionId: SubscriptionId,
    memberTicket: Ticket,
    ticketHistory: seq<Ticket>,
    symbol: Symbol,
    orderType: OrderType,
    volume: int,
    openPrice: int,
    status: PositionStatus,
    closePrice: Option<int>,
    profit: Option<int>,
    closeReason: Option<CloseReason>,
    openedAt: int,
    closedAt: Option<int>)

  datatype RiskState = RiskState(tradingDay: Day, dailyStartEquity: int, breached: bool)

  datatype Connection = DISCONNECTED | CONNECTED | ERROR

  datatype Member = Member(
    connection: Connection,
    balance: int,
    equity: int,
    peakEquity: int,
    brokerMinLot: int,
    brokerMaxLot: int,
    brokerLotStep: int,
    openTrades: int,
    rows: map<EventId, CopyTrade>,
    mappings: map<Ticket, Mapping>,
    risk: Option<RiskState>,
    copying: set<SubscriptionId>)

  /** The price of the traded symbol, the trading day and the time at which a step happens. */
  datatype Moment = Moment(price: int, today: Day, now: int)

  /** One copy: the new stored state and broker account, how it ended, and the order it sent, if any. */
  datatype CopyStep = CopyStep(member: Member, broker: Account, outcome: CopyStatus, sent: Option<OpenRequest>)

  // ---- Small updates -------------------------------------------------------

  function Finish(m: Member, e: EventId, status: CopyStatus, error: Option<ErrorCode>): Member
    requires e in m.rows
  {
    m.(rows := m.rows[e := m.rows[e].(status := status, error := error)])
  }

  function Skip(m: Member, b: Account, e: EventId, error: Option<ErrorCode>): CopyStep
    requires e in m.rows
  {
    CopyStep(Finish(m, e, SKIPPED, error), b, SKIPPED, None)
  }

  function RecordFill(m: Member, sub: Subscription, event: TradeEvent, symbol: Symbol,
                      ticket: Ticket, price: Option<int>, volume: int, now: int): Member
    requires event.eventId in m.rows
  {
    var e := event.eventId;
    var row := m.rows[e].(status := SUCCESS, memberTicket := Some(ticket), memberVolume := volume);
    m.(rows := m.rows[e := row],
       mappings := m.mappings[event.ticket := FilledMapping(m, sub, event, symbol, ticket, price, volume, now)],
       openTrades := m.openTrades + 1)
  }

  /** The upsert on (accountId, masterTicket): an existing row keeps its history and results. */
  function FilledMapping(m: Member, sub: Subscription, event: TradeEvent, symbol: Symbol,
                         ticket: Ticket, price: Option<int>, volume: int, now: int): Mapping
  {
    if event.ticket in m.mappings then
      m.mappings[event.ticket].(memberTicket := ticket, volume := volume, status := OPENED)
    else
      Mapping(sub.id, ticket, [], symbol, event.orderType, volume, price.GetOr(event.price), OPENED,
              None, None, None, now, None)
  }

  function TodaysRisk(m: Member, today: Day): RiskState {
    if m.risk.None? || m.risk.value.tradingDay != today then RiskState(today, m.equity, false) else m.risk.value
  }

  /** A breach pauses the subscription and is remembered for the account. */
  function PauseForBreach(m: Member, sub: SubscriptionId, today: Day): Member {
    m.(copying := m.copying - {sub},
       risk := Some(if m.risk.Some? then m.risk.value.(breached := true) else RiskState(today, 0, true)))
  }

  // ---- OPEN and PENDING_ORDER ----------------------------------------------

  function FindByComment(b: Account, row: RowId, from: Ticket): (r: Option<Ticket>)
    ensures r.Some? ==> IsLive(b, r.value) && b.positions[r.value].comment == row
    decreases b.nextTicket - from
  {
    if from >= b.nextTicket then None
    else if IsLive(b, from) && b.positions[from].comment == row then Some(from)
    else FindByComment(b, row, from + 1)
  }

  function CopyContractSize(symbol: Symbol): real {
    if symbol == "XAUUSD" then 100.0
    else if symbol == "XAGUSD" then 5000.0
    else if symbol in {"BTCUSD", "US30", "NAS100"} then 1.0
    else 100000.0
  }

  function LotInputsFor(m: Member, settings: CopySettings, event: TradeEvent, symbol: Symbol,
                        spec: SymbolSpec)
    : LotInputs
  {
    LotInputs(
      settings.lotMode,
      event.volume * 100,
      settings.fixedLot * 100,
      settings.multiplier as real / 10000.0,
      settings.balanceRatio as real / 10000.0,
      settings.riskPercent as real / 10000.0,
      settings.minLot * 100,
      settings.maxLot * 100,
      Max(m.brokerMinLot, spec.minLot) * 100,
      Min(m.brokerMaxLot, spec.maxLot) * 100,
      Max(m.brokerLotStep, spec.lotStep) * 100,
      settings.allowMinLotRounding,
      m.balance as real / 100.0,
      m.equity as real / 100.0,
      if event.masterBalance.Some? then Some(event.masterBalance.value as real / 100.0) else None,
      if event.sl.Some? then Some(Abs(event.price - event.sl.value) as real / 100000.0) else None,
      CopyContractSize(symbol))
  }

  /** Hundredths of a lot of an accepted size; exact, see `OrderVolumeIsExact`. */
  function OrderVolume(points: int): nat {
    Max(0, points / 100)
  }

  function RiskContextFor(m: Member, b: Account, settings: CopySettings, limits: RiskProfile, event: TradeEvent,
                          symbol: Symbol, volume: nat, state: RiskState): RiskContext
  {
    RiskContext(symbol, event.orderType, volume, settings.allowedSymbols, settings.copyBuy, settings.copySell,
                settings.copyPendingOrders, settings.maxOpenTrades, limits.maxDailyLoss, limits.maxDailyLossPct,
                limits.maxDrawdownPct, limits.maxLotPerTrade, limits.maxTotalLot,
                |LivePositions(b)|, VolumeOf(LivePositions(b), b.nextTicket),
                m.equity, m.peakEquity, state.dailyStartEquity, state.breached)
  }

  function RequestFor(settings: CopySettings, event: TradeEvent, symbol: Symbol, volume: nat, row: RowId): OpenRequest {
    OpenRequest(symbol, event.orderType, volume,
                if settings.copySl then event.sl else None,
                if settings.copyTp then event.tp else None,
                row)
  }

  function OpenForMember(m: Member, b: Account, sub: Subscription, event: TradeEvent, symbol: Symbol,
                         row: RowId, at: Moment): CopyStep
    requires event.eventId in m.rows
  {
    if sub.settings.None? then
      Skip(m, b, event.eventId, None)
    else
      var settings := sub.settings.value;
      var existing := FindByComment(b, row, 0);
      if existing.Some? then
        var p := b.positions[existing.value];
        CopyStep(RecordFill(m, sub, event, symbol, p.ticket, Some(p.openPrice), p.volume, at.now), b, SUCCESS, None)
      else
        var spec := GetSymbolSpec(b, symbol);
        if spec.None? || !spec.value.tradeAllowed then
          Skip(m, b, event.eventId, Some(INVALID_SYMBOL))
        else
          var lot := CalculateLot(LotInputsFor(m, settings, event, symbol, spec.value));
          if lot.Refused? then
            Skip(m, b, event.eventId, Some(ErrorCode.INVALID_VOLUME))
          else
            CheckAndSend(m, b, sub, settings, event, symbol, row, OrderVolume(lot.volume), at)
  }

  function CheckAndSend(m: Member, b: Account, sub: Subscription, settings: CopySettings, event: TradeEvent,
                        symbol: Symbol, row: RowId, volume: nat, at: Moment): CopyStep
    requires event.eventId in m.rows
  {
    var limits := sub.risk.GetOr(NO_LIMITS);
    var state := TodaysRisk(m, at.today);
    var m1 := m.(risk := Some(state));
    var decision := EvaluateRisk(RiskContextFor(m, b, settings, limits, event, symbol, volume, state));
    if decision.Denied? then
      var m2 := if decision.shouldPause && limits.stopCopyOnBreach then PauseForBreach(m1, sub.id, at.today) else m1;
      Skip(m2, b, event.eventId, Some(decision.code))
    else
      Send(m1, b, sub, event, symbol, RequestFor(settings, event, symbol, volume, row), at)
  }

  function Send(m: Member, b: Account, sub: Subscription, event: TradeEvent, symbol: Symbol,
                request: OpenRequest, at: Moment): CopyStep
    requires event.eventId in m.rows
  {
    var e := event.eventId;
    var (b1, result) := OpenPosition(b, request, at.price);
    var m1 := m.(rows := m.rows[e := m.rows[e].(attempts := m.rows[e].attempts + 1)]);
    match result
    case Rejected(error) =>
      var m2 := Finish(m1, e, FAILED, Some(error));
      CopyStep(m2.(rows := m2.rows[e := m2.rows[e].(memberVolume := request.volume)]), b1, FAILED, Some(request))
    case Executed(ticket, _, price, _) =>
      CopyStep(RecordFill(m1, sub, event, symbol, ticket, price, request.volume, at.now), b1, SUCCESS, Some(request))
  }

  // ---- MODIFY, CLOSE, PARTIAL_CLOSE, DELETE_PENDING ------------------------

  /** The member closes the fraction the master closed, to two decimals and never less than 0.01. */
  function CloseVolume(volume: int, fraction: nat): (closing: nat)
    ensures closing >= 1
  {
    Max(Round(volume * fraction, WHOLE), 1)
  }

  function AdjustOrder(b: Account, sub: Subscription, event: TradeEvent, mapping: Mapping, at: Moment)
    : (Account, OrderResult)
  {
    if event.eventType == MODIFY then
      ModifyPosition(b, mapping.memberTicket,
                     if sub.settings.None? || sub.settings.value.copySl then event.sl else None,
                     if sub.settings.None? || sub.settings.value.copyTp then event.tp else None)
    else
      ClosePosition(b, mapping.memberTicket,
                    if event.eventType == PARTIAL_CLOSE
                    then Some(CloseVolume(mapping.volume, event.closeFraction.GetOr(WHOLE))) else None,
                    at.price, at.now)
  }

  function Remapped(mapping: Mapping, remainder: Ticket, closed: int): Mapping {
    mapping.(memberTicket := remainder, ticketHistory := mapping.ticketHistory + [mapping.memberTicket],
             volume := mapping.volume - closed, status := PARTIALLY_CLOSED)
  }

  function Reduced(mapping: Mapping, closed: int): Mapping {
    mapping.(volume := mapping.volume - closed, status := PARTIALLY_CLOSED)
  }

  function Ended(mapping: Mapping, record: Option<CloseRecord>, reason: Option<CloseReason>, now: int): Mapping {
    match record
    case Some(r) => mapping.(status := CLOSED, closedAt := Some(r.closedAt), closePrice := Some(r.closePrice),
                             profit := Some(r.profit), closeReason := Some(r.reason))
    case None => mapping.(status := CLOSED, closedAt := Some(now), closePrice := None, profit := None,
                          closeReason := reason)
  }

  function AdjustForMember(m: Member, b: Account, sub: Subscription, event: TradeEvent, at: Moment): CopyStep
    requires event.eventId in m.rows
  {
    var e := event.eventId;
    if event.ticket !in m.mappings || m.mappings[event.ticket].status == CLOSED then
      Skip(m, b, e, Some(POSITION_NOT_FOUND))
    else
      var mapping := m.mappings[event.ticket];
      var (b1, result) := AdjustOrder(b, sub, event, mapping, at);
      var m1 := m.(rows := m.rows[e := m.rows[e].(attempts := m.rows[e].attempts + 1,
                                                  memberTicket := Some(mapping.memberTicket))]);
      match result
      case Rejected(error) =>
        CopyStep(Finish(m1, e, FAILED, Some(error)), b1, FAILED, None)
      case Executed(_, remainder, _, volume) =>
        var m2 := ApplyAdjustment(m1, b1, event, mapping, remainder, volume, at.now);
        var filled := if volume.Some? then volume.value else mapping.volume;
        CopyStep(m2.(rows := m2.rows[e := m2.rows[e].(status := SUCCESS, memberVolume := filled)]), b1, SUCCESS, None)
  }

  function ApplyAdjustment(m: Member, b: Account, event: TradeEvent, mapping: Mapping,
                           remainder: Option<Ticket>, volume: Option<int>, now: int): (r: Member)
    ensures r.rows == m.rows
  {
    var k := event.ticket;
    if remainder.Some? then
      m.(mappings := m.mappings[k := Remapped(mapping, remainder.value, volume.GetOr(0))])
    else if event.eventType == PARTIAL_CLOSE then
      m.(mappings := m.mappings[k := Reduced(mapping, volume.GetOr(0))])
    else if event.eventType == CLOSE || event.eventType == DELETE_PENDING then
      m.(mappings := m.mappings[k :=
                                Ended(mapping, GetClosedPosition(b, mapping.memberTicket), Some(COPIED_CLOSE), now)],
         openTrades := m.openTrades - 1)
    else
      m
  }

  // ---- One event on one account --------------------------------------------

  predicate Opens(event: TradeEvent) {
    event.eventType == OPEN || event.eventType == PENDING_ORDER
  }

  function NewRow(sub: Subscription, event: TradeEvent, row: RowId): CopyTrade {
    CopyTrade(row, sub.id, event.eventType, event.ticket, UNFINISHED, None, 0, None, 0)
  }

  /** The row is the lock: an event already recorded for this account is left alone. */
  function CopyToMember(m: Member, b: Account, sub: Subscription, event: TradeEvent, symbol: Symbol,
                        row: RowId, at: Moment): CopyStep
  {
    if event.eventId in m.rows then
      CopyStep(m, b, SKIPPED, None)
    else
      var m1 := m.(rows := m.rows[event.eventId := NewRow(sub, event, row)]);
      if Opens(event) then
        OpenForMember(m1, b, sub, event, symbol, row, at)
      else
        AdjustForMember(m1, b, sub, event, at)
  }

  // ---- What decides an OPEN beforehand -------------------------------------

  /** Sizing accepts the trade, the risk check allows it, and the broker takes that volume of that symbol. */
  predicate WillFill(m: Member, b: Account, settings: CopySettings, limits: RiskProfile, event: TradeEvent,
                     symbol: Symbol, at: Moment)
  {
    symbol in SYMBOLS &&
    var lot := CalculateLot(LotInputsFor(m, settings, event, symbol, GetSymbolSpec(b, symbol).value));
    lot.Accepted? &&
    var volume := OrderVolume(lot.volume);
    && EvaluateRisk(RiskContextFor(m, b, settings, limits, event, symbol, volume, TodaysRisk(m, at.today))).Allowed?
    && SYMBOLS[symbol].minLot <= volume <= SYMBOLS[symbol].maxLot
  }

  /** Whether an OPEN not seen before will be executed, from the state before the copy. */
  predicate Executes(m: Member, b: Account, sub: Subscription, event: TradeEvent, symbol: Symbol, row: RowId,
                     at: Moment)
  {
    sub.settings.Some? &&
    (|| FindByComment(b, row, 0).Some?
     || WillFill(m, b, sub.settings.value, sub.risk.GetOr(NO_LIMITS), event, symbol, at))
  }

  lemma SendFillsIff(m: Member, b: Account, sub: Subscription, event: TradeEvent, symbol: Symbol,
                     request: OpenRequest, at: Moment)
    requires event.eventId in m.rows
    ensures Send(m, b, sub, event, symbol, request, at).outcome == SUCCESS <==>
              request.symbol in SYMBOLS &&
                  SYMBOLS[request.symbol].minLot <= request.volume <= SYMBOLS[request.symbol].maxLot
  {
  }

  lemma CheckFillsIff(m: Member, b: Account, sub: Subscription, settings: CopySettings, event: TradeEvent,
                      symbol: Symbol, row: RowId, volume: nat, at: Moment)
    requires event.eventId in m.rows && symbol in SYMBOLS
    ensures CheckAndSend(m, b, sub, settings, event, symbol, row, volume, at).outcome == SUCCESS <==>
              && EvaluateRisk(RiskContextFor(m, b, settings, sub.risk.GetOr(NO_LIMITS), event, symbol, volume,
                                             TodaysRisk(m, at.today))).Allowed?
              && SYMBOLS[symbol].minLot <= volume <= SYMBOLS[symbol].maxLot
  {
    SendFillsIff(m.(risk := Some(TodaysRisk(m, at.today))), b, sub, event, symbol,
                 RequestFor(settings, event, symbol, volume, row), at);
  }

  lemma OpenExecutesIff(m: Member, b: Account, sub: Subscription, event: TradeEvent, symbol: Symbol, row: RowId,
                        at: Moment)
    requires event.eventId in m.rows
    ensures OpenForMember(m, b, sub, event, symbol, row, at).outcome == SUCCESS <==>
              Executes(m, b, sub, event, symbol, row, at)
  {
    if sub.settings.Some? && symbol in SYMBOLS {
      var settings := sub.settings.value;
      var lot := CalculateLot(LotInputsFor(m, settings, event, symbol, GetSymbolSpec(b, symbol).value));
      if lot.Accepted? {
        CheckFillsIff(m, b, sub, settings, event, symbol, row, OrderVolume(lot.volume), at);
      }
    }
  }

  /** An OPEN not seen before succeeds if and only if settings, sizing, risk and the symbol's limits let it. */
  lemma ExecutesIff(m: Member, b: Account, sub: Subscription, event: TradeEvent, symbol: Symbol, row: RowId, at: Moment)
    requires Opens(event) && event.eventId !in m.rows
    ensures CopyToMember(m, b, sub, event, symbol, row, at).outcome == SUCCESS <==>
              Executes(m, b, sub, event, symbol, row, at)
  {
    var m1 := m.(rows := m.rows[event.eventId := NewRow(sub, event, row)]);
    OpenExecutesIff(m1, b, sub, event, symbol, row, at);
    RowsDoNotDecide(m, m1, b, sub, event, symbol, row, at);
  }

  lemma RowsDoNotDecide(m: Member, m1: Member, b: Account, sub: Subscription, event: TradeEvent, symbol: Symbol,
                        row: RowId, at: Moment)
    requires m1 == m.(rows := m1.rows)
    ensures Executes(m1, b, sub, event, symbol, row, at) <==> Executes(m, b, sub, event, symbol, row, at)
  {
  }
}
