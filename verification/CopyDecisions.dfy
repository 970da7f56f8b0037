/**
 * Which OPEN events reach the broker, and with what volume, told by the fields
 * of the settings, the limits, the account and the event alone
 * (src/services/copy-engine.service.ts).
 */
module CopyDecisions {
  import opened Common
  import opened TradeTypes
  import opened LotCalculator
  import opened RiskEngine
  import opened MockBroker
  import opened MemberModel
  import opened MemberAgreement

  // ---- Sizing, in hundredths of a lot --------------------------------------

  /** Units of the traded asset in one lot, as the copy engine counts them. */
  const RISK_UNITS: map<Symbol, int> := map[
    "XAUUSD" := 100,
    "EURUSD" := 100000,
    "GBPUSD" := 100000,
    "USDJPY" := 100000,
    "BTCUSD" := 1,
    "US30" := 1
  ]

  /**
   * `size` hundredths of a lot is what the settings ask for: the fixed lot; the
   * multiple of the master's volume; the master's volume per balance; or the
   * size whose loss at the master's stop is the chosen share of equity.
   */
  ghost predicate SettingsAsk(m: Member, settings: CopySettings, event: TradeEvent, symbol: Symbol, size: real)
    requires symbol in RISK_UNITS
  {
    match settings.lotMode
    case FIXED => size == settings.fixedLot as real
    case MULTIPLIER => size * 10000.0 == event.volume as real * settings.multiplier as real
    case BALANCE_RATIO =>
      && event.masterBalance.Some? && event.masterBalance.value > 0
      && size * 10000.0 * event.masterBalance.value as real
         == event.volume as real * m.balance as real * settings.balanceRatio as real
    case RISK_PERCENT =>
      && event.sl.Some? && event.sl.value != event.price
      && size * 10.0 * (Abs(event.price - event.sl.value) * RISK_UNITS[symbol]) as real
         == m.equity as real * settings.riskPercent as real
  }

  /** The symbol's own step: MT4 servers trade in tenths. */
  function SymbolStep(b: Account, symbol: Symbol): int
    requires symbol in SYMBOLS
  {
    if b.platform == MT4 then Max(SYMBOLS[symbol].lotStep, 10) else SYMBOLS[symbol].lotStep
  }

  /** Raised to the member's minimum, then held to the member's and the broker's maximum. */
  function WithinLimits(m: Member, settings: CopySettings, symbol: Symbol, size: real): real
    requires symbol in SYMBOLS
  {
    var lifted := if size >= settings.minLot as real then size else settings.minLot as real;
    var most := Min(settings.maxLot, Min(m.brokerMaxLot, SYMBOLS[symbol].maxLot)) as real;
    if lifted <= most then lifted else most
  }

  /** `size` is asked for, and within the limits and at the broker's step and minimum it comes to `lot`. */
  ghost predicate SizesTo(m: Member, b: Account, settings: CopySettings, event: TradeEvent, symbol: Symbol,
                          size: real, lot: int)
    requires symbol in SYMBOLS
  {
    var step := Max(m.brokerLotStep, SymbolStep(b, symbol));
    var least := Max(m.brokerMinLot, Max(SYMBOLS[symbol].minLot, SymbolStep(b, symbol)));
    && SettingsAsk(m, settings, event, symbol, size) && size > 0.0
    && ComesTo(lot, step, least, settings.allowMinLotRounding, WithinLimits(m, settings, symbol, size), NUDGE / 100.0)
  }

  /** The settings size this event at `lot`. */
  ghost predicate Sized(m: Member, b: Account, settings: CopySettings, event: TradeEvent, symbol: Symbol, lot: int)
    requires symbol in SYMBOLS
  {
    exists size: real :: SizesTo(m, b, settings, event, symbol, size, lot)
  }

  lemma MultiplierInPoints(size: real, volume: int, multiplier: int)
    ensures size * 100.0 == (volume * 100) as real * (multiplier as real / 10000.0)
            <==> size * 10000.0 == volume as real * multiplier as real
  {
    assert (volume * 100) as real * (multiplier as real / 10000.0) == volume as real * multiplier as real / 100.0;
  }

  lemma RatioInPoints(size: real, volume: int, master: int, balance: int, ratio: int)
    ensures size * 100.0 * (master as real / 100.0)
            == (volume * 100) as real * (balance as real / 100.0) * (ratio as real / 10000.0)
            <==> size * 10000.0 * master as real == volume as real * balance as real * ratio as real
  {
    var whole := volume as real * balance as real * ratio as real;
    assert size * 100.0 * (master as real / 100.0) == size * master as real;
    assert (volume * 100) as real * (balance as real / 100.0) * (ratio as real / 10000.0) == whole / 10000.0;
    assert size * 10000.0 * master as real == size * master as real * 10000.0;
  }

  lemma RiskInPoints(size: real, gap: int, units: int, equity: int, percent: int)
    ensures size * 100.0 / LOT * (gap as real / 100000.0 * units as real) * 100.0
            == equity as real / 100.0 * (percent as real / 10000.0)
            <==> size * 10.0 * (gap * units) as real == equity as real * percent as real
  {
    var loss := gap as real * units as real;
    assert (gap * units) as real == loss;
    assert gap as real / 100000.0 * units as real == loss / 100000.0;
    assert size * 100.0 / LOT * (loss / 100000.0) * 100.0 == size * loss / 100000.0;
    assert equity as real / 100.0 * (percent as real / 10000.0) == equity as real * percent as real / 1000000.0;
    assert size * 10.0 * loss == size * loss * 10.0;
  }

  lemma MultiplierAsks(m: Member, b: Account, settings: CopySettings, event: TradeEvent, symbol: Symbol, size: real)
    requires symbol in SYMBOLS && settings.lotMode == MULTIPLIER
    ensures Asks(LotInputsFor(m, settings, event, symbol, GetSymbolSpec(b, symbol).value), size * 100.0)
            <==> SettingsAsk(m, settings, event, symbol, size)
  {
    MultiplierInPoints(size, event.volume, settings.multiplier);
  }

  lemma RatioAsks(m: Member, b: Account, settings: CopySettings, event: TradeEvent, symbol: Symbol, size: real)
    requires symbol in SYMBOLS && settings.lotMode == BALANCE_RATIO
    ensures Asks(LotInputsFor(m, settings, event, symbol, GetSymbolSpec(b, symbol).value), size * 100.0)
            <==> SettingsAsk(m, settings, event, symbol, size)
  {
    if event.masterBalance.Some? {
      RatioInPoints(size, event.volume, event.masterBalance.value, m.balance, settings.balanceRatio);
    }
  }

  lemma RiskAsksOf(input: LotInputs, size: real, gap: nat, units: int, equity: int, percent: int)
    requires input.mode == RISK_PERCENT && units > 0
    requires input.stopDistance == Some(gap as real / 100000.0) && input.contractSize == units as real
    requires input.memberEquity == equity as real / 100.0 && input.riskPercent == percent as real / 10000.0
    ensures Asks(input, size * 100.0)
            <==> gap != 0 && size * 10.0 * (gap * units) as real == equity as real * percent as real
  {
    RiskInPoints(size, gap, units, equity, percent);
  }

  lemma UnitsAgree(symbol: Symbol)
    requires symbol in SYMBOLS
    ensures symbol in RISK_UNITS && RISK_UNITS[symbol] > 0 && CopyContractSize(symbol) == RISK_UNITS[symbol] as real
  {
  }

  lemma RiskAsks(m: Member, b: Account, settings: CopySettings, event: TradeEvent, symbol: Symbol, size: real)
    requires symbol in SYMBOLS && settings.lotMode == RISK_PERCENT
    ensures Asks(LotInputsFor(m, settings, event, symbol, GetSymbolSpec(b, symbol).value), size * 100.0)
            <==> SettingsAsk(m, settings, event, symbol, size)
  {
    UnitsAgree(symbol);
    if event.sl.Some? {
      RiskAsksOf(LotInputsFor(m, settings, event, symbol, GetSymbolSpec(b, symbol).value), size,
                 Abs(event.price - event.sl.value), RISK_UNITS[symbol], m.equity, settings.riskPercent);
    }
  }

  lemma AsksInPoints(m: Member, b: Account, settings: CopySettings, event: TradeEvent, symbol: Symbol, size: real)
    requires symbol in SYMBOLS
    ensures Asks(LotInputsFor(m, settings, event, symbol, GetSymbolSpec(b, symbol).value), size * 100.0)
            <==> SettingsAsk(m, settings, event, symbol, size)
  {
    match settings.lotMode {
      case FIXED =>
      case MULTIPLIER => MultiplierAsks(m, b, settings, event, symbol, size);
      case BALANCE_RATIO => RatioAsks(m, b, settings, event, symbol, size);
      case RISK_PERCENT => RiskAsks(m, b, settings, event, symbol, size);
    }
  }

  lemma RemainderIs(n: int, d: int, q: int, r: int)
    requires 0 <= r < d && n == q * d + r
    ensures n % d == r
  {
    var p := n / d;
    assert n == p * d + n % d;
    NextMultiple(p, q, d);
    NextMultiple(q, p, d);
  }

  lemma FitsInPoints(lot: int, step: int, covered: real)
    requires step > 0
    ensures Fits(lot * 100, step * 100, covered * 100.0) <==> Fits(lot, step, covered)
  {
    var k := lot / step;
    assert lot == k * step + lot % step;
    assert lot * 100 == k * (step * 100) + lot % step * 100;
    RemainderIs(lot * 100, step * 100, k, lot % step * 100);
  }

  lemma FillsInPoints(lot: int, step: int, least: int, size: real)
    requires step > 0
    ensures Fills(lot * 100, step * 100, least * 100, size * 100.0, NUDGE)
            <==> Fills(lot, step, least, size, NUDGE / 100.0)
  {
    FitsInPoints(lot, step, size + NUDGE / 100.0);
    assert (size + NUDGE / 100.0) * 100.0 == size * 100.0 + NUDGE;
  }

  lemma FitsWhole(lot: int, step: int, covered: real)
    requires step > 0 && Fits(lot, step * 100, covered)
    ensures lot == lot / 100 * 100
  {
    MultipleOfMultiple(step * 100, lot / (step * 100), 100);
  }

  lemma NothingFillsInPoints(step: int, least: int, size: real)
    requires step > 0
    ensures NothingFills(step * 100, least * 100, size * 100.0, NUDGE)
            <==> NothingFills(step, least, size, NUDGE / 100.0)
  {
    var nudge, step', least', size' := NUDGE / 100.0, step * 100, least * 100, size * 100.0;
    if lot :| Fills(lot, step, least, size, nudge) {
      FillsInPoints(lot, step, least, size);
    }
    if lot :| Fills(lot, step', least', size', NUDGE) {
      FitsWhole(lot, step, size' + NUDGE);
      FillsInPoints(lot / 100, step, least, size);
    }
  }

  lemma ComesToInPoints(lot: int, step: int, least: int, mayRoundUp: bool, size: real)
    requires step > 0
    ensures ComesTo(lot * 100, step * 100, least * 100, mayRoundUp, size * 100.0, NUDGE)
            <==> ComesTo(lot, step, least, mayRoundUp, size, NUDGE / 100.0)
  {
    FillsInPoints(lot, step, least, size);
    NothingFillsInPoints(step, least, size);
  }

  ghost predicate PointsSizeTo(input: LotInputs, points: real, lot: int)
    requires input.brokerLotStep > 0
  {
    && Asks(input, points) && points > 0.0
    && ComesTo(lot, input.brokerLotStep, input.brokerMinLot, input.allowMinLotRounding, Bounded(input, points), NUDGE)
  }

  lemma LimitsInPoints(m: Member, b: Account, settings: CopySettings, event: TradeEvent, symbol: Symbol, size: real)
    requires symbol in SYMBOLS
    ensures var input := LotInputsFor(m, settings, event, symbol, GetSymbolSpec(b, symbol).value);
            && input.brokerLotStep == Max(m.brokerLotStep, SymbolStep(b, symbol)) * 100 > 0
            && input.brokerMinLot
               == Max(m.brokerMinLot, Max(SYMBOLS[symbol].minLot, SymbolStep(b, symbol))) * 100 > 0
            && input.allowMinLotRounding == settings.allowMinLotRounding
            && Bounded(input, size * 100.0) == WithinLimits(m, settings, symbol, size) * 100.0
  {
  }

  lemma SizesToInPoints(m: Member, b: Account, settings: CopySettings, event: TradeEvent, symbol: Symbol, size: real,
                        lot: int)
    requires symbol in SYMBOLS
    ensures var input := LotInputsFor(m, settings, event, symbol, GetSymbolSpec(b, symbol).value);
            input.brokerLotStep > 0 &&
            (PointsSizeTo(input, size * 100.0, lot * 100) <==> SizesTo(m, b, settings, event, symbol, size, lot))
  {
    LimitsInPoints(m, b, settings, event, symbol, size);
    AsksInPoints(m, b, settings, event, symbol, size);
    ComesToInPoints(lot, Max(m.brokerLotStep, SymbolStep(b, symbol)),
                    Max(m.brokerMinLot, Max(SYMBOLS[symbol].minLot, SymbolStep(b, symbol))),
                    settings.allowMinLotRounding, WithinLimits(m, settings, symbol, size));
  }

  lemma AcceptedIsPointsSized(input: LotInputs, lot: int)
    requires input.brokerLotStep > 0
    ensures CalculateLot(input).Accepted? && CalculateLot(input).volume == lot
            <==> exists points: real :: PointsSizeTo(input, points, lot)
  {
    AcceptedLotMeaning(input, lot);
    if CalculateLot(input).Accepted? && CalculateLot(input).volume == lot {
      var points: real :| Asks(input, points) && points > 0.0 &&
                          ComesTo(lot, input.brokerLotStep, input.brokerMinLot, input.allowMinLotRounding,
                                  Bounded(input, points), NUDGE);
      assert PointsSizeTo(input, points, lot);
    }
    if points: real :| PointsSizeTo(input, points, lot) {
      assert Asks(input, points);
    }
  }

  /** The engine's sizing accepts exactly what the settings size. */
  lemma SizedMeaning(m: Member, b: Account, settings: CopySettings, event: TradeEvent, symbol: Symbol, lot: int)
    requires symbol in SYMBOLS
    ensures var result := CalculateLot(LotInputsFor(m, settings, event, symbol, GetSymbolSpec(b, symbol).value));
            result.Accepted? && result.volume == lot * 100 <==> Sized(m, b, settings, event, symbol, lot)
  {
    var input := LotInputsFor(m, settings, event, symbol, GetSymbolSpec(b, symbol).value);
    var volume := lot * 100;
    SizesToInPoints(m, b, settings, event, symbol, 0.0, lot);
    AcceptedIsPointsSized(input, volume);
    if points: real :| PointsSizeTo(input, points, volume) {
      SizesToInPoints(m, b, settings, event, symbol, points / 100.0, lot);
      assert points == points / 100.0 * 100.0;
    }
    if size: real :| SizesTo(m, b, settings, event, symbol, size, lot) {
      SizesToInPoints(m, b, settings, event, symbol, size, lot);
      var points := size * 100.0;
      assert PointsSizeTo(input, points, volume);
    }
  }

  // ---- Risk, on the fields -------------------------------------------------

  /** Volume of the live positions among the tickets below `n`. */
  ghost function LiveVolume(b: Account, n: Ticket): nat {
    if n == 0 then 0
    else LiveVolume(b, n - 1) + (if IsLive(b, n - 1) then b.positions[n - 1].volume else 0)
  }

  ghost function LiveTickets(b: Account): set<Ticket> {
    set t | t in b.positions && !b.positions[t].closed
  }

  lemma {:induction false} LiveVolumeIsTotal(b: Account, n: Ticket)
    ensures VolumeOf(LivePositions(b), n) == LiveVolume(b, n)
  {
    if n > 0 {
      LiveVolumeIsTotal(b, n - 1);
    }
  }

  predicate BreachedToday(m: Member, today: Day) {
    m.risk.Some? && m.risk.value.tradingDay == today && m.risk.value.breached
  }

  /** Today's starting equity: the stored one, or the current equity on a day's first copy. */
  function StartOfDay(m: Member, today: Day): int {
    if m.risk.Some? && m.risk.value.tradingDay == today then m.risk.value.dailyStartEquity else m.equity
  }

  /** The member takes orders of this kind on this symbol. */
  predicate Wanted(settings: CopySettings, orderType: OrderType, symbol: Symbol) {
    && (orderType in {BUY, BUY_LIMIT, BUY_STOP} ==> settings.copyBuy)
    && (orderType in {SELL, SELL_LIMIT, SELL_STOP} ==> settings.copySell)
    && (orderType !in {BUY, SELL} ==> settings.copyPendingOrders)
    && (settings.allowedSymbols == [] || symbol in settings.allowedSymbols)
  }

  /** With this order the live positions stay within the trade limits. */
  ghost predicate RoomFor(b: Account, settings: CopySettings, risk: Option<RiskProfile>, lot: int) {
    && |LiveTickets(b)| + 1 <= settings.maxOpenTrades
    && (risk.Some? && risk.value.maxLotPerTrade > 0 ==> lot <= risk.value.maxLotPerTrade)
    && (risk.Some? && risk.value.maxTotalLot > 0 ==> LiveVolume(b, b.nextTicket) + lot <= risk.value.maxTotalLot)
  }

  /** The account has lost as much as its risk profile allows, since the day began or since its peak. */
  predicate LostTooMuch(m: Member, risk: Option<RiskProfile>, today: Day) {
    risk.Some? &&
    var limits, start := risk.value, StartOfDay(m, today);
    || (limits.maxDailyLoss > 0 && start - m.equity >= limits.maxDailyLoss)
    || (limits.maxDailyLossPct > 0 && start > 0
        && PercentOf(start - m.equity, start) >= Percent(limits.maxDailyLossPct))
    || (limits.maxDrawdownPct > 0 && m.peakEquity > 0
        && PercentOf(m.peakEquity - m.equity, m.peakEquity) >= Percent(limits.maxDrawdownPct))
  }

  /** Everything but the loss limits lets the order through. */
  ghost predicate Passes(m: Member, b: Account, settings: CopySettings, risk: Option<RiskProfile>, event: TradeEvent,
                         symbol: Symbol, lot: int, today: Day)
  {
    !BreachedToday(m, today) && Wanted(settings, event.orderType, symbol) && RoomFor(b, settings, risk, lot)
  }

  lemma RiskMeaning(m: Member, b: Account, settings: CopySettings, risk: Option<RiskProfile>, event: TradeEvent,
                    symbol: Symbol, lot: nat, today: Day)
    ensures var decision := EvaluateRisk(RiskContextFor(m, b, settings, risk.GetOr(NO_LIMITS), event, symbol, lot,
                                                        TodaysRisk(m, today)));
            var passes := Passes(m, b, settings, risk, event, symbol, lot, today);
            && (decision.Allowed? <==> passes && !LostTooMuch(m, risk, today))
            && (decision.Denied? && decision.shouldPause <==> passes && LostTooMuch(m, risk, today))
            && (decision.Denied? ==>
                  decision.code == if !BreachedToday(m, today) && !Wanted(settings, event.orderType, symbol)
                                   then SKIPPED_BY_SETTINGS else RISK_LIMIT_REACHED)
  {
    var context := RiskContextFor(m, b, settings, risk.GetOr(NO_LIMITS), event, symbol, lot, TodaysRisk(m, today));
    DecisionMeaning(context);
    LiveVolumeIsTotal(b, b.nextTicket);
    assert LivePositions(b).Keys == LiveTickets(b);
    assert SettingsPermit(context) <==> Wanted(settings, event.orderType, symbol);
    assert LossLimitReached(context) <==> LostTooMuch(m, risk, today);
  }

  // ---- What is sent, and what is stopped -----------------------------------

  /** Why an order sized at `lot` is not sent. */
  ghost function Refusal(m: Member, settings: CopySettings, event: TradeEvent, symbol: Symbol, today: Day): ErrorCode {
    if !BreachedToday(m, today) && !Wanted(settings, event.orderType, symbol) then SKIPPED_BY_SETTINGS
    else RISK_LIMIT_REACHED
  }

  lemma CheckedMeaning(m: Member, b: Account, sub: Subscription, settings: CopySettings, event: TradeEvent,
                       symbol: Symbol, row: RowId, lot: nat, at: Moment)
    requires event.eventId in m.rows
    ensures var step := CheckAndSend(m, b, sub, settings, event, symbol, row, lot, at);
            var passes := Passes(m, b, settings, sub.risk, event, symbol, lot, at.today);
            var lost := LostTooMuch(m, sub.risk, at.today);
            && (step.sent.Some? <==> passes && !lost)
            && (step.sent.Some? ==> step.sent.value.volume == lot)
            && (step.sent.None? ==> SkippedFor(step, event, Some(Refusal(m, settings, event, symbol, at.today))))
            && step.member.copying
               == (if passes && lost && sub.risk.value.stopCopyOnBreach then m.copying - {sub.id} else m.copying)
  {
    RiskMeaning(m, b, settings, sub.risk, event, symbol, lot, at.today);
  }

  ghost predicate SkippedFor(step: CopyStep, event: TradeEvent, why: Option<ErrorCode>) {
    && step.outcome == SKIPPED && event.eventId in step.member.rows
    && step.member.rows[event.eventId].error == why
  }

  /** The settings size the event at `lot`, and nothing but perhaps a loss limit is in its way. */
  ghost predicate Due(m: Member, b: Account, sub: Subscription, event: TradeEvent, symbol: Symbol, lot: int, today: Day)
  {
    && sub.settings.Some? && symbol in SYMBOLS && lot > 0
    && Sized(m, b, sub.settings.value, event, symbol, lot)
    && Passes(m, b, sub.settings.value, sub.risk, event, symbol, lot, today)
  }

  lemma WholeLots(m: Member, b: Account, settings: CopySettings, event: TradeEvent, symbol: Symbol)
    requires symbol in SYMBOLS
    ensures var result := CalculateLot(LotInputsFor(m, settings, event, symbol, GetSymbolSpec(b, symbol).value));
            result.Accepted? ==> OrderVolume(result.volume) > 0 && result.volume == OrderVolume(result.volume) * 100
  {
    var input := LotInputsFor(m, settings, event, symbol, GetSymbolSpec(b, symbol).value);
    if CalculateLot(input).Accepted? {
      LimitsInPoints(m, b, settings, event, symbol, 0.0);
      AcceptedIsWhole(input);
    }
  }

  lemma AcceptedIsWhole(input: LotInputs)
    requires input.brokerLotStep > 0 && input.brokerLotStep % 100 == 0
    requires input.brokerMinLot > 0 && input.brokerMinLot % 100 == 0
    requires CalculateLot(input).Accepted?
    ensures CalculateLot(input).volume >= input.brokerMinLot && CalculateLot(input).volume % 100 == 0
  {
    if !MinLotRounded(input) {
      var steps := ExactSteps(input);
      MultipleOfMultiple(input.brokerLotStep, steps, 100);
    }
  }

  lemma OpenUnsized(m: Member, b: Account, sub: Subscription, event: TradeEvent, symbol: Symbol, row: RowId,
                    at: Moment)
    requires event.eventId in m.rows && CommentsBelow(b, row)
    requires sub.settings.Some? && symbol in SYMBOLS ==>
               CalculateLot(LotInputsFor(m, sub.settings.value, event, symbol, GetSymbolSpec(b, symbol).value)).Refused?
    ensures var step := OpenForMember(m, b, sub, event, symbol, row, at);
            && step.sent.None? && step.member.copying == m.copying
            && SkippedFor(step, event, if sub.settings.None? then None
                                       else if symbol !in SYMBOLS then Some(INVALID_SYMBOL)
                                       else Some(ErrorCode.INVALID_VOLUME))
  {
    RecoveryNeverFires(b, row);
  }

  lemma OpenSized(m: Member, b: Account, sub: Subscription, event: TradeEvent, symbol: Symbol, row: RowId, at: Moment)
    requires event.eventId in m.rows && CommentsBelow(b, row) && sub.settings.Some? && symbol in SYMBOLS
    requires CalculateLot(LotInputsFor(m, sub.settings.value, event, symbol, GetSymbolSpec(b, symbol).value)).Accepted?
    ensures var lot := CalculateLot(LotInputsFor(m, sub.settings.value, event, symbol, GetSymbolSpec(b, symbol).value));
            OpenForMember(m, b, sub, event, symbol, row, at)
            == CheckAndSend(m, b, sub, sub.settings.value, event, symbol, row, OrderVolume(lot.volume), at)
  {
    RecoveryNeverFires(b, row);
  }

  lemma RowsDoNotMatter(m: Member, m1: Member, b: Account, sub: Subscription, event: TradeEvent, symbol: Symbol,
                        lot: int, today: Day)
    requires m1 == m.(rows := m1.rows)
    ensures Due(m1, b, sub, event, symbol, lot, today) <==> Due(m, b, sub, event, symbol, lot, today)
    ensures LostTooMuch(m1, sub.risk, today) <==> LostTooMuch(m, sub.risk, today)
  {
    RowsDoNotSize(m, m1, b, sub, event, symbol, lot);
  }

  lemma RowsDoNotSize(m: Member, m1: Member, b: Account, sub: Subscription, event: TradeEvent, symbol: Symbol,
                      lot: int)
    requires m1 == m.(rows := m1.rows)
    ensures sub.settings.Some? && symbol in SYMBOLS ==>
              (Sized(m1, b, sub.settings.value, event, symbol, lot)
               <==> Sized(m, b, sub.settings.value, event, symbol, lot))
  {
    if sub.settings.Some? && symbol in SYMBOLS {
      SizedMeaning(m, b, sub.settings.value, event, symbol, lot);
      SizedMeaning(m1, b, sub.settings.value, event, symbol, lot);
      SameInputs(m, m1, b, sub.settings.value, event, symbol);
    }
  }

  lemma SameInputs(m: Member, m1: Member, b: Account, settings: CopySettings, event: TradeEvent, symbol: Symbol)
    requires m1 == m.(rows := m1.rows) && symbol in SYMBOLS
    ensures var spec := GetSymbolSpec(b, symbol).value;
            LotInputsFor(m1, settings, event, symbol, spec) == LotInputsFor(m, settings, event, symbol, spec)
  {
  }

  lemma OpenMeaning(m: Member, b: Account, sub: Subscription, event: TradeEvent, symbol: Symbol, row: RowId,
                    at: Moment, lot: nat)
    requires event.eventId in m.rows && CommentsBelow(b, row)
    ensures var step := OpenForMember(m, b, sub, event, symbol, row, at);
            var lost := LostTooMuch(m, sub.risk, at.today);
            && (step.sent.Some? && step.sent.value.volume == lot
                <==> Due(m, b, sub, event, symbol, lot, at.today) && !lost)
            && (Due(m, b, sub, event, symbol, lot, at.today) ==>
                  step.member.copying == if lost && sub.risk.value.stopCopyOnBreach then m.copying - {sub.id}
                                         else m.copying)
  {
    if sub.settings.Some? && symbol in SYMBOLS {
      SizedMeaning(m, b, sub.settings.value, event, symbol, lot);
      WholeLots(m, b, sub.settings.value, event, symbol);
      var result := CalculateLot(LotInputsFor(m, sub.settings.value, event, symbol, GetSymbolSpec(b, symbol).value));
      if result.Accepted? {
        OpenSized(m, b, sub, event, symbol, row, at);
        CheckedMeaning(m, b, sub, sub.settings.value, event, symbol, row, OrderVolume(result.volume), at);
      } else {
        OpenUnsized(m, b, sub, event, symbol, row, at);
      }
    } else {
      OpenUnsized(m, b, sub, event, symbol, row, at);
    }
  }

  /**
   * An OPEN not seen before is sent, with a given volume, if and only if that
   * is what the settings size, the account was not stopped today, the member
   * wants such orders, there is room for it, and no loss limit is reached. When
   * the loss limit is all that stops it, the subscription is paused.
   */
  lemma OpenIsSentIff(m: Member, b: Account, sub: Subscription, event: TradeEvent, symbol: Symbol, row: RowId,
                      at: Moment, lot: nat)
    requires Opens(event) && event.eventId !in m.rows && CommentsBelow(b, row)
    ensures var step := CopyToMember(m, b, sub, event, symbol, row, at);
            var lost := LostTooMuch(m, sub.risk, at.today);
            && (step.sent.Some? && step.sent.value.volume == lot
                <==> Due(m, b, sub, event, symbol, lot, at.today) && !lost)
            && (Due(m, b, sub, event, symbol, lot, at.today) ==>
                  step.member.copying == if lost && sub.risk.value.stopCopyOnBreach then m.copying - {sub.id}
                                         else m.copying)
  {
    var m1 := m.(rows := m.rows[event.eventId := NewRow(sub, event, row)]);
    OpenMeaning(m1, b, sub, event, symbol, row, at, lot);
    RowsDoNotMatter(m, m1, b, sub, event, symbol, lot, at.today);
  }

  lemma OpenSkipMeaning(m: Member, b: Account, sub: Subscription, event: TradeEvent, symbol: Symbol, row: RowId,
                        at: Moment)
    requires event.eventId in m.rows && CommentsBelow(b, row)
    requires OpenForMember(m, b, sub, event, symbol, row, at).sent.None?
    ensures SkippedFor(OpenForMember(m, b, sub, event, symbol, row, at), event,
                       SkipReason(m, b, sub, event, symbol, at.today))
  {
    if sub.settings.Some? && symbol in SYMBOLS {
      var result := CalculateLot(LotInputsFor(m, sub.settings.value, event, symbol, GetSymbolSpec(b, symbol).value));
      WholeLots(m, b, sub.settings.value, event, symbol);
      if result.Accepted? {
        SizedMeaning(m, b, sub.settings.value, event, symbol, OrderVolume(result.volume));
        OpenSized(m, b, sub, event, symbol, row, at);
        CheckedMeaning(m, b, sub, sub.settings.value, event, symbol, row, OrderVolume(result.volume), at);
      } else {
        NothingSized(m, b, sub.settings.value, event, symbol);
        OpenUnsized(m, b, sub, event, symbol, row, at);
      }
    } else {
      OpenUnsized(m, b, sub, event, symbol, row, at);
    }
  }

  lemma NothingSized(m: Member, b: Account, settings: CopySettings, event: TradeEvent, symbol: Symbol)
    requires symbol in SYMBOLS
    requires CalculateLot(LotInputsFor(m, settings, event, symbol, GetSymbolSpec(b, symbol).value)).Refused?
    ensures forall lot :: !Sized(m, b, settings, event, symbol, lot)
  {
    forall lot
      ensures !Sized(m, b, settings, event, symbol, lot)
    {
      SizedMeaning(m, b, settings, event, symbol, lot);
    }
  }

  /** The reason on the row of an OPEN that is not sent. */
  ghost function SkipReason(m: Member, b: Account, sub: Subscription, event: TradeEvent, symbol: Symbol, today: Day)
    : Option<ErrorCode>
  {
    if sub.settings.None? then None
    else if symbol !in SYMBOLS then Some(INVALID_SYMBOL)
    else if forall lot :: !Sized(m, b, sub.settings.value, event, symbol, lot) then Some(ErrorCode.INVALID_VOLUME)
    else Some(Refusal(m, sub.settings.value, event, symbol, today))
  }

  /** An OPEN that is not sent says why on its row: settings, symbol, size, the member's wishes or a limit. */
  lemma SkippedOpenSaysWhy(m: Member, b: Account, sub: Subscription, event: TradeEvent, symbol: Symbol, row: RowId,
                           at: Moment)
    requires Opens(event) && event.eventId !in m.rows && CommentsBelow(b, row)
    requires CopyToMember(m, b, sub, event, symbol, row, at).sent.None?
    ensures SkippedFor(CopyToMember(m, b, sub, event, symbol, row, at), event,
                       SkipReason(m, b, sub, event, symbol, at.today))
  {
    var m1 := m.(rows := m.rows[event.eventId := NewRow(sub, event, row)]);
    OpenSkipMeaning(m1, b, sub, event, symbol, row, at);
    forall lot
      ensures sub.settings.Some? && symbol in SYMBOLS ==>
                (Sized(m1, b, sub.settings.value, event, symbol, lot)
                 <==> Sized(m, b, sub.settings.value, event, symbol, lot))
    {
      RowsDoNotSize(m, m1, b, sub, event, symbol, lot);
    }
  }

  // ---- The modes in closed form --------------------------------------------

  lemma WholeInPoints(size: int, step: int)
    requires step > 0
    ensures (size * 100) % (step * 100) == size % step * 100
  {
    var k := size / step;
    assert size == k * step + size % step;
    RemainderIs(size * 100, step * 100, k, size % step * 100);
  }

  /**
   * With a fixed lot the master's volume and balance do not matter: the fixed
   * lot, within the limits, is rounded down to whole steps, or up to the
   * broker's minimum if the member allows that.
   */
  lemma FixedLotIsSized(m: Member, b: Account, settings: CopySettings, event: TradeEvent, symbol: Symbol, lot: int)
    requires symbol in SYMBOLS && settings.lotMode == FIXED
    ensures var step := Max(m.brokerLotStep, SymbolStep(b, symbol));
            var least := Max(m.brokerMinLot, Max(SYMBOLS[symbol].minLot, SymbolStep(b, symbol)));
            var wanted := Min(Max(settings.fixedLot, settings.minLot),
                              Min(settings.maxLot, Min(m.brokerMaxLot, SYMBOLS[symbol].maxLot)));
            var whole := wanted - wanted % step;
            Sized(m, b, settings, event, symbol, lot)
            <==> settings.fixedLot > 0
                 && (if whole >= least then lot == whole else settings.allowMinLotRounding && lot == least)
  {
    var input := LotInputsFor(m, settings, event, symbol, GetSymbolSpec(b, symbol).value);
    var wanted := Min(Max(settings.fixedLot, settings.minLot),
                      Min(settings.maxLot, Min(m.brokerMaxLot, SYMBOLS[symbol].maxLot)));
    SizedMeaning(m, b, settings, event, symbol, lot);
    LimitsInPoints(m, b, settings, event, symbol, 0.0);
    FixedLot(input);
    WholeInPoints(wanted, Max(m.brokerLotStep, SymbolStep(b, symbol)));
  }
}
