/** The pre-trade decision (src/services/risk/risk-engine.ts). Percentages are in 1e-4 percent. */
module RiskEngine {
  import opened Common
  import opened TradeTypes

  datatype RiskContext = RiskContext(
    symbol: Symbol,
    orderType: OrderType,
    volume: int,
    allowedSymbols: seq<Symbol>,
    copyBuy: bool,
    copySell: bool,
    copyPendingOrders: bool,
    maxOpenTrades: int,
    maxDailyLoss: int,
    maxDailyLossPct: int,
    maxDrawdownPct: int,
    maxLotPerTrade: int,
    maxTotalLot: int,
    openTrades: int,
    openVolume: int,
    equity: int,
    peakEquity: int,
    dailyStartEquity: int,
    alreadyBreached: bool)

  datatype RiskDecision =
    | Allowed
    | Denied(code: ErrorCode, shouldPause: bool)

  /** 100 percent, in 1e-4 percent. */
  const PERCENT_SCALE: int := 1000000

  function EvaluateRisk(context: RiskContext): RiskDecision {
    if context.alreadyBreached then
      Denied(RISK_LIMIT_REACHED, false)
    else if context.orderType.IsPending() && !context.copyPendingOrders then
      Denied(SKIPPED_BY_SETTINGS, false)
    else if context.orderType.IsBuy() && !context.copyBuy then
      Denied(SKIPPED_BY_SETTINGS, false)
    else if !context.orderType.IsBuy() && !context.copySell then
      Denied(SKIPPED_BY_SETTINGS, false)
    else if |context.allowedSymbols| > 0 && context.symbol !in context.allowedSymbols then
      Denied(SKIPPED_BY_SETTINGS, false)
    else if context.openTrades >= context.maxOpenTrades then
      Denied(RISK_LIMIT_REACHED, false)
    else if context.maxLotPerTrade > 0 && context.volume > context.maxLotPerTrade then
      Denied(RISK_LIMIT_REACHED, false)
    else if context.maxTotalLot > 0 && context.openVolume + context.volume > context.maxTotalLot then
      Denied(RISK_LIMIT_REACHED, false)
    else
      AccountBreach(context)
  }

  /** The account-level limits: these stop copying, not just this trade. */
  function AccountBreach(context: RiskContext): RiskDecision {
    var dailyLoss := context.dailyStartEquity - context.equity;
    if context.maxDailyLoss > 0 && dailyLoss >= context.maxDailyLoss then
      Denied(RISK_LIMIT_REACHED, true)
    else if context.maxDailyLossPct > 0 && context.dailyStartEquity > 0
            && dailyLoss * PERCENT_SCALE >= context.maxDailyLossPct * context.dailyStartEquity then
      Denied(RISK_LIMIT_REACHED, true)
    else if context.maxDrawdownPct > 0 && context.peakEquity > 0
            && (context.peakEquity - context.equity) * PERCENT_SCALE >= context.maxDrawdownPct * context.peakEquity then
      Denied(RISK_LIMIT_REACHED, true)
    else
      Allowed
  }

  // ---- What the decision means ---------------------------------------------

  predicate SettingsPermit(context: RiskContext) {
    && (context.orderType.IsPending() ==> context.copyPendingOrders)
    && (if context.orderType.IsBuy() then context.copyBuy else context.copySell)
    && (context.allowedSymbols == [] || context.symbol in context.allowedSymbols)
  }

  /** With this order, the account is still within its trade, per-order and total limits. */
  predicate WithinTradeLimits(context: RiskContext) {
    && context.openTrades + 1 <= context.maxOpenTrades
    && (context.maxLotPerTrade > 0 ==> context.volume <= context.maxLotPerTrade)
    && (context.maxTotalLot > 0 ==> context.openVolume + context.volume <= context.maxTotalLot)
  }

  /** `part` as a percentage of `whole`. */
  function PercentOf(part: int, whole: int): real
    requires whole > 0
  {
    part as real / whole as real * 100.0
  }

  function Percent(limit: int): real {
    limit as real / 10000.0
  }

  predicate LossLimitReached(context: RiskContext) {
    var dailyLoss := context.dailyStartEquity - context.equity;
    || (context.maxDailyLoss > 0 && dailyLoss >= context.maxDailyLoss)
    || (context.maxDailyLossPct > 0 && context.dailyStartEquity > 0
        && PercentOf(dailyLoss, context.dailyStartEquity) >= Percent(context.maxDailyLossPct))
    || (context.maxDrawdownPct > 0 && context.peakEquity > 0
        && PercentOf(context.peakEquity - context.equity, context.peakEquity) >= Percent(context.maxDrawdownPct))
  }

  /** Comparing percentages without dividing. */
  lemma PercentReached(part: int, whole: int, limit: int)
    requires whole > 0
    ensures PercentOf(part, whole) >= Percent(limit) <==> part * PERCENT_SCALE >= limit * whole
  {
    var w := whole as real;
    var share := part as real / w;
    assert share * w == part as real;
    var gap := share * 100.0 - limit as real / 10000.0;
    assert gap * w * 10000.0 == part as real * 1000000.0 - limit as real * w;
    assert (part * PERCENT_SCALE - limit * whole) as real == gap * w * 10000.0;
    if gap >= 0.0 {
      assert gap * w >= 0.0;
    } else {
      assert gap * w < 0.0;
    }
  }

  /**
   * An order is allowed exactly when nothing forbids it; and copying is paused
   * exactly when a loss limit is reached by an order nothing else forbids, so a
   * trade limit that is also reached hides the breach.
   */
  lemma DecisionMeaning(context: RiskContext)
    ensures EvaluateRisk(context).Allowed? <==>
              !context.alreadyBreached && SettingsPermit(context) && WithinTradeLimits(context) &&
                  !LossLimitReached(context)
    ensures EvaluateRisk(context).Denied? && EvaluateRisk(context).shouldPause <==>
              !context.alreadyBreached && SettingsPermit(context) && WithinTradeLimits(context) &&
                  LossLimitReached(context)
  {
    if context.dailyStartEquity > 0 {
      PercentReached(context.dailyStartEquity - context.equity, context.dailyStartEquity, context.maxDailyLossPct);
    }
    if context.peakEquity > 0 {
      PercentReached(context.peakEquity - context.equity, context.peakEquity, context.maxDrawdownPct);
    }
  }

  /** An allowed order stays allowed when it is smaller, or the account holds less or is worth more. */
  lemma LessRiskStaysAllowed(context: RiskContext, safer: RiskContext)
    requires safer == context.(volume := safer.volume, openTrades := safer.openTrades,
                                 openVolume := safer.openVolume, equity := safer.equity)
    requires safer.volume <= context.volume && safer.openTrades <= context.openTrades
    requires safer.openVolume <= context.openVolume && safer.equity >= context.equity
    requires EvaluateRisk(context).Allowed?
    ensures EvaluateRisk(safer).Allowed?
  {
    TimesMonotone(context.dailyStartEquity - safer.equity, context.dailyStartEquity - context.equity, PERCENT_SCALE);
    TimesMonotone(context.peakEquity - safer.equity, context.peakEquity - context.equity, PERCENT_SCALE);
  }
}
