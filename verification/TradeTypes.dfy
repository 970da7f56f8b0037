/**
 * The platform's vocabulary (src/types/trading.ts, prisma/schema.prisma).
 *
 * Units: volumes are hundredths of a lot, prices 1e-5, money cents, close
 * fractions millionths. Tickets are the broker's consecutive numbers.
 */
module TradeTypes {
  import opened Common

  type Ticket = nat
  type AccountId = nat
  type StrategyId = nat
  type SubscriptionId = nat
  type RowId = nat
  type Symbol = string
  type Day = int

  /** 100 percent, in millionths. */
  const WHOLE: nat := 1000000

  datatype Platform = MT4 | MT5

  datatype OrderType = BUY | SELL | BUY_LIMIT | SELL_LIMIT | BUY_STOP | SELL_STOP {
    predicate IsBuy() {
      BUY? || BUY_LIMIT? || BUY_STOP?
    }

    predicate IsPending() {
      !BUY? && !SELL?
    }
  }

  datatype EventType = OPEN | MODIFY | CLOSE | PARTIAL_CLOSE | PENDING_ORDER | DELETE_PENDING

  datatype PositionStatus = PENDING | OPENED | PARTIALLY_CLOSED | CLOSED

  datatype CloseReason = STOP_LOSS | TAKE_PROFIT | COPIED_CLOSE | MANUAL | OTHER

  datatype ErrorCode =
    | INVALID_SYMBOL
    | INVALID_VOLUME
    | POSITION_NOT_FOUND
    | PLATFORM_CONNECTION_ERROR
    | PROVIDER_ERROR
    | RISK_LIMIT_REACHED
    | SKIPPED_BY_SETTINGS

  /** What one derived event id describes, beside its kind and ticket. */
  datatype ChangeDetail =
    | OpenedAt(volume: nat, price: int)
    | VolumeChange(before: nat, after: nat)
    | Stops(sl: int, tp: int)
    | Gone

  /**
   * Event ids: derived by the account watcher, or supplied by a master EA.
   * The hash over the description is modelled as injective.
   */
  datatype EventId =
    | Derived(kind: EventType, ticket: Ticket, detail: ChangeDetail)
    | External(id: string)

  /** A stored master event, the unit the copy engine fans out. */
  datatype TradeEvent = TradeEvent(
    eventId: EventId,
    strategyId: StrategyId,
    eventType: EventType,
    ticket: Ticket,
    symbol: Symbol,
    orderType: OrderType,
    volume: nat,
    price: int,
    sl: Option<int>,
    tp: Option<int>,
    masterBalance: Option<int>,
    closeFraction: Option<nat>)

  /** One finished trade as a broker reports it, under the broker's own name for the position. */
  datatype AccountTrade<+Id> = AccountTrade(
    ticket: Id,
    symbol: Symbol,
    orderType: OrderType,
    volume: nat,
    openPrice: Option<int>,
    closePrice: Option<int>,
    profit: int,
    commission: Option<int>,
    swap: Option<int>,
    openedAt: Option<int>,
    closedAt: int,
    reason: Option<CloseReason>)
}
