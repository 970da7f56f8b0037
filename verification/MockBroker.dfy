/**
 * The simulated broker (src/providers/trading/MockTradingProvider.ts).
 *
 * An account is a value; `MockTradingProvider` is the object that holds the
 * accounts and changes them. Every changing method is tied to the function of
 * the same name. Prices and the clock are inputs.
 */
module MockBroker {
  import opened Common
  import opened TradeTypes

  datatype SymbolInfo = SymbolInfo(digits: nat, minLot: nat, maxLot: nat, lotStep: nat)

  const SYMBOLS: map<Symbol, SymbolInfo> := map[
    "XAUUSD" := SymbolInfo(2, 1, 5000, 1),
    "EURUSD" := SymbolInfo(5, 1, 10000, 1),
    "GBPUSD" := SymbolInfo(5, 1, 10000, 1),
    "USDJPY" := SymbolInfo(3, 1, 10000, 1),
    "US30" := SymbolInfo(1, 1, 2000, 1),
    "BTCUSD" := SymbolInfo(2, 1, 1000, 1)
  ]

  /** No symbol trades more than 100 lots in one order. */
  const LARGEST_ORDER: nat := 10000

  datatype Position = Position(
    ticket: Ticket,
    symbol: Symbol,
    orderType: OrderType,
    volume: nat,
    openPrice: int,
    currentPrice: int,
    sl: Option<int>,
    tp: Option<int>,
    comment: RowId,
    closed: bool)

  /** What the broker remembers about a position that ended. */
  datatype CloseRecord = CloseRecord(
    ticket: Ticket,
    symbol: Symbol,
    orderType: OrderType,
    openPrice: int,
    closePrice: int,
    profit: int,
    volume: nat,
    closedAt: int,
    reason: CloseReason)

  datatype Account = Account(
    platform: Platform,
    netting: bool,
    balance: int,
    positions: map<Ticket, Position>,
    closes: map<Ticket, CloseRecord>,
    nextTicket: Ticket)

  datatype SymbolSpec = SymbolSpec(minLot: nat, maxLot: nat, lotStep: nat, tradeAllowed: bool)

  datatype OpenRequest = OpenRequest(
    symbol: Symbol,
    orderType: OrderType,
    volume: nat,
    sl: Option<int>,
    tp: Option<int>,
    clientId: RowId)

  datatype OrderResult =
    | Executed(ticket: Ticket, remainderTicket: Option<Ticket>, price: Option<int>, volume: Option<nat>)
    | Rejected(error: ErrorCode)

  predicate IsLive(account: Account, ticket: Ticket) {
    ticket in account.positions && !account.positions[ticket].closed
  }

  function LivePositions(account: Account): map<Ticket, Position> {
    map t | t in account.positions && !account.positions[t].closed :: account.positions[t]
  }

  /** Total volume of a set of positions. */
  function VolumeOf(positions: map<Ticket, Position>, below: Ticket): nat {
    if below == 0 then 0
    else VolumeOf(positions, below - 1) + (if below - 1 in positions then positions[below - 1].volume else 0)
  }

  function GetSymbolSpec(account: Account, symbol: Symbol): Option<SymbolSpec> {
    if symbol !in SYMBOLS then
      None
    else
      var info := SYMBOLS[symbol];
      var lotStep := if account.platform == MT4 then Max(info.lotStep, 10) else info.lotStep;
      Some(SymbolSpec(Max(info.minLot, lotStep), info.maxLot, lotStep, true))
  }

  /** The first live position on a symbol, in the order the broker issued tickets. */
  function FirstLive(account: Account, symbol: Symbol, from: Ticket): (r: Option<Ticket>)
    ensures r.Some? ==> IsLive(account, r.value) && account.positions[r.value].symbol == symbol
    decreases account.nextTicket - from
  {
    if from >= account.nextTicket then
      None
    else if IsLive(account, from) && account.positions[from].symbol == symbol then
      Some(from)
    else
      FirstLive(account, symbol, from + 1)
  }

  /** One unit in the last digit the broker quotes, in 1e-5. */
  function PriceUnit(digits: nat): (unit: int)
    ensures unit > 0
  {
    match digits
    case 0 => 100000
    case 1 => 10000
    case 2 => 1000
    case 3 => 100
    case 4 => 10
    case _ => 1
  }

  /** A same-symbol, same-direction order on a netting account grows the open position. */
  function Merge(position: Position, volume: nat, price: int, unit: int): Position
    requires unit > 0
  {
    var total := position.volume + volume;
    if total == 0 then
      position
    else
      var weighted := position.openPrice * position.volume + price * volume;
      position.(openPrice := Round(weighted, total * unit) * unit, volume := total)
  }

  function OpenPosition(account: Account, request: OpenRequest, price: int): (Account, OrderResult) {
    if request.symbol !in SYMBOLS then
      (account, Rejected(INVALID_SYMBOL))
    else if request.volume < SYMBOLS[request.symbol].minLot || request.volume > SYMBOLS[request.symbol].maxLot then
      (account, Rejected(INVALID_VOLUME))
    else
      var existing := FirstLive(account, request.symbol, 0);
      if account.netting && existing.Some? && account.positions[existing.value].orderType == request.orderType then
        var t := existing.value;
        var merged := Merge(account.positions[t], request.volume, price, PriceUnit(SYMBOLS[request.symbol].digits));
        (account.(positions := account.positions[t := merged]), Executed(t, None, Some(price), Some(request.volume)))
      else
        var t := account.nextTicket;
        var position := Position(t, request.symbol, request.orderType, request.volume, price, price,
                                 request.sl, request.tp, request.clientId, false);
        (account.(nextTicket := t + 1, positions := account.positions[t := position]),
         Executed(t, None, Some(price), Some(request.volume)))
  }

  function ModifyPosition(account: Account, ticket: Ticket, sl: Option<int>, tp: Option<int>): (Account, OrderResult) {
    if !IsLive(account, ticket) then
      (account, Rejected(POSITION_NOT_FOUND))
    else
      var position := account.positions[ticket];
      var changed := position.(sl := if sl.Some? then sl else position.sl, tp := if tp.Some? then tp else position.tp);
      (account.(positions := account.positions[ticket := changed]), Executed(ticket, None, None, None))
  }

  function ContractSize(symbol: Symbol): int {
    if symbol == "XAUUSD" then 100
    else if symbol in {"EURUSD", "GBPUSD", "USDJPY", "BTCUSD"} then 100000
    else 1
  }

  /** Profit, in cents, of closing `volume` of a position at `price`. */
  function ProfitOf(position: Position, volume: nat, price: int): int {
    var direction := if position.orderType.IsBuy() then 1 else -1;
    Round((price - position.openPrice) * direction * volume * ContractSize(position.symbol), 100000000)
  }

  function ClosePosition(account: Account, ticket: Ticket, volume: Option<nat>, price: int, now: int)
    : (Account, OrderResult)
  {
    if !IsLive(account, ticket) then
      (account, Rejected(POSITION_NOT_FOUND))
    else
      var position := account.positions[ticket];
      var closing := volume.GetOr(position.volume);
      var profit := ProfitOf(position, closing, price);
      var record := CloseRecord(ticket, position.symbol, position.orderType, position.openPrice,
                                position.currentPrice, profit, closing, now, COPIED_CLOSE);
      var booked := account.(balance := account.balance + profit, closes := account.closes[ticket := record]);
      if closing >= position.volume then
        (booked.(positions := account.positions[ticket := position.(closed := true)]),
         Executed(ticket, None, None, Some(closing)))
      else if account.platform == MT4 then
        var t := account.nextTicket;
        var remainder := position.(ticket := t, volume := position.volume - closing, closed := false);
        (booked.(nextTicket := t + 1,
                 positions := account.positions[ticket := position.(closed := true)][t := remainder]),
         Executed(ticket, Some(t), None, Some(closing)))
      else
        (booked.(positions := account.positions[ticket := position.(volume := position.volume - closing)]),
         Executed(ticket, None, None, Some(closing)))
  }

  function GetClosedPosition(account: Account, ticket: Ticket): Option<CloseRecord> {
    if ticket in account.closes then Some(account.closes[ticket]) else None
  }

  // ---- What a close earns ---------------------------------------------------

  /** Units of the traded asset in one lot of each symbol. */
  const LOT_SIZES: map<Symbol, int> := map[
    "XAUUSD" := 100,
    "EURUSD" := 100000,
    "GBPUSD" := 100000,
    "USDJPY" := 100000,
    "BTCUSD" := 100000,
    "US30" := 1
  ]

  /** How far the price went the position's way: up for the buying kinds, down for the selling ones. */
  function MoveInFavour(orderType: OrderType, from: int, to: int): int {
    match orderType
    case BUY => to - from
    case BUY_LIMIT => to - from
    case BUY_STOP => to - from
    case SELL => from - to
    case SELL_LIMIT => from - to
    case SELL_STOP => from - to
  }

  /** `profit` cents is, to the nearest cent, what `volume` hundredths of a lot earn between two prices. */
  ghost predicate EarnsMove(profit: int, symbol: Symbol, orderType: OrderType, volume: nat, from: int, to: int) {
    symbol in LOT_SIZES && IsNearest(profit, MoveInFavour(orderType, from, to) * volume * LOT_SIZES[symbol], 100000000)
  }

  lemma ProductsAgree(move: int, direction: int, volume: nat, size: int, signed: int)
    requires direction == 1 || direction == -1
    requires signed == move * direction
    ensures move * direction * volume * size == signed * volume * size
  {
  }

  lemma ProfitEarnsMove(p: Position, volume: nat, price: int)
    requires p.symbol in LOT_SIZES
    ensures EarnsMove(ProfitOf(p, volume, price), p.symbol, p.orderType, volume, p.openPrice, price)
  {
    ProductsAgree(price - p.openPrice, if p.orderType.IsBuy() then 1 else -1, volume, LOT_SIZES[p.symbol],
                  MoveInFavour(p.orderType, p.openPrice, price));
  }

  // ---- The provider object -------------------------------------------------

  class MockTradingProvider {
    var accounts: map<AccountId, Account>

    constructor ()
      ensures accounts == map[]
    {
      accounts := map[];
    }

    method Open(id: AccountId, request: OpenRequest, price: int) returns (result: OrderResult)
      modifies this
      ensures id !in old(accounts) ==> accounts == old(accounts) && result == Rejected(PLATFORM_CONNECTION_ERROR)
      ensures id in old(accounts) ==>
                && accounts == old(accounts)[id := OpenPosition(old(accounts)[id], request, price).0]
                && result == OpenPosition(old(accounts)[id], request, price).1
    {
      if id !in accounts {
        return Rejected(PLATFORM_CONNECTION_ERROR);
      }
      var account := accounts[id];
      if request.symbol !in SYMBOLS {
        assert accounts == accounts[id := account];
        return Rejected(INVALID_SYMBOL);
      }
      var info := SYMBOLS[request.symbol];
      if request.volume < info.minLot || request.volume > info.maxLot {
        assert accounts == accounts[id := account];
        return Rejected(INVALID_VOLUME);
      }
      if account.netting {
        var existing := FirstLive(account, request.symbol, 0);
        if existing.Some? && account.positions[existing.value].orderType == request.orderType {
          var t := existing.value;
          var merged := Merge(account.positions[t], request.volume, price, PriceUnit(info.digits));
          accounts := accounts[id := account.(positions := account.positions[t := merged])];
          return Executed(t, None, Some(price), Some(request.volume));
        }
      }
      var ticket := account.nextTicket;
      account := account.(nextTicket := ticket + 1);
      var position := Position(ticket, request.symbol, request.orderType, request.volume, price, price,
                               request.sl, request.tp, request.clientId, false);
      account := account.(positions := account.positions[ticket := position]);
      accounts := accounts[id := account];
      result := Executed(ticket, None, Some(price), Some(request.volume));
    }

    method Modify(id: AccountId, ticket: Ticket, sl: Option<int>, tp: Option<int>) returns (result: OrderResult)
      modifies this
      ensures id !in old(accounts) ==> accounts == old(accounts) && result == Rejected(PLATFORM_CONNECTION_ERROR)
      ensures id in old(accounts) ==>
                && accounts == old(accounts)[id := ModifyPosition(old(accounts)[id], ticket, sl, tp).0]
                && result == ModifyPosition(old(accounts)[id], ticket, sl, tp).1
    {
      if id !in accounts {
        return Rejected(PLATFORM_CONNECTION_ERROR);
      }
      var account := accounts[id];
      if ticket !in account.positions || account.positions[ticket].closed {
        assert accounts == accounts[id := account];
        return Rejected(POSITION_NOT_FOUND);
      }
      var position := account.positions[ticket];
      if sl.Some? {
        position := position.(sl := sl);
      }
      if tp.Some? {
        position := position.(tp := tp);
      }
      accounts := accounts[id := account.(positions := account.positions[ticket := position])];
      result := Executed(ticket, None, None, None);
    }

    method Close(id: AccountId, ticket: Ticket, volume: Option<nat>, price: int, now: int) returns (result: OrderResult)
      modifies this
      ensures id !in old(accounts) ==> accounts == old(accounts) && result == Rejected(PLATFORM_CONNECTION_ERROR)
      ensures id in old(accounts) ==>
                && accounts == old(accounts)[id := ClosePosition(old(accounts)[id], ticket, volume, price, now).0]
                && result == ClosePosition(old(accounts)[id], ticket, volume, price, now).1
      ensures id in old(accounts) && IsLive(old(accounts)[id], ticket) ==>
                var p := old(accounts)[id].positions[ticket];
                p.symbol in LOT_SIZES ==>
                  EarnsMove(accounts[id].balance - old(accounts)[id].balance, p.symbol, p.orderType,
                            volume.GetOr(p.volume), p.openPrice, price)
    {
      if id !in accounts {
        return Rejected(PLATFORM_CONNECTION_ERROR);
      }
      var account := accounts[id];
      if ticket !in account.positions || account.positions[ticket].closed {
        assert accounts == accounts[id := account];
        return Rejected(POSITION_NOT_FOUND);
      }
      var position := account.positions[ticket];
      var closing := volume.GetOr(position.volume);
      var profit := ProfitOf(position, closing, price);
      if position.symbol in LOT_SIZES {
        ProfitEarnsMove(position, closing, price);
      }
      account := account.(balance := account.balance + profit);
      account := account.(closes := account.closes[ticket := CloseRecord(
        ticket, position.symbol, position.orderType, position.openPrice, position.currentPrice,
        profit, closing, now, COPIED_CLOSE)]);
      if closing >= position.volume {
        account := account.(positions := account.positions[ticket := position.(closed := true)]);
        accounts := accounts[id := account];
        return Executed(ticket, None, None, Some(closing));
      }
      var remainder := position.volume - closing;
      if account.platform == MT4 {
        account := account.(positions := account.positions[ticket := position.(closed := true)]);
        var newTicket := account.nextTicket;
        account := account.(nextTicket := newTicket + 1);
        account := account.(positions := account.positions[newTicket :=
          position.(ticket := newTicket, volume := remainder, closed := false)]);
        accounts := accounts[id := account];
        return Executed(ticket, Some(newTicket), None, Some(closing));
      }
      account := account.(positions := account.positions[ticket := position.(volume := remainder)]);
      accounts := accounts[id := account];
      result := Executed(ticket, None, None, Some(closing));
    }
  }
}
