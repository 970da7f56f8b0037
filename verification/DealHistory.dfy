/** Rebuilding trades from broker deals (src/providers/trading/MetaApiProvider.ts). */
module DealHistory {
  import opened Common
  import opened TradeTypes
  import NewestFirst

  type PositionId = string

  datatype Deal = Deal(
    positionId: Option<PositionId>,
    symbol: Option<Symbol>,
    isEntry: bool,
    isSell: bool,
    price: int,
    volume: Option<nat>,
    profit: Option<int>,
    commission: Option<int>,
    swap: Option<int>,
    time: int,
    reason: Option<string>)

  type Trade = AccountTrade<PositionId>

  datatype ClosedPosition = ClosedPosition(
    closePrice: int, profit: int, volume: Option<nat>, closedAt: int, reason: Option<CloseReason>)

  /** Deals without a position or a symbol are deposits, credits and corrections, not trades. */
  predicate Eligible(d: Deal) {
    d.positionId.Some? && d.positionId.value != "" && d.symbol.Some? && d.symbol.value != ""
  }

  function EligibleDeals(deals: seq<Deal>): seq<Deal> {
    if deals == [] then []
    else EligibleDeals(deals[..|deals| - 1]) + (if Eligible(deals[|deals| - 1]) then [deals[|deals| - 1]] else [])
  }

  predicate BelongsTo(d: Deal, id: PositionId) {
    Eligible(d) && d.positionId.value == id
  }

  /** The deals of one position, in order. */
  function GroupOf(deals: seq<Deal>, id: PositionId): seq<Deal> {
    if deals == [] then []
    else GroupOf(deals[..|deals| - 1], id) + (if BelongsTo(deals[|deals| - 1], id) then [deals[|deals| - 1]] else [])
  }

  /** Positions in the order of their first deal. */
  function PositionOrder(deals: seq<Deal>): seq<PositionId> {
    if deals == [] then []
    else
      var before, d := PositionOrder(deals[..|deals| - 1]), deals[|deals| - 1];
      if Eligible(d) && d.positionId.value !in before then before + [d.positionId.value] else before
  }

  function Exits(group: seq<Deal>): seq<Deal> {
    if group == [] then []
    else Exits(group[..|group| - 1]) + (if !group[|group| - 1].isEntry then [group[|group| - 1]] else [])
  }

  function FirstEntry(group: seq<Deal>): Option<Deal> {
    if group == [] then None
    else if group[0].isEntry then Some(group[0])
    else FirstEntry(group[1..])
  }

  function DirectionOf(entry: Option<Deal>, exit: Deal): OrderType {
    match entry
    case Some(d) => if d.isSell then SELL else BUY
    case None => if exit.isSell then BUY else SELL
  }

  function CloseReasonOf(reason: Option<string>): Option<CloseReason> {
    match reason
    case None => None
    case Some(r) =>
      if r == "DEAL_REASON_SL" then Some(STOP_LOSS)
      else if r == "DEAL_REASON_TP" then Some(TAKE_PROFIT)
      else if r == "DEAL_REASON_EXPERT" then Some(COPIED_CLOSE)
      else if r == "DEAL_REASON_CLIENT" || r == "DEAL_REASON_MOBILE" || r == "DEAL_REASON_WEB" then Some(MANUAL)
      else Some(OTHER)
  }

  function SumProfit(deals: seq<Deal>): int {
    if deals == [] then 0 else SumProfit(deals[..|deals| - 1]) + deals[|deals| - 1].profit.GetOr(0)
  }

  function SumCommission(deals: seq<Deal>): int {
    if deals == [] then 0 else SumCommission(deals[..|deals| - 1]) + deals[|deals| - 1].commission.GetOr(0)
  }

  function SumSwap(deals: seq<Deal>): int {
    if deals == [] then 0 else SumSwap(deals[..|deals| - 1]) + deals[|deals| - 1].swap.GetOr(0)
  }

  function SumVolume(deals: seq<Deal>): nat {
    if deals == [] then 0 else SumVolume(deals[..|deals| - 1]) + deals[|deals| - 1].volume.GetOr(0)
  }

  /** What one deal moved the balance by. */
  function NetOf(d: Deal): int {
    d.profit.GetOr(0) + d.commission.GetOr(0) + d.swap.GetOr(0)
  }

  function SumNet(deals: seq<Deal>): int {
    if deals == [] then 0 else SumNet(deals[..|deals| - 1]) + NetOf(deals[|deals| - 1])
  }

  function TradeFor(ticket: PositionId, group: seq<Deal>): Option<Trade> {
    var exits := Exits(group);
    if exits == [] then
      None
    else
      var entry, last := FirstEntry(group), exits[|exits| - 1];
      Some(AccountTrade(
        ticket,
        if entry.Some? && entry.value.symbol.Some? then entry.value.symbol.value else last.symbol.GetOr(""),
        DirectionOf(entry, last),
        SumVolume(exits),
        if entry.Some? then Some(entry.value.price) else None,
        Some(last.price),
        SumProfit(group) + SumCommission(group) + SumSwap(group),
        Some(SumCommission(group)),
        Some(SumSwap(group)),
        if entry.Some? then Some(entry.value.time) else None,
        last.time,
        CloseReasonOf(last.reason)))
  }

  /** The realised result of one position, from its own deals. */
  function GetClosedPosition(group: seq<Deal>): Option<ClosedPosition> {
    var closing := Exits(group);
    if closing == [] then
      None
    else
      var last := closing[|closing| - 1];
      var volume := SumVolume(closing);
      Some(ClosedPosition(last.price, SumNet(group), if volume == 0 then None else Some(volume), last.time,
                          CloseReasonOf(last.reason)))
  }

  /** One trade per closed position, in first-deal order. */
  function TradesOf(deals: seq<Deal>, order: seq<PositionId>): seq<Trade> {
    if order == [] then []
    else
      var id := order[|order| - 1];
      var trade := TradeFor(id, GroupOf(deals, id));
      TradesOf(deals, order[..|order| - 1]) + (if trade.Some? then [trade.value] else [])
  }

  const CLOSED_AT: Trade -> int := (trade: Trade) => trade.closedAt

  method GroupByPosition(deals: seq<Deal>) returns (order: seq<PositionId>, byPosition: map<PositionId, seq<Deal>>)
    ensures order == PositionOrder(deals)
    ensures forall id :: id in byPosition <==> id in order
    ensures forall id :: id in byPosition ==> byPosition[id] == GroupOf(deals, id)
  {
    order, byPosition := [], map[];
    for i := 0 to |deals|
      invariant order == PositionOrder(deals[..i])
      invariant forall id :: id in byPosition <==> id in order
      invariant forall id :: id in byPosition ==> byPosition[id] == GroupOf(deals[..i], id)
      invariant forall id :: id !in byPosition ==> GroupOf(deals[..i], id) == []
    {
      assert deals[..i + 1][..i] == deals[..i];
      var deal := deals[i];
      if deal.positionId.None? || deal.positionId.value == "" || deal.symbol.None? || deal.symbol.value == "" {
        continue;
      }
      var id := deal.positionId.value;
      if id in byPosition {
        byPosition := byPosition[id := byPosition[id] + [deal]];
      } else {
        byPosition := byPosition[id := [deal]];
        order := order + [id];
      }
    }
    assert deals[..|deals|] == deals;
  }

  lemma TradesStep(deals: seq<Deal>, order: seq<PositionId>, i: nat)
    requires i < |order|
    ensures var trade := TradeFor(order[i], GroupOf(deals, order[i]));
            TradesOf(deals, order[..i + 1]) == TradesOf(deals, order[..i]) + (if trade.Some? then [trade.value] else [])
  {
    assert order[..i + 1][..i] == order[..i];
  }

  method GroupDealsIntoTrades(deals: seq<Deal>, limit: nat) returns (trades: seq<Trade>)
    ensures var all := NewestFirst.Sort(CLOSED_AT, TradesOf(deals, PositionOrder(deals)));
            trades == if limit <= |all| then all[..limit] else all
  {
    var order, byPosition := GroupByPosition(deals);
    trades := [];
    for i := 0 to |order|
      invariant trades == TradesOf(deals, order[..i])
    {
      assert order[i] in order;
      TradesStep(deals, order, i);
      var trade := TradeFor(order[i], byPosition[order[i]]);
      if trade.Some? {
        trades := trades + [trade.value];
      }
    }
    assert order[..|order|] == order;
    trades := NewestFirst.Sort(CLOSED_AT, trades);
    if limit <= |trades| {
      trades := trades[..limit];
    }
  }

  // ---- The groups partition the deals --------------------------------------

  lemma {:induction false} OrderMeaning(deals: seq<Deal>, id: PositionId)
    ensures id in PositionOrder(deals) <==> GroupOf(deals, id) != []
    ensures forall i, j :: 0 <= i < j < |PositionOrder(deals)| ==> PositionOrder(deals)[i] != PositionOrder(deals)[j]
  {
    if deals != [] {
      OrderMeaning(deals[..|deals| - 1], id);
    }
  }

  /** How often a deal occurs in the groups, taken together. */
  ghost function Grouped(deals: seq<Deal>, order: seq<PositionId>, x: Deal): nat {
    if order == [] then 0 else Grouped(deals, order[..|order| - 1], x) + multiset(GroupOf(deals, order[|order| - 1]))[x]
  }

  ghost predicate Distinct(order: seq<PositionId>) {
    forall i, j :: 0 <= i < j < |order| ==> order[i] != order[j]
  }

  lemma LastIsNew(order: seq<PositionId>)
    requires order != [] && Distinct(order)
    ensures order[|order| - 1] !in order[..|order| - 1]
    ensures forall id :: id in order <==> id in order[..|order| - 1] || id == order[|order| - 1]
  {
    assert order == order[..|order| - 1] + [order[|order| - 1]];
  }

  // What the last deal adds.

  lemma GroupGrows(deals: seq<Deal>, id: PositionId, x: Deal)
    requires deals != []
    ensures var before, d := deals[..|deals| - 1], deals[|deals| - 1];
            multiset(GroupOf(deals, id))[x]
            == multiset(GroupOf(before, id))[x] + (if d == x && BelongsTo(d, id) then 1 else 0)
  {
  }

  lemma {:induction false} GroupedGrows(deals: seq<Deal>, order: seq<PositionId>, x: Deal)
    requires deals != [] && Distinct(order)
    ensures var before, d := deals[..|deals| - 1], deals[|deals| - 1];
            Grouped(deals, order, x)
            == Grouped(before, order, x) + (if d == x && Eligible(d) && d.positionId.value in order then 1 else 0)
  {
    if order != [] {
      var others, id := order[..|order| - 1], order[|order| - 1];
      GroupedGrows(deals, others, x);
      GroupGrows(deals, id, x);
      LastIsNew(order);
    }
  }

  lemma GroupedStep(deals: seq<Deal>, x: Deal)
    requires deals != []
    ensures var before, d := deals[..|deals| - 1], deals[|deals| - 1];
            Grouped(deals, PositionOrder(deals), x)
            == Grouped(before, PositionOrder(before), x) + (if d == x && Eligible(d) then 1 else 0)
  {
    var before, d := deals[..|deals| - 1], deals[|deals| - 1];
    var order := PositionOrder(before);
    OrderMeaning(before, "");
    GroupedGrows(deals, order, x);
    if Eligible(d) && d.positionId.value !in order {
      var id := d.positionId.value;
      OrderMeaning(before, id);
      GroupGrows(deals, id, x);
      assert (order + [id])[..|order|] == order;
    }
  }

  /** Where the deals of one position were reported. */
  function Places(deals: seq<Deal>, id: PositionId): (places: seq<nat>)
    ensures forall i :: 0 <= i < |places| ==> places[i] < |deals|
    ensures forall i, j :: 0 <= i < j < |places| ==> places[i] < places[j]
  {
    if deals == [] then []
    else Places(deals[..|deals| - 1], id) + (if BelongsTo(deals[|deals| - 1], id) then [|deals| - 1] else [])
  }

  lemma {:induction false} PlacesAreAll(deals: seq<Deal>, id: PositionId, p: nat)
    requires p < |deals|
    ensures BelongsTo(deals[p], id) <==> p in Places(deals, id)
  {
    if p < |deals| - 1 {
      PlacesAreAll(deals[..|deals| - 1], id, p);
    } else if p in Places(deals[..|deals| - 1], id) {
      assert false;
    }
  }

  /** A group is exactly the position's deals, in the order they were reported. */
  lemma {:induction false} GroupKeepsOrder(deals: seq<Deal>, id: PositionId, i: nat)
    ensures |GroupOf(deals, id)| == |Places(deals, id)|
    ensures i < |Places(deals, id)| ==> GroupOf(deals, id)[i] == deals[Places(deals, id)[i]]
  {
    if deals != [] {
      GroupKeepsOrder(deals[..|deals| - 1], id, i);
    }
  }

  /** Every eligible deal lands in exactly one group, once for each time it was reported, and nothing else does. */
  lemma {:induction false} GroupsPartitionDeals(deals: seq<Deal>, x: Deal)
    ensures Grouped(deals, PositionOrder(deals), x) == multiset(EligibleDeals(deals))[x]
  {
    if deals != [] {
      GroupsPartitionDeals(deals[..|deals| - 1], x);
      GroupedStep(deals, x);
    }
  }

  // ---- One trade per closed position, and no money lost ---------------------

  predicate IsClosed(deals: seq<Deal>, id: PositionId) {
    Exits(GroupOf(deals, id)) != []
  }

  lemma {:induction false} TradesMeaning(deals: seq<Deal>, order: seq<PositionId>, id: PositionId)
    requires Distinct(order)
    ensures forall trade :: trade in TradesOf(deals, order) ==>
              trade.ticket in order && TradeFor(trade.ticket, GroupOf(deals, trade.ticket)) == Some(trade)
    ensures id in order && IsClosed(deals, id) ==> TradeFor(id, GroupOf(deals, id)).value in TradesOf(deals, order)
    ensures forall i, j :: 0 <= i < j < |TradesOf(deals, order)| ==>
              TradesOf(deals, order)[i].ticket != TradesOf(deals, order)[j].ticket
  {
    if order != [] {
      var before, last := order[..|order| - 1], order[|order| - 1];
      TradesMeaning(deals, before, id);
      assert order == before + [last];
      assert last !in before;
      forall i | 0 <= i < |TradesOf(deals, before)|
        ensures TradesOf(deals, before)[i].ticket in before
      {
        assert TradesOf(deals, before)[i] in TradesOf(deals, before);
      }
    }
  }

  /** Each position with an exit deal gives exactly one trade before the limit cut, and nothing else does. */
  lemma OneTradePerClosedPosition(deals: seq<Deal>, id: PositionId)
    ensures var trades := TradesOf(deals, PositionOrder(deals));
            && (IsClosed(deals, id) <==> exists i :: 0 <= i < |trades| && trades[i].ticket == id)
            && (forall i, j :: 0 <= i < j < |trades| ==> trades[i].ticket != trades[j].ticket)
  {
    OrderMeaning(deals, id);
    TradesMeaning(deals, PositionOrder(deals), id);
    var trades := TradesOf(deals, PositionOrder(deals));
    if IsClosed(deals, id) {
      var trade := TradeFor(id, GroupOf(deals, id)).value;
      assert trade in trades && trade.ticket == id;
    }
    forall i | 0 <= i < |trades| && trades[i].ticket == id
      ensures IsClosed(deals, id)
    {
      assert trades[i] in trades;
    }
  }

  lemma {:induction false} NetIsSum(deals: seq<Deal>)
    ensures SumNet(deals) == SumProfit(deals) + SumCommission(deals) + SumSwap(deals)
  {
    if deals != [] {
      NetIsSum(deals[..|deals| - 1]);
    }
  }

  function TotalProfit(trades: seq<Trade>): int {
    if trades == [] then 0 else TotalProfit(trades[..|trades| - 1]) + trades[|trades| - 1].profit
  }

  /** The deals of closed positions, taken straight from the deal list. */
  function ClosedDeals(deals: seq<Deal>, all: seq<Deal>): seq<Deal> {
    if deals == [] then []
    else
      var d := deals[|deals| - 1];
      ClosedDeals(deals[..|deals| - 1], all)
      + (if Eligible(d) && IsClosed(all, d.positionId.value) then [d] else [])
  }

  /** Money of the deals of closed positions among `order`. */
  function ClosedNet(deals: seq<Deal>, all: seq<Deal>, order: seq<PositionId>): int {
    if order == [] then 0
    else
      var id := order[|order| - 1];
      ClosedNet(deals, all, order[..|order| - 1]) + (if IsClosed(all, id) then SumNet(GroupOf(deals, id)) else 0)
  }

  lemma SumNetAppend(deals: seq<Deal>, d: Deal)
    ensures SumNet(deals + [d]) == SumNet(deals) + NetOf(d)
  {
    assert (deals + [d])[..|deals|] == deals;
  }

  lemma GroupAppend(deals: seq<Deal>, d: Deal, id: PositionId)
    ensures GroupOf(deals + [d], id) == GroupOf(deals, id) + (if BelongsTo(d, id) then [d] else [])
    ensures SumNet(GroupOf(deals + [d], id)) == SumNet(GroupOf(deals, id)) + (if BelongsTo(d, id) then NetOf(d) else 0)
  {
    assert (deals + [d])[..|deals|] == deals;
    SumNetAppend(GroupOf(deals, id), d);
    assert GroupOf(deals, id) + [] == GroupOf(deals, id);
  }

  lemma {:induction false} ClosedNetGrows(deals: seq<Deal>, d: Deal, all: seq<Deal>, order: seq<PositionId>)
    requires Distinct(order)
    ensures ClosedNet(deals + [d], all, order)
            == ClosedNet(deals, all, order)
               + (if Eligible(d) && d.positionId.value in order && IsClosed(all, d.positionId.value) then NetOf(d)
                  else 0)
  {
    if order != [] {
      var before, id := order[..|order| - 1], order[|order| - 1];
      ClosedNetGrows(deals, d, all, before);
      GroupAppend(deals, d, id);
      assert id !in before;
      assert order == before + [id];
    }
  }

  lemma {:induction false} ClosedNetOfNothing(all: seq<Deal>, order: seq<PositionId>)
    ensures ClosedNet([], all, order) == 0
  {
    if order != [] {
      ClosedNetOfNothing(all, order[..|order| - 1]);
    }
  }

  lemma {:induction false} ClosedNetIsDirect(deals: seq<Deal>, all: seq<Deal>, order: seq<PositionId>)
    requires Distinct(order)
    requires forall d :: d in deals && Eligible(d) ==> d.positionId.value in order
    ensures ClosedNet(deals, all, order) == SumNet(ClosedDeals(deals, all))
  {
    if deals == [] {
      ClosedNetOfNothing(all, order);
    } else {
      var before, d := deals[..|deals| - 1], deals[|deals| - 1];
      assert deals == before + [d];
      ClosedNetIsDirect(before, all, order);
      ClosedNetGrows(before, d, all, order);
      SumNetAppend(ClosedDeals(before, all), d);
      assert ClosedDeals(before, all) + [] == ClosedDeals(before, all);
    }
  }

  lemma TradeProfit(id: PositionId, group: seq<Deal>)
    ensures TradeFor(id, group).Some? <==> Exits(group) != []
    ensures TradeFor(id, group).Some? ==> TradeFor(id, group).value.profit == SumNet(group)
  {
    NetIsSum(group);
  }

  lemma TotalProfitAppend(trades: seq<Trade>, trade: Trade)
    ensures TotalProfit(trades + [trade]) == TotalProfit(trades) + trade.profit
  {
    assert (trades + [trade])[..|trades|] == trades;
  }

  lemma {:induction false} TradesProfit(deals: seq<Deal>, order: seq<PositionId>)
    ensures TotalProfit(TradesOf(deals, order)) == ClosedNet(deals, deals, order)
  {
    if order != [] {
      var before, id := order[..|order| - 1], order[|order| - 1];
      TradesProfit(deals, before);
      TradeProfit(id, GroupOf(deals, id));
      var trade := TradeFor(id, GroupOf(deals, id));
      if trade.Some? {
        TotalProfitAppend(TradesOf(deals, before), trade.value);
      } else {
        assert TradesOf(deals, before) + [] == TradesOf(deals, before);
      }
    }
  }

  lemma {:induction false} EligibleAreOrdered(deals: seq<Deal>)
    ensures forall d :: d in deals && Eligible(d) ==> d.positionId.value in PositionOrder(deals)
  {
    if deals != [] {
      EligibleAreOrdered(deals[..|deals| - 1]);
      assert deals == deals[..|deals| - 1] + [deals[|deals| - 1]];
    }
  }

  /**
   * Grouping conserves money: the trades' profits are the balance moves of the
   * deals of closed positions, to the cent.
   */
  lemma GroupingConservesMoney(deals: seq<Deal>)
    ensures TotalProfit(TradesOf(deals, PositionOrder(deals))) == SumNet(ClosedDeals(deals, deals))
  {
    OrderMeaning(deals, "");
    EligibleAreOrdered(deals);
    TradesProfit(deals, PositionOrder(deals));
    ClosedNetIsDirect(deals, deals, PositionOrder(deals));
  }

  /** Each trade says what `getClosedPosition` says about the same deals. */
  lemma TradesAgreeWithClosedPosition(deals: seq<Deal>, trade: Trade)
    requires trade in TradesOf(deals, PositionOrder(deals))
    ensures var closed := GetClosedPosition(GroupOf(deals, trade.ticket));
            && closed.Some?
            && closed.value.profit == trade.profit && Some(closed.value.closePrice) == trade.closePrice
            && closed.value.volume == (if trade.volume == 0 then None else Some(trade.volume))
            && closed.value.closedAt == trade.closedAt && closed.value.reason == trade.reason
  {
    OrderMeaning(deals, trade.ticket);
    TradesMeaning(deals, PositionOrder(deals), trade.ticket);
    NetIsSum(GroupOf(deals, trade.ticket));
  }

  /** Everything the broker reports for a position, also deals that name no symbol. */
  function PositionDeals(deals: seq<Deal>, id: PositionId): seq<Deal> {
    if deals == [] then []
    else
      var d := deals[|deals| - 1];
      PositionDeals(deals[..|deals| - 1], id) + (if d.positionId == Some(id) then [d] else [])
  }

  /** The position's deals the grouping drops. */
  function Dropped(deals: seq<Deal>, id: PositionId): seq<Deal> {
    if deals == [] then []
    else
      var d := deals[|deals| - 1];
      Dropped(deals[..|deals| - 1], id) + (if d.positionId == Some(id) && !BelongsTo(d, id) then [d] else [])
  }

  lemma SumNetOptional(deals: seq<Deal>, d: Deal, taken: bool)
    ensures SumNet(deals + if taken then [d] else []) == SumNet(deals) + if taken then NetOf(d) else 0
  {
    if taken {
      SumNetAppend(deals, d);
    } else {
      assert deals + [] == deals;
    }
  }

  lemma {:induction false} DroppedMoney(deals: seq<Deal>, id: PositionId)
    ensures SumNet(PositionDeals(deals, id)) == SumNet(GroupOf(deals, id)) + SumNet(Dropped(deals, id))
  {
    if deals != [] {
      var before, d := deals[..|deals| - 1], deals[|deals| - 1];
      DroppedMoney(before, id);
      SumNetOptional(PositionDeals(before, id), d, d.positionId == Some(id));
      SumNetOptional(GroupOf(before, id), d, BelongsTo(d, id));
      SumNetOptional(Dropped(before, id), d, d.positionId == Some(id) && !BelongsTo(d, id));
    }
  }

  lemma {:induction false} NothingDropped(deals: seq<Deal>, id: PositionId)
    requires Dropped(deals, id) == []
    ensures PositionDeals(deals, id) == GroupOf(deals, id)
  {
    if deals != [] {
      NothingDropped(deals[..|deals| - 1], id);
    }
  }

  lemma {:induction false} ExitsMeaning(group: seq<Deal>)
    ensures Exits(group) != [] <==> exists d :: d in group && !d.isEntry
  {
    if group != [] {
      ExitsMeaning(group[..|group| - 1]);
      assert group == group[..|group| - 1] + [group[|group| - 1]];
    }
  }

  lemma {:induction false} GroupWithinPosition(deals: seq<Deal>, id: PositionId, d: Deal)
    requires d in GroupOf(deals, id)
    ensures d in PositionDeals(deals, id)
  {
    if d in GroupOf(deals[..|deals| - 1], id) {
      GroupWithinPosition(deals[..|deals| - 1], id, d);
    }
  }

  // What the window leaves out.

  lemma {:induction false} PositionDealsConcat(a: seq<Deal>, b: seq<Deal>, id: PositionId)
    ensures PositionDeals(a + b, id) == PositionDeals(a, id) + PositionDeals(b, id)
  {
    if b == [] {
      assert a + b == a;
    } else {
      PositionDealsConcat(a, b[..|b| - 1], id);
      assert (a + b)[..|a + b| - 1] == a + b[..|b| - 1];
    }
  }

  lemma {:induction false} GroupConcat(a: seq<Deal>, b: seq<Deal>, id: PositionId)
    ensures GroupOf(a + b, id) == GroupOf(a, id) + GroupOf(b, id)
  {
    if b == [] {
      assert a + b == a;
    } else {
      GroupConcat(a, b[..|b| - 1], id);
      assert (a + b)[..|a + b| - 1] == a + b[..|b| - 1];
    }
  }

  lemma {:induction false} ExitsConcat(a: seq<Deal>, b: seq<Deal>)
    ensures Exits(a + b) == Exits(a) + Exits(b)
  {
    if b == [] {
      assert a + b == a;
    } else {
      ExitsConcat(a, b[..|b| - 1]);
      assert (a + b)[..|a + b| - 1] == a + b[..|b| - 1];
    }
  }

  lemma {:induction false} SumNetConcat(a: seq<Deal>, b: seq<Deal>)
    ensures SumNet(a + b) == SumNet(a) + SumNet(b)
  {
    if b == [] {
      assert a + b == a;
    } else {
      SumNetConcat(a, b[..|b| - 1]);
      assert (a + b)[..|a + b| - 1] == a + b[..|b| - 1];
    }
  }

  lemma {:induction false} FirstEntryConcat(a: seq<Deal>, b: seq<Deal>)
    ensures FirstEntry(a + b) == if FirstEntry(a).Some? then FirstEntry(a) else FirstEntry(b)
  {
    if a == [] {
      assert a + b == b;
    } else if !a[0].isEntry {
      FirstEntryConcat(a[1..], b);
      assert (a + b)[1..] == a[1..] + b;
    }
  }

  /** Money of a position that the window's trade does not see. */
  function Unseen(older: seq<Deal>, window: seq<Deal>, newer: seq<Deal>, id: PositionId): int {
    SumNet(PositionDeals(older, id)) + SumNet(Dropped(window, id)) + SumNet(PositionDeals(newer, id))
  }

  lemma AllPositionMoney(older: seq<Deal>, window: seq<Deal>, newer: seq<Deal>, id: PositionId)
    ensures SumNet(PositionDeals(older + window + newer, id)) == SumNet(GroupOf(window, id)) +
              Unseen(older, window, newer, id)
    ensures PositionDeals(older + window + newer, id)
            == PositionDeals(older, id) + PositionDeals(window, id) + PositionDeals(newer, id)
  {
    PositionDealsConcat(older + window, newer, id);
    PositionDealsConcat(older, window, id);
    SumNetConcat(PositionDeals(older, id) + PositionDeals(window, id), PositionDeals(newer, id));
    SumNetConcat(PositionDeals(older, id), PositionDeals(window, id));
    DroppedMoney(window, id);
  }

  lemma LookupFindsWindowTrades(older: seq<Deal>, window: seq<Deal>, newer: seq<Deal>, trade: Trade)
    requires trade in TradesOf(window, PositionOrder(window))
    ensures GetClosedPosition(PositionDeals(older + window + newer, trade.ticket)).Some?
  {
    var id := trade.ticket;
    TradesAgreeWithClosedPosition(window, trade);
    AllPositionMoney(older, window, newer, id);
    ExitsMeaning(GroupOf(window, id));
    ExitsMeaning(PositionDeals(older + window + newer, id));
    var d :| d in GroupOf(window, id) && !d.isEntry;
    GroupWithinPosition(window, id, d);
    assert d in PositionDeals(older + window + newer, id);
  }

  /**
   * The history sees a window of the deals, the lookup of one position sees all
   * of them. A trade's profit is what the lookup says if and only if the deals
   * outside the window, and those in it that name no symbol, net to nothing.
   */
  lemma ProfitAgreesIff(older: seq<Deal>, window: seq<Deal>, newer: seq<Deal>, trade: Trade)
    requires trade in TradesOf(window, PositionOrder(window))
    ensures var lookup := GetClosedPosition(PositionDeals(older + window + newer, trade.ticket));
            lookup.Some? && (lookup.value.profit == trade.profit <==> Unseen(older, window, newer, trade.ticket) == 0)
  {
    LookupFindsWindowTrades(older, window, newer, trade);
    TradesAgreeWithClosedPosition(window, trade);
    AllPositionMoney(older, window, newer, trade.ticket);
  }

  /** With nothing left out, the lookup agrees on everything. */
  lemma NothingUnseenAgrees(older: seq<Deal>, window: seq<Deal>, newer: seq<Deal>, trade: Trade)
    requires trade in TradesOf(window, PositionOrder(window))
    requires PositionDeals(older, trade.ticket) == [] && Dropped(window, trade.ticket) == []
    requires PositionDeals(newer, trade.ticket) == []
    ensures GetClosedPosition(PositionDeals(older + window + newer, trade.ticket))
            == GetClosedPosition(GroupOf(window, trade.ticket))
  {
    AllPositionMoney(older, window, newer, trade.ticket);
    NothingDropped(window, trade.ticket);
    assert [] + GroupOf(window, trade.ticket) + [] == GroupOf(window, trade.ticket);
  }

  lemma OneDeal(d: Deal, id: PositionId)
    requires BelongsTo(d, id)
    ensures PositionOrder([d]) == [id] && GroupOf([d], id) == [d] && PositionDeals([d], id) == [d] &&
              Dropped([d], id) == []
    ensures Exits([d]) == if d.isEntry then [] else [d]
    ensures SumNet([d]) == NetOf(d)
  {
    assert [d][..0] == [];
  }

  /**
   * An entry that cost 7 before the window, an exit that made 50 inside it: the
   * trade says 50, the lookup 43.
   */
  lemma EntryBeforeWindow(entry: Deal, exit: Deal, id: PositionId)
    requires BelongsTo(entry, id) && entry.isEntry && NetOf(entry) == -7
    requires BelongsTo(exit, id) && !exit.isEntry && NetOf(exit) == 50
    ensures PositionOrder([exit]) == [id]
    ensures TradeFor(id, GroupOf([exit], id)).Some? && TradeFor(id, GroupOf([exit], id)).value.profit == 50
    ensures var lookup := GetClosedPosition(PositionDeals([entry] + [exit] + [], id));
            lookup.Some? && lookup.value.profit == 43
  {
    OneDeal(entry, id);
    OneDeal(exit, id);
    TradeProfit(id, [exit]);
    AllPositionMoney([entry], [exit], [], id);
    ExitsConcat([entry], [exit]);
    assert [entry] + [exit] + [] == [entry] + [exit];
  }

  lemma EntryDirection(id: PositionId, group: seq<Deal>, entry: Deal)
    requires Exits(group) != [] && FirstEntry(group) == Some(entry)
    ensures TradeFor(id, group).Some? && (TradeFor(id, group).value.orderType == SELL <==> entry.isSell)
    ensures TradeFor(id, group).value.orderType in {BUY, SELL}
  {
  }

  lemma ExitDirection(id: PositionId, group: seq<Deal>)
    requires Exits(group) != [] && FirstEntry(group) == None
    ensures TradeFor(id, group).Some?
    ensures TradeFor(id, group).value.orderType == SELL <==> !Exits(group)[|Exits(group)| - 1].isSell
    ensures TradeFor(id, group).value.orderType in {BUY, SELL}
  {
  }

  lemma WindowedTrade(window: seq<Deal>, trade: Trade)
    requires trade in TradesOf(window, PositionOrder(window))
    ensures TradeFor(trade.ticket, GroupOf(window, trade.ticket)) == Some(trade)
  {
    OrderMeaning(window, trade.ticket);
    TradesMeaning(window, PositionOrder(window), trade.ticket);
  }

  lemma GroupsOfWindow(older: seq<Deal>, window: seq<Deal>, id: PositionId, entry: Deal)
    requires Exits(GroupOf(window, id)) != [] && FirstEntry(GroupOf(older, id)) == Some(entry)
    ensures FirstEntry(GroupOf(older + window, id)) == Some(entry) && Exits(GroupOf(older + window, id)) != []
  {
    GroupConcat(older, window, id);
    ExitsConcat(GroupOf(older, id), GroupOf(window, id));
    FirstEntryConcat(GroupOf(older, id), GroupOf(window, id));
  }

  /**
   * A trade whose entry lies before the window takes its direction from the
   * exit, as its opposite, where the whole position has the entry's. They are
   * the same if and only if the two deals are on opposite sides.
   */
  lemma DirectionSurvivesWindowIff(older: seq<Deal>, window: seq<Deal>, trade: Trade, entry: Deal, exit: Deal)
    requires trade in TradesOf(window, PositionOrder(window))
    requires FirstEntry(GroupOf(window, trade.ticket)) == None
    requires FirstEntry(GroupOf(older, trade.ticket)) == Some(entry)
    requires Exits(GroupOf(window, trade.ticket)) != []
    requires exit == Exits(GroupOf(window, trade.ticket))[|Exits(GroupOf(window, trade.ticket))| - 1]
    ensures var whole := TradeFor(trade.ticket, GroupOf(older + window, trade.ticket));
            && whole.Some? && (whole.value.orderType == trade.orderType <==> entry.isSell != exit.isSell)
            && (whole.value.orderType == SELL <==> entry.isSell) && (trade.orderType == SELL <==> !exit.isSell)
  {
    var id := trade.ticket;
    WindowedTrade(window, trade);
    GroupsOfWindow(older, window, id, entry);
    EntryDirection(id, GroupOf(older + window, id), entry);
    ExitDirection(id, GroupOf(window, id));
  }

  /**
   * The output is the newest part of the trades: nothing left out is newer than
   * anything kept, and ties keep their order.
   */
  lemma OutputIsNewestPrefix(deals: seq<Deal>, limit: nat, k: int)
    ensures var trades := TradesOf(deals, PositionOrder(deals));
            var all := NewestFirst.Sort(CLOSED_AT, trades);
            && multiset(all) == multiset(trades)
            && (forall i, j :: 0 <= i < j < |all| ==> all[i].closedAt >= all[j].closedAt)
            && NewestFirst.AtKey(CLOSED_AT, all, k) == NewestFirst.AtKey(CLOSED_AT, trades, k)
            && (limit <= |all| ==> forall kept, cut :: kept in all[..limit] && cut in all[limit..] ==>
                kept.closedAt >= cut.closedAt)
  {
    var trades := TradesOf(deals, PositionOrder(deals));
    var all := NewestFirst.Sort(CLOSED_AT, trades);
    NewestFirst.SortIsStable(CLOSED_AT, trades, k);
    forall i, j | 0 <= i < j < |all|
      ensures all[i].closedAt >= all[j].closedAt
    {
      assert CLOSED_AT(all[i]) >= CLOSED_AT(all[j]);
    }
  }
}
