/**
 * What a rebuilt trade says, told on the list of deals it was rebuilt from
 * (src/providers/trading/MetaApiProvider.ts).
 */
module TradeContents {
  import opened Common
  import opened TradeTypes
  import opened DealHistory

  /** Deal `p` is one of position `id`: it names the position, and a symbol. */
  ghost predicate DealOf(deals: seq<Deal>, p: nat, id: PositionId) {
    && p < |deals| && id != "" && deals[p].positionId == Some(id)
    && deals[p].symbol.Some? && deals[p].symbol.value != ""
  }

  ghost predicate FirstEntryAt(deals: seq<Deal>, p: nat, id: PositionId) {
    && DealOf(deals, p, id) && deals[p].isEntry
    && forall q: nat :: q < p && DealOf(deals, q, id) ==> !deals[q].isEntry
  }

  ghost predicate LastExitAt(deals: seq<Deal>, p: nat, id: PositionId) {
    && DealOf(deals, p, id) && !deals[p].isEntry
    && forall q: nat :: q > p && DealOf(deals, q, id) ==> deals[q].isEntry
  }

  ghost predicate NoEntry(deals: seq<Deal>, id: PositionId) {
    forall q: nat :: DealOf(deals, q, id) ==> !deals[q].isEntry
  }

  /** A figure summed over the deals of position `id`. */
  ghost function Total(deals: seq<Deal>, id: PositionId, figure: Deal -> int): int {
    if deals == [] then 0
    else
      var n := |deals| - 1;
      Total(deals[..n], id, figure) + (if DealOf(deals, n, id) then figure(deals[n]) else 0)
  }

  /** MT5's deal reasons in the platform's words; any other is OTHER. */
  const REASONS: map<string, CloseReason> := map[
    "DEAL_REASON_SL" := STOP_LOSS,
    "DEAL_REASON_TP" := TAKE_PROFIT,
    "DEAL_REASON_EXPERT" := COPIED_CLOSE,
    "DEAL_REASON_CLIENT" := MANUAL,
    "DEAL_REASON_MOBILE" := MANUAL,
    "DEAL_REASON_WEB" := MANUAL
  ]

  ghost function InOurWords(reason: Option<string>): Option<CloseReason> {
    if reason.None? then None
    else if reason.value in REASONS then Some(REASONS[reason.value]) else Some(OTHER)
  }

  // ---- From places in the group to places in the list ----------------------

  lemma InList(deals: seq<Deal>, id: PositionId, i: nat) returns (p: nat)
    requires i < |GroupOf(deals, id)|
    ensures |Places(deals, id)| == |GroupOf(deals, id)| && p == Places(deals, id)[i]
    ensures DealOf(deals, p, id) && deals[p] == GroupOf(deals, id)[i]
  {
    GroupKeepsOrder(deals, id, i);
    p := Places(deals, id)[i];
    PlacesAreAll(deals, id, p);
  }

  lemma InGroup(deals: seq<Deal>, id: PositionId, p: nat) returns (i: nat)
    requires DealOf(deals, p, id)
    ensures |Places(deals, id)| == |GroupOf(deals, id)|
    ensures i < |GroupOf(deals, id)| && p == Places(deals, id)[i] && deals[p] == GroupOf(deals, id)[i]
  {
    PlacesAreAll(deals, id, p);
    i :| 0 <= i < |Places(deals, id)| && Places(deals, id)[i] == p;
    GroupKeepsOrder(deals, id, i);
  }

  lemma {:induction false} LastExitInGroup(group: seq<Deal>) returns (i: nat)
    requires Exits(group) != []
    ensures i < |group| && !group[i].isEntry && group[i] == Exits(group)[|Exits(group)| - 1]
    ensures forall j :: i < j < |group| ==> group[j].isEntry
  {
    i := |group| - 1;
    if group[i].isEntry {
      i := LastExitInGroup(group[..i]);
    }
  }

  lemma {:induction false} FirstEntryInGroup(group: seq<Deal>) returns (i: nat)
    ensures FirstEntry(group).Some? ==>
              i < |group| && group[i].isEntry && group[i] == FirstEntry(group).value
    ensures forall j :: 0 <= j < |group| && (FirstEntry(group).Some? ==> j < i) ==> !group[j].isEntry
  {
    i := 0;
    if group != [] && !group[0].isEntry {
      i := FirstEntryInGroup(group[1..]);
      i := i + 1;
    }
  }

  lemma ClosingDeal(deals: seq<Deal>, id: PositionId) returns (last: nat)
    requires Exits(GroupOf(deals, id)) != []
    ensures LastExitAt(deals, last, id)
    ensures var exits := Exits(GroupOf(deals, id)); deals[last] == exits[|exits| - 1]
  {
    var i := LastExitInGroup(GroupOf(deals, id));
    last := InList(deals, id, i);
    forall q: nat | q > last && DealOf(deals, q, id)
      ensures deals[q].isEntry
    {
      var j := InGroup(deals, id, q);
    }
  }

  lemma OpeningDeal(deals: seq<Deal>, id: PositionId) returns (first: nat)
    ensures var entry := FirstEntry(GroupOf(deals, id));
            if entry.Some? then FirstEntryAt(deals, first, id) && deals[first] == entry.value
            else NoEntry(deals, id)
  {
    var group := GroupOf(deals, id);
    var i := FirstEntryInGroup(group);
    first := 0;
    if FirstEntry(group).Some? {
      first := InList(deals, id, i);
    }
    forall q: nat | DealOf(deals, q, id) && (FirstEntry(group).Some? ==> q < first)
      ensures !deals[q].isEntry
    {
      var j := InGroup(deals, id, q);
    }
  }

  // ---- What a trade says ---------------------------------------------------

  lemma TradeIsItsGroups(deals: seq<Deal>, trade: Trade)
    requires trade in TradesOf(deals, PositionOrder(deals))
    ensures TradeFor(trade.ticket, GroupOf(deals, trade.ticket)) == Some(trade)
    ensures Exits(GroupOf(deals, trade.ticket)) != []
  {
    WindowedTrade(deals, trade);
  }

  /** The end of the position as its last exit tells it. */
  ghost predicate ClosedBy(trade: Trade, exit: Deal) {
    && trade.closePrice == Some(exit.price) && trade.closedAt == exit.time && trade.reason == InOurWords(exit.reason)
  }

  /** The start of the position as its first entry tells it: a sell deal opened a sell position. */
  ghost predicate OpenedBy(trade: Trade, entry: Deal) {
    && (trade.orderType == SELL <==> entry.isSell) && (trade.orderType == BUY <==> !entry.isSell)
    && Some(trade.symbol) == entry.symbol
    && trade.openPrice == Some(entry.price) && trade.openedAt == Some(entry.time)
  }

  /** Without an entry deal the exit tells the direction by opposition, and the opening is unknown. */
  ghost predicate OpenedUnseen(trade: Trade, exit: Deal) {
    && (trade.orderType == BUY <==> exit.isSell) && (trade.orderType == SELL <==> !exit.isSell)
    && Some(trade.symbol) == exit.symbol
    && trade.openPrice.None? && trade.openedAt.None?
  }

  lemma ReasonMeaning(reason: Option<string>)
    ensures CloseReasonOf(reason) == InOurWords(reason)
  {
  }

  lemma TradeForReason(id: PositionId, group: seq<Deal>, trade: Trade)
    requires TradeFor(id, group) == Some(trade) && Exits(group) != []
    ensures trade.reason == CloseReasonOf(Exits(group)[|Exits(group)| - 1].reason)
  {
  }

  lemma TradeForSays(id: PositionId, group: seq<Deal>, trade: Trade)
    requires TradeFor(id, group) == Some(trade) && Exits(group) != []
    ensures var last, entry := Exits(group)[|Exits(group)| - 1], FirstEntry(group);
            && trade.closePrice == Some(last.price) && trade.closedAt == last.time
            && (entry.Some? && entry.value.symbol.Some? ==> OpenedBy(trade, entry.value))
            && (entry.None? && last.symbol.Some? ==> OpenedUnseen(trade, last))
  {
  }

  /**
   * A trade is what its first entry and its last exit say; when no entry was
   * reported, the exit is taken to oppose it.
   */
  lemma TradeSaysItsDeals(deals: seq<Deal>, trade: Trade) returns (last: nat)
    requires trade in TradesOf(deals, PositionOrder(deals))
    ensures LastExitAt(deals, last, trade.ticket) && ClosedBy(trade, deals[last])
    ensures NoEntry(deals, trade.ticket) || exists p: nat :: FirstEntryAt(deals, p, trade.ticket)
    ensures forall p: nat :: FirstEntryAt(deals, p, trade.ticket) ==> OpenedBy(trade, deals[p])
    ensures NoEntry(deals, trade.ticket) ==> OpenedUnseen(trade, deals[last])
  {
    var id := trade.ticket;
    TradeIsItsGroups(deals, trade);
    TradeForSays(id, GroupOf(deals, id), trade);
    TradeForReason(id, GroupOf(deals, id), trade);
    last := ClosingDeal(deals, id);
    ReasonMeaning(deals[last].reason);
    var first := OpeningDeal(deals, id);
  }

  // ---- And what it adds up -------------------------------------------------

  const PROFIT: Deal -> int := (d: Deal) => d.profit.GetOr(0)
  const COMMISSION: Deal -> int := (d: Deal) => d.commission.GetOr(0)
  const SWAP: Deal -> int := (d: Deal) => d.swap.GetOr(0)
  const CLOSED_VOLUME: Deal -> int := (d: Deal) => if d.isEntry then 0 else d.volume.GetOr(0)

  lemma SumsAppend(group: seq<Deal>, d: Deal)
    ensures SumProfit(group + [d]) == SumProfit(group) + d.profit.GetOr(0)
    ensures SumCommission(group + [d]) == SumCommission(group) + d.commission.GetOr(0)
    ensures SumSwap(group + [d]) == SumSwap(group) + d.swap.GetOr(0)
    ensures SumVolume(Exits(group + [d])) == SumVolume(Exits(group)) + (if d.isEntry then 0 else d.volume.GetOr(0))
  {
    assert (group + [d])[..|group|] == group;
    var exits := Exits(group);
    assert (exits + [d])[..|exits|] == exits;
    assert exits + [] == exits;
  }

  lemma {:induction false} GroupTotals(deals: seq<Deal>, id: PositionId)
    ensures SumProfit(GroupOf(deals, id)) == Total(deals, id, PROFIT)
    ensures SumCommission(GroupOf(deals, id)) == Total(deals, id, COMMISSION)
    ensures SumSwap(GroupOf(deals, id)) == Total(deals, id, SWAP)
    ensures SumVolume(Exits(GroupOf(deals, id))) == Total(deals, id, CLOSED_VOLUME)
  {
    if deals != [] {
      var before, d := deals[..|deals| - 1], deals[|deals| - 1];
      GroupTotals(before, id);
      SumsAppend(GroupOf(before, id), d);
      assert GroupOf(before, id) + [] == GroupOf(before, id);
      assert BelongsTo(d, id) <==> DealOf(deals, |deals| - 1, id);
    }
  }

  /** Costs are the position's own, the profit is net of them, and the volume is what its exits closed. */
  lemma TradeAddsUpItsDeals(deals: seq<Deal>, trade: Trade)
    requires trade in TradesOf(deals, PositionOrder(deals))
    ensures trade.commission == Some(Total(deals, trade.ticket, COMMISSION))
    ensures trade.swap == Some(Total(deals, trade.ticket, SWAP))
    ensures trade.profit == Total(deals, trade.ticket, PROFIT) + Total(deals, trade.ticket, COMMISSION)
                            + Total(deals, trade.ticket, SWAP)
    ensures trade.volume == Total(deals, trade.ticket, CLOSED_VOLUME)
  {
    TradeIsItsGroups(deals, trade);
    GroupTotals(deals, trade.ticket);
  }
}
