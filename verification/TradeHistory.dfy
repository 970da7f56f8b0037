/**
 * The trade history page: broker trades marked with the strategies this platform
 * copied (src/services/trade-history.service.ts).
 */
module TradeHistory {
  import opened Common
  import opened TradeTypes
  import opened MockBroker
  import opened MemberModel
  import opened MemberAgreement
  import opened MemberRuns
  import opened NewestFirst

  type BrokerTrade = AccountTrade<Ticket>
  type Names = map<SubscriptionId, string>

  datatype HistoryRow = HistoryRow(
    ticket: Ticket,
    symbol: Symbol,
    orderType: OrderType,
    volume: int,
    openPrice: Option<int>,
    closePrice: Option<int>,
    profit: int,
    openedAt: Option<int>,
    closedAt: Option<int>,
    reason: Option<CloseReason>,
    strategyName: Option<string>,
    copied: bool)

  datatype Totals = Totals(profit: int, wins: nat, losses: nat, volume: int)

  predicate InWindow(mapping: Mapping, from: int) {
    (mapping.closedAt.Some? && mapping.closedAt.value >= from) || mapping.status in {OPENED, PARTIALLY_CLOSED}
  }

  /** `keys` are the master tickets of the mappings in the window, in the order the query returns them. */
  ghost predicate IsAnswer(m: Member, from: int, keys: seq<Ticket>) {
    && (forall i, j :: 0 <= i < j < |keys| ==> keys[i] != keys[j])
    && (forall k :: k in keys <==> k in m.mappings && InWindow(m.mappings[k], from))
  }

  function NameOf(names: Names, mapping: Mapping): Option<string> {
    if mapping.subscriptionId in names then Some(names[mapping.subscriptionId]) else None
  }

  predicate Named(names: Names, mapping: Mapping) {
    NameOf(names, mapping).Some? && NameOf(names, mapping).value != ""
  }

  // ---- The ticket-to-strategy index ----------------------------------------

  function PointTo(index: map<Ticket, string>, tickets: seq<Ticket>, name: string): map<Ticket, string> {
    if tickets == [] then index
    else PointTo(index, tickets[..|tickets| - 1], name)[tickets[|tickets| - 1] := name]
  }

  function StrategyByTicket(m: Member, keys: seq<Ticket>, names: Names): map<Ticket, string>
    requires forall k :: k in keys ==> k in m.mappings
  {
    if keys == [] then map[]
    else
      var before, mapping := StrategyByTicket(m, keys[..|keys| - 1], names), m.mappings[keys[|keys| - 1]];
      if Named(names, mapping) then
        PointTo(before, [mapping.memberTicket] + mapping.ticketHistory, NameOf(names, mapping).value)
      else
        before
  }

  // ---- The rows ------------------------------------------------------------

  function MarkUp(trade: BrokerTrade, index: map<Ticket, string>): HistoryRow {
    HistoryRow(trade.ticket, trade.symbol, trade.orderType, trade.volume, trade.openPrice, trade.closePrice,
               trade.profit, trade.openedAt, Some(trade.closedAt), trade.reason,
               if trade.ticket in index then Some(index[trade.ticket]) else None, trade.ticket in index)
  }

  function BrokerRows(trades: seq<BrokerTrade>, index: map<Ticket, string>): seq<HistoryRow> {
    if trades == [] then []
    else BrokerRows(trades[..|trades| - 1], index) + [MarkUp(trades[|trades| - 1], index)]
  }

  function RowOf(mapping: Mapping, names: Names): HistoryRow {
    HistoryRow(mapping.memberTicket, mapping.symbol, mapping.orderType, mapping.volume, Some(mapping.openPrice),
               mapping.closePrice, mapping.profit.GetOr(0), Some(mapping.openedAt), mapping.closedAt,
               mapping.closeReason,
               NameOf(names, mapping), true)
  }

  /** Copied positions the broker did not return. */
  function MissingRows(m: Member, keys: seq<Ticket>, names: Names, seen: set<Ticket>): seq<HistoryRow>
    requires forall k :: k in keys ==> k in m.mappings
  {
    if keys == [] then []
    else
      var mapping := m.mappings[keys[|keys| - 1]];
      MissingRows(m, keys[..|keys| - 1], names, seen)
      + (if mapping.memberTicket in seen then [] else [RowOf(mapping, names)])
  }

  function TicketsOf(trades: seq<BrokerTrade>): set<Ticket> {
    set trade | trade in trades :: trade.ticket
  }

  function AllRows(m: Member, keys: seq<Ticket>, names: Names, trades: seq<BrokerTrade>): seq<HistoryRow>
    requires forall k :: k in keys ==> k in m.mappings
  {
    BrokerRows(trades, StrategyByTicket(m, keys, names)) + MissingRows(m, keys, names, TicketsOf(trades))
  }

  /** JavaScript's largest exact integer: positions still open sort first. */
  const NEVER := 9007199254740991

  const WHEN: HistoryRow -> int := (row: HistoryRow) => row.closedAt.GetOr(NEVER)
  const REALISED: HistoryRow -> int := (row: HistoryRow) => if row.closedAt.Some? then row.profit else 0
  const TRADED: HistoryRow -> int := (row: HistoryRow) => if row.closedAt.Some? then row.volume else 0

  function Page(m: Member, keys: seq<Ticket>, names: Names, trades: seq<BrokerTrade>): seq<HistoryRow>
    requires forall k :: k in keys ==> k in m.mappings
  {
    Sort(WHEN, AllRows(m, keys, names, trades))
  }

  /** A finished position that made money, or one that lost some. */
  predicate Counts(row: HistoryRow, won: bool) {
    row.closedAt.Some? && (if won then row.profit > 0 else row.profit < 0)
  }

  ghost function Results(rows: seq<HistoryRow>, won: bool): set<int> {
    set i | 0 <= i < |rows| && Counts(rows[i], won)
  }

  function CountResults(rows: seq<HistoryRow>, won: bool): (count: nat)
    ensures count == |Results(rows, won)|
  {
    if rows == [] then 0
    else
      var n := |rows| - 1;
      assert Results(rows, won) == Results(rows[..n], won) + (if Counts(rows[n], won) then {n} else {});
      CountResults(rows[..n], won) + (if Counts(rows[n], won) then 1 else 0)
  }

  function TotalsOf(rows: seq<HistoryRow>): Totals {
    Totals(Sum(REALISED, rows), CountResults(rows, true), CountResults(rows, false), Sum(TRADED, rows))
  }

  /** The nested loops over mappings and the tickets they have held. */
  method IndexStrategies(m: Member, keys: seq<Ticket>, names: Names) returns (strategyByTicket: map<Ticket, string>)
    requires forall k :: k in keys ==> k in m.mappings
    ensures strategyByTicket == StrategyByTicket(m, keys, names)
  {
    strategyByTicket := map[];
    for i := 0 to |keys|
      invariant strategyByTicket == StrategyByTicket(m, keys[..i], names)
    {
      assert keys[..i + 1][..i] == keys[..i];
      var mapping := m.mappings[keys[i]];
      if !Named(names, mapping) {
        continue;
      }
      var name := NameOf(names, mapping).value;
      var tickets := [mapping.memberTicket] + mapping.ticketHistory;
      ghost var before := strategyByTicket;
      for j := 0 to |tickets|
        invariant strategyByTicket == PointTo(before, tickets[..j], name)
      {
        assert tickets[..j + 1][..j] == tickets[..j];
        strategyByTicket := strategyByTicket[tickets[j] := name];
      }
      assert tickets[..|tickets|] == tickets;
    }
    assert keys[..|keys|] == keys;
  }

  /** What the broker answers: its finished trades, and whether it is still loading them. */
  datatype BrokerHistory = BrokerHistory(trades: seq<BrokerTrade>, synchronizing: bool)

  datatype TradeHistoryPage = TradeHistoryPage(
    rows: seq<HistoryRow>, totals: Totals, brokerUnavailable: bool, synchronizing: bool)

  predicate Reached(m: Member, answer: Option<BrokerHistory>) {
    m.connection == CONNECTED && answer.Some?
  }

  /** `account` is the user's account, if there is one; `answer` the broker's history, if it could be reached. */
  method GetAccountTradeHistory(account: Option<Member>, keys: seq<Ticket>, names: Names, answer: Option<BrokerHistory>)
    returns (page: Option<TradeHistoryPage>)
    requires account.Some? ==> forall k :: k in keys ==> k in account.value.mappings
    ensures page.Some? <==> account.Some?
    ensures page.Some? ==>
              var trades := if Reached(account.value, answer) then answer.value.trades else [];
              && page.value.rows == Page(account.value, keys, names, trades)
              && page.value.totals == TotalsOf(page.value.rows)
              && page.value.brokerUnavailable == !Reached(account.value, answer)
              && page.value.synchronizing == (Reached(account.value, answer) && answer.value.synchronizing)
  {
    if account.None? {
      return None;
    }
    var m := account.value;
    var strategyByTicket := IndexStrategies(m, keys, names);
    var trades: seq<BrokerTrade> := [];
    var brokerUnavailable, synchronizing := true, false;
    if m.connection == CONNECTED && answer.Some? {
      trades, brokerUnavailable, synchronizing := answer.value.trades, false, answer.value.synchronizing;
    }
    var rows := BrokerRows(trades, strategyByTicket);
    var seen := TicketsOf(trades);
    ghost var broker := rows;
    for i := 0 to |keys|
      invariant rows == broker + MissingRows(m, keys[..i], names, seen)
    {
      assert keys[..i + 1][..i] == keys[..i];
      var mapping := m.mappings[keys[i]];
      if mapping.memberTicket in seen {
        continue;
      }
      rows := rows + [RowOf(mapping, names)];
    }
    assert keys[..|keys|] == keys;
    rows := Sort(WHEN, rows);
    page := Some(TradeHistoryPage(rows, TotalsOf(rows), brokerUnavailable, synchronizing));
  }

  // ---- Every ticket belongs to one strategy --------------------------------

  /** Mapping `k` is on the page, under `name`, and has held ticket `t`. */
  ghost predicate Holds(m: Member, keys: seq<Ticket>, names: Names, k: Ticket, t: Ticket, name: string) {
    && k in keys && InChain(m.mappings, k, t)
    && Named(names, m.mappings[k]) && NameOf(names, m.mappings[k]).value == name
  }

  lemma {:induction false} PointsTo(index: map<Ticket, string>, tickets: seq<Ticket>, name: string, t: Ticket)
    ensures t in PointTo(index, tickets, name) <==> t in index || t in tickets
    ensures t in tickets ==> PointTo(index, tickets, name)[t] == name
    ensures t !in tickets && t in index ==> PointTo(index, tickets, name)[t] == index[t]
  {
    if tickets != [] {
      PointsTo(index, tickets[..|tickets| - 1], name, t);
      assert tickets == tickets[..|tickets| - 1] + [tickets[|tickets| - 1]];
    }
  }

  /** An entry of the index comes from a mapping that held the ticket, and every such mapping has one. */
  lemma {:induction false} IndexComesFromMappings(m: Member, keys: seq<Ticket>, names: Names, t: Ticket)
    requires forall k :: k in keys ==> k in m.mappings
    ensures t in StrategyByTicket(m, keys, names)
            ==> exists k :: Holds(m, keys, names, k, t, StrategyByTicket(m, keys, names)[t])
    ensures (exists k, name :: Holds(m, keys, names, k, t, name)) ==> t in StrategyByTicket(m, keys, names)
  {
    if keys != [] {
      var before, last := keys[..|keys| - 1], keys[|keys| - 1];
      assert keys == before + [last];
      IndexComesFromMappings(m, before, names, t);
      var mapping := m.mappings[last];
      var tickets := [mapping.memberTicket] + mapping.ticketHistory;
      assert t in tickets <==> InChain(m.mappings, last, t);
      var earlier := StrategyByTicket(m, before, names);
      if Named(names, mapping) {
        PointsTo(earlier, tickets, NameOf(names, mapping).value, t);
      }
      if Named(names, mapping) && t in tickets {
        assert Holds(m, keys, names, last, t, NameOf(names, mapping).value);
      } else {
        if t in earlier {
          var k :| Holds(m, before, names, k, t, earlier[t]);
          assert Holds(m, keys, names, k, t, earlier[t]);
        }
        forall k, name | Holds(m, keys, names, k, t, name)
          ensures t in earlier
        {
          assert Holds(m, before, names, k, t, name);
        }
      }
    }
  }

  /**
   * Every ticket any mapping on the page has held is attributed to that
   * mapping's strategy, exactly when no two mappings of differently named
   * strategies share a ticket.
   */
  lemma IndexIsRightIff(m: Member, keys: seq<Ticket>, names: Names)
    requires forall k :: k in keys ==> k in m.mappings
    ensures var index := StrategyByTicket(m, keys, names);
            (forall k, t, name :: Holds(m, keys, names, k, t, name) ==> t in index && index[t] == name)
            <==> (forall k1, k2, t, name1, name2 ::
                    Holds(m, keys, names, k1, t, name1) && Holds(m, keys, names, k2, t, name2) ==> name1 == name2)
  {
    var index := StrategyByTicket(m, keys, names);
    forall k, t, name | Holds(m, keys, names, k, t, name)
      ensures t in index && exists k' :: Holds(m, keys, names, k', t, index[t])
    {
      IndexComesFromMappings(m, keys, names, t);
    }
  }

  /** Disjoint ticket chains, kept by every run, are enough: the index is then exactly the mappings' chains. */
  lemma IndexOfDisjointChains(m: Member, keys: seq<Ticket>, names: Names, t: Ticket)
    requires ChainsDisjoint(m.mappings)
    requires forall k :: k in keys ==> k in m.mappings
    ensures var index := StrategyByTicket(m, keys, names);
            && (t in index <==> exists k :: k in keys && InChain(m.mappings, k, t) && Named(names, m.mappings[k]))
            && (forall k :: k in keys && InChain(m.mappings, k, t) && Named(names, m.mappings[k])
                  ==> index[t] == NameOf(names, m.mappings[k]).value)
  {
    var index := StrategyByTicket(m, keys, names);
    IndexComesFromMappings(m, keys, names, t);
    forall k | k in keys && InChain(m.mappings, k, t) && Named(names, m.mappings[k])
      ensures t in index && index[t] == NameOf(names, m.mappings[k]).value
    {
      assert Holds(m, keys, names, k, t, NameOf(names, m.mappings[k]).value);
      var k' :| Holds(m, keys, names, k', t, index[t]);
      assert InChain(m.mappings, k', t);
    }
  }

  // ---- Every position appears once, under its strategy ----------------------

  function At(t: Ticket): HistoryRow -> int {
    (row: HistoryRow) => if row.ticket == t then 1 else 0
  }

  ghost predicate DistinctTickets(trades: seq<BrokerTrade>) {
    forall i, j :: 0 <= i < j < |trades| ==> trades[i].ticket != trades[j].ticket
  }

  ghost predicate Listed(m: Member, keys: seq<Ticket>, t: Ticket) {
    exists k :: k in keys && k in m.mappings && m.mappings[k].memberTicket == t
  }

  lemma LastTicketIsNew(trades: seq<BrokerTrade>)
    requires trades != [] && DistinctTickets(trades)
    ensures trades[|trades| - 1].ticket !in TicketsOf(trades[..|trades| - 1])
    ensures TicketsOf(trades) == TicketsOf(trades[..|trades| - 1]) + {trades[|trades| - 1].ticket}
  {
    assert trades == trades[..|trades| - 1] + [trades[|trades| - 1]];
  }

  lemma {:induction false} BrokerRowsOnce(trades: seq<BrokerTrade>, index: map<Ticket, string>, t: Ticket)
    requires DistinctTickets(trades)
    ensures Sum(At(t), BrokerRows(trades, index)) == if t in TicketsOf(trades) then 1 else 0
  {
    if trades != [] {
      var before, last := trades[..|trades| - 1], trades[|trades| - 1];
      BrokerRowsOnce(before, index, t);
      LastTicketIsNew(trades);
      SumAppend(At(t), BrokerRows(before, index), MarkUp(last, index));
    }
  }

  lemma {:induction false} MissingRowsOnce(m: Member, keys: seq<Ticket>, names: Names, seen: set<Ticket>, t: Ticket)
    requires ChainsDisjoint(m.mappings)
    requires forall i, j :: 0 <= i < j < |keys| ==> keys[i] != keys[j]
    requires forall k :: k in keys ==> k in m.mappings
    ensures Sum(At(t), MissingRows(m, keys, names, seen)) == if t !in seen && Listed(m, keys, t) then 1 else 0
  {
    if keys != [] {
      var before, last := keys[..|keys| - 1], keys[|keys| - 1];
      MissingRowsOnce(m, before, names, seen, t);
      assert keys == before + [last];
      var rows, mapping := MissingRows(m, before, names, seen), m.mappings[last];
      SumAppend(At(t), rows, RowOf(mapping, names));
      assert rows + [] == rows;
      if mapping.memberTicket == t && Listed(m, before, t) {
        var k :| k in before && m.mappings[k].memberTicket == t;
        assert InChain(m.mappings, k, t) && InChain(m.mappings, last, t);
      }
      assert Listed(m, keys, t) <==> Listed(m, before, t) || mapping.memberTicket == t;
    }
  }

  /** No position is shown twice, and none the broker or the platform knows is dropped. */
  lemma EveryPositionOnce(m: Member, from: int, keys: seq<Ticket>, names: Names, trades: seq<BrokerTrade>, t: Ticket)
    requires ChainsDisjoint(m.mappings) && IsAnswer(m, from, keys) && DistinctTickets(trades)
    ensures Sum(At(t), Page(m, keys, names, trades)) == if t in TicketsOf(trades) || Listed(m, keys, t) then 1 else 0
  {
    var index := StrategyByTicket(m, keys, names);
    BrokerRowsOnce(trades, index, t);
    MissingRowsOnce(m, keys, names, TicketsOf(trades), t);
    SumConcat(At(t), BrokerRows(trades, index), MissingRows(m, keys, names, TicketsOf(trades)));
    SortKeepsSum(WHEN, At(t), AllRows(m, keys, names, trades));
  }

  /** Every copied position that is still open, or was closed since `from`, is shown exactly once. */
  lemma RecentPositionsAreShown(m: Member, from: int, keys: seq<Ticket>, names: Names, trades: seq<BrokerTrade>,
                                k: Ticket)
    requires ChainsDisjoint(m.mappings) && IsAnswer(m, from, keys) && DistinctTickets(trades) && k in m.mappings
    requires || m.mappings[k].status == OPENED || m.mappings[k].status == PARTIALLY_CLOSED
             || (m.mappings[k].closedAt.Some? && m.mappings[k].closedAt.value >= from)
    ensures Sum(At(m.mappings[k].memberTicket), Page(m, keys, names, trades)) == 1
  {
    EveryPositionOnce(m, from, keys, names, trades, m.mappings[k].memberTicket);
    assert Listed(m, keys, m.mappings[k].memberTicket);
  }

  lemma {:induction false} RowsComeFrom(m: Member, keys: seq<Ticket>, names: Names, trades: seq<BrokerTrade>,
                                        index: map<Ticket, string>, seen: set<Ticket>, row: HistoryRow)
    requires forall k :: k in keys ==> k in m.mappings
    ensures row in BrokerRows(trades, index) ==> exists trade :: trade in trades && row == MarkUp(trade, index)
    ensures row in MissingRows(m, keys, names, seen) ==>
              row.ticket !in seen && exists k :: k in keys && row == RowOf(m.mappings[k], names)
    decreases |trades| + |keys|
  {
    if trades != [] {
      RowsComeFrom(m, keys, names, trades[..|trades| - 1], index, seen, row);
    } else if keys != [] {
      RowsComeFrom(m, keys[..|keys| - 1], names, trades, index, seen, row);
    }
  }

  /** A row of the page is a trade of the broker's, or a mapping whose ticket the broker did not report. */
  lemma PageRowComesFrom(m: Member, keys: seq<Ticket>, names: Names, trades: seq<BrokerTrade>, row: HistoryRow)
    requires forall k :: k in keys ==> k in m.mappings
    requires row in Page(m, keys, names, trades)
    ensures || (exists trade :: trade in trades && row == MarkUp(trade, StrategyByTicket(m, keys, names)))
            || (row.ticket !in TicketsOf(trades) && exists k :: k in keys && row == RowOf(m.mappings[k], names))
  {
    assert row in multiset(Page(m, keys, names, trades));
    assert row in multiset(AllRows(m, keys, names, trades));
    RowsComeFrom(m, keys, names, trades, StrategyByTicket(m, keys, names), TicketsOf(trades), row);
  }

  /**
   * A row of a position the platform copied carries that copy's strategy, also
   * under a ticket an MT4 partial close has superseded, and no other row is
   * marked as copied.
   */
  lemma RowsNameTheirStrategy(m: Member, keys: seq<Ticket>, names: Names, trades: seq<BrokerTrade>, row: HistoryRow)
    requires ChainsDisjoint(m.mappings)
    requires forall k :: k in keys ==> k in m.mappings
    requires row in Page(m, keys, names, trades)
    ensures forall k :: k in keys && InChain(m.mappings, k, row.ticket) && Named(names, m.mappings[k])
              ==> row.copied && row.strategyName == NameOf(names, m.mappings[k])
    ensures row.copied ==> exists k :: k in keys && InChain(m.mappings, k, row.ticket)
  {
    var index := StrategyByTicket(m, keys, names);
    PageRowComesFrom(m, keys, names, trades, row);
    IndexOfDisjointChains(m, keys, names, row.ticket);
    if trade :| trade in trades && row == MarkUp(trade, index) {
      assert row.copied <==> row.ticket in index;
    } else {
      var k :| k in keys && row == RowOf(m.mappings[k], names);
      assert InChain(m.mappings, k, row.ticket);
    }
  }

  /** On every run from a fresh account, the page shows each copied position once and under its own strategy. */
  lemma HistoryAfterAnyRun(n: Node, actions: seq<Action>, from: int, keys: seq<Ticket>, names: Names,
                           trades: seq<BrokerTrade>, k: Ticket)
    requires n.member.mappings == map[] && n.broker.positions == map[] && !n.broker.netting
    requires EnabledRun(n, actions)
    requires IsAnswer(Run(n, actions).member, from, keys) && DistinctTickets(trades)
    requires k in keys && Named(names, Run(n, actions).member.mappings[k])
    ensures var m := Run(n, actions).member;
            var page := Page(m, keys, names, trades);
            && Sum(At(m.mappings[k].memberTicket), page) == 1
            && (forall row :: row in page && row.ticket in Chain(m.mappings[k])
                  ==> row.copied && row.strategyName == NameOf(names, m.mappings[k]))
  {
    RunsFromScratchAgree(n, actions);
    var m := Run(n, actions).member;
    EveryPositionOnce(m, from, keys, names, trades, m.mappings[k].memberTicket);
    assert Listed(m, keys, m.mappings[k].memberTicket);
    forall row | row in Page(m, keys, names, trades) && row.ticket in Chain(m.mappings[k])
      ensures row.copied && row.strategyName == NameOf(names, m.mappings[k])
    {
      assert InChain(m.mappings, k, row.ticket);
      RowsNameTheirStrategy(m, keys, names, trades, row);
    }
  }

  // ---- Which positions show as open ----------------------------------------

  /**
   * The row of an open mapping shows as open if and only if the broker has no
   * finished trade under its ticket (and the mapping was never closed before).
   * MT5 has one after a partial close, so such a position shows as finished.
   */
  lemma OpenRowIff(m: Member, keys: seq<Ticket>, names: Names, trades: seq<BrokerTrade>, k: Ticket, row: HistoryRow)
    requires ChainsDisjoint(m.mappings)
    requires forall j :: j in keys ==> j in m.mappings
    requires k in keys && row in Page(m, keys, names, trades) && row.ticket == m.mappings[k].memberTicket
    ensures row.closedAt.None? <==> row.ticket !in TicketsOf(trades) && m.mappings[k].closedAt.None?
  {
    PageRowComesFrom(m, keys, names, trades, row);
    if trade :| trade in trades && row == MarkUp(trade, StrategyByTicket(m, keys, names)) {
      assert trade.ticket in TicketsOf(trades);
    } else {
      var j :| j in keys && row == RowOf(m.mappings[j], names);
      assert InChain(m.mappings, j, row.ticket) && InChain(m.mappings, k, row.ticket);
    }
  }

  /** On MT4, what is on record as closed is closed for good. */
  ghost predicate ClosedOnRecord(b: Account) {
    b.platform == MT4 && forall t :: t in b.closes ==> t in b.positions && b.positions[t].closed
  }

  lemma CloseStaysOnRecord(b: Account, t: Ticket, volume: Option<nat>, price: int, now: int)
    requires ClosedOnRecord(b) && BrokerOk(b)
    ensures ClosedOnRecord(ClosePosition(b, t, volume, price, now).0)
  {
  }

  lemma CopyStaysOnRecord(m: Member, b: Account, sub: Subscription, event: TradeEvent, symbol: Symbol, row: RowId,
                          at: Moment)
    requires ClosedOnRecord(b) && BrokerOk(b) && CommentsBelow(b, row)
    ensures ClosedOnRecord(CopyToMember(m, b, sub, event, symbol, row, at).broker)
  {
    if event.eventId !in m.rows {
      var m1 := m.(rows := m.rows[event.eventId := NewRow(sub, event, row)]);
      if Opens(event) {
        var before, request := OpenReduces(m1, b, sub, event, symbol, row, at);
        OpenEffect(b, request, at.price);
      } else if event.ticket in m.mappings && event.eventType != MODIFY {
        var mapping := m.mappings[event.ticket];
        CloseStaysOnRecord(b, mapping.memberTicket,
                           if event.eventType == PARTIAL_CLOSE
                           then Some(CloseVolume(mapping.volume, event.closeFraction.GetOr(WHOLE))) else None,
                           at.price, at.now);
      }
    }
  }

  lemma {:induction false} RunStaysOnRecord(n: Node, actions: seq<Action>)
    requires NodeOk(n) && EnabledRun(n, actions) && ClosedOnRecord(n.broker)
    ensures ClosedOnRecord(Run(n, actions).broker)
  {
    if actions != [] {
      var before, last := actions[..|actions| - 1], actions[|actions| - 1];
      EnabledPrefix(n, actions);
      RunStaysOnRecord(n, before);
      RunsStayInAgreement(n, before);
      var mid := Run(n, before);
      match last {
        case Copy(sub, event, symbol, row, at) =>
          CopyStaysOnRecord(mid.member, mid.broker, sub, event, symbol, row, at);
        case SweepAccount(_, _, _) =>
        case CloseAtBroker(t, volume, price, now) =>
          CloseStaysOnRecord(mid.broker, t, volume, price, now);
        case SetCopying(_, _) =>
      }
    }
  }

  /**
   * On MT4 runs a live copied position shows as open if and only if its mapping
   * was never closed before: the broker records only finished tickets, but a
   * re-opened mapping keeps its old close time.
   */
  lemma MT4LivePositionsShowOpenIff(n: Node, actions: seq<Action>, keys: seq<Ticket>, names: Names,
                                    trades: seq<BrokerTrade>, k: Ticket, row: HistoryRow)
    requires NodeOk(n) && EnabledRun(n, actions) && ClosedOnRecord(n.broker)
    requires forall j :: j in keys ==> j in Run(n, actions).member.mappings
    requires forall trade :: trade in trades ==> trade.ticket in Run(n, actions).broker.closes
    requires k in keys && IsLive(Run(n, actions).broker, Run(n, actions).member.mappings[k].memberTicket)
    requires row in Page(Run(n, actions).member, keys, names, trades)
    requires row.ticket == Run(n, actions).member.mappings[k].memberTicket
    ensures row.closedAt.None? <==> Run(n, actions).member.mappings[k].closedAt.None?
  {
    RunStaysOnRecord(n, actions);
    RunsStayInAgreement(n, actions);
    OpenRowIff(Run(n, actions).member, keys, names, trades, k, row);
  }

  // ---- Order and totals ----------------------------------------------------

  /** The latest time a JavaScript Date can hold. */
  const LATEST := 8640000000000000

  /** Positions still open come first, then the newest closes; ties keep their order. */
  lemma OpenFirstThenNewest(m: Member, keys: seq<Ticket>, names: Names, trades: seq<BrokerTrade>, time: int)
    requires forall k :: k in keys ==> k in m.mappings
    requires forall row :: row in Page(m, keys, names, trades) ==> row.closedAt.GetOr(0) <= LATEST
    ensures var page := Page(m, keys, names, trades);
            && (forall i, j :: 0 <= i < j < |page| ==>
                  page[i].closedAt.None? || (page[j].closedAt.Some? &&
                                             page[i].closedAt.value >= page[j].closedAt.value))
            && AtKey(WHEN, page, time) == AtKey(WHEN, AllRows(m, keys, names, trades), time)
  {
    SortIsStable(WHEN, AllRows(m, keys, names, trades), time);
    var page := Page(m, keys, names, trades);
    forall i, j | 0 <= i < j < |page|
      ensures page[i].closedAt.None? || (page[j].closedAt.Some? && page[i].closedAt.value >= page[j].closedAt.value)
    {
      assert WHEN(page[i]) >= WHEN(page[j]);
      assert page[i] in page;
    }
  }

  function Earned(trades: seq<BrokerTrade>): int {
    if trades == [] then 0 else Earned(trades[..|trades| - 1]) + trades[|trades| - 1].profit
  }

  lemma {:induction false} BrokerRowsEarn(trades: seq<BrokerTrade>, index: map<Ticket, string>)
    ensures Sum(REALISED, BrokerRows(trades, index)) == Earned(trades)
  {
    if trades != [] {
      BrokerRowsEarn(trades[..|trades| - 1], index);
      SumAppend(REALISED, BrokerRows(trades[..|trades| - 1], index), MarkUp(trades[|trades| - 1], index));
    }
  }

  /**
   * The total is the broker's own results plus the recorded results of copies
   * the broker did not report; rows without a close time add nothing.
   */
  lemma TotalProfitIsComplete(m: Member, keys: seq<Ticket>, names: Names, trades: seq<BrokerTrade>)
    requires forall k :: k in keys ==> k in m.mappings
    ensures TotalsOf(Page(m, keys, names, trades)).profit
            == Earned(trades) + Sum(REALISED, MissingRows(m, keys, names, TicketsOf(trades)))
  {
    var index := StrategyByTicket(m, keys, names);
    BrokerRowsEarn(trades, index);
    SumConcat(REALISED, BrokerRows(trades, index), MissingRows(m, keys, names, TicketsOf(trades)));
    SortKeepsSum(WHEN, REALISED, AllRows(m, keys, names, trades));
  }

  function Traded(trades: seq<BrokerTrade>): int {
    if trades == [] then 0 else Traded(trades[..|trades| - 1]) + trades[|trades| - 1].volume
  }

  lemma {:induction false} BrokerRowsTrade(trades: seq<BrokerTrade>, index: map<Ticket, string>)
    ensures Sum(TRADED, BrokerRows(trades, index)) == Traded(trades)
  {
    if trades != [] {
      BrokerRowsTrade(trades[..|trades| - 1], index);
      SumAppend(TRADED, BrokerRows(trades[..|trades| - 1], index), MarkUp(trades[|trades| - 1], index));
    }
  }

  /** Profit and volume of the rows with a close time. */
  ghost function Finished(rows: seq<HistoryRow>): (int, int) {
    if rows == [] then (0, 0)
    else
      var before, last := Finished(rows[..|rows| - 1]), rows[|rows| - 1];
      match last.closedAt
      case Some(_) => (before.0 + last.profit, before.1 + last.volume)
      case None => before
  }

  lemma {:induction false} TotalsAreOfFinished(rows: seq<HistoryRow>)
    ensures Finished(rows) == (TotalsOf(rows).profit, TotalsOf(rows).volume)
  {
    if rows != [] {
      TotalsAreOfFinished(rows[..|rows| - 1]);
    }
  }

  /** Of the finished rows, wins count the profits, losses the losses, and break-even ones count as neither. */
  lemma TotalsCountFinished(m: Member, keys: seq<Ticket>, names: Names, trades: seq<BrokerTrade>)
    requires forall k :: k in keys ==> k in m.mappings
    ensures var page := Page(m, keys, names, trades);
            var totals := TotalsOf(page);
            && totals.wins == |set i | 0 <= i < |page| && page[i].closedAt.Some? && page[i].profit > 0|
            && totals.losses == |set i | 0 <= i < |page| && page[i].closedAt.Some? && page[i].profit < 0|
            && Finished(page) == (totals.profit, totals.volume)
            && totals.volume == Traded(trades) + Sum(TRADED, MissingRows(m, keys, names, TicketsOf(trades)))
  {
    var page, index := Page(m, keys, names, trades), StrategyByTicket(m, keys, names);
    assert Results(page, true) == set i | 0 <= i < |page| && page[i].closedAt.Some? && page[i].profit > 0;
    assert Results(page, false) == set i | 0 <= i < |page| && page[i].closedAt.Some? && page[i].profit < 0;
    TotalsAreOfFinished(page);
    BrokerRowsTrade(trades, index);
    SumConcat(TRADED, BrokerRows(trades, index), MissingRows(m, keys, names, TicketsOf(trades)));
    SortKeepsSum(WHEN, TRADED, AllRows(m, keys, names, trades));
  }

  /** The row shows the broker's trade. */
  predicate ShowsTrade(row: HistoryRow, trade: BrokerTrade) {
    && row.ticket == trade.ticket && row.symbol == trade.symbol && row.orderType == trade.orderType
    && row.volume == trade.volume && row.openPrice == trade.openPrice && row.closePrice == trade.closePrice
    && row.profit == trade.profit && row.openedAt == trade.openedAt && row.closedAt == Some(trade.closedAt)
    && row.reason == trade.reason
  }

  /** The row shows the platform's own record of a copied position; a result not known yet counts as 0. */
  predicate ShowsMapping(row: HistoryRow, mapping: Mapping) {
    && row.ticket == mapping.memberTicket && row.symbol == mapping.symbol && row.orderType == mapping.orderType
    && row.volume == mapping.volume && row.openPrice == Some(mapping.openPrice)
    && row.closePrice == mapping.closePrice
    && (mapping.profit.Some? ==> row.profit == mapping.profit.value) && (mapping.profit.None? ==> row.profit == 0)
    && row.openedAt == Some(mapping.openedAt) && row.closedAt == mapping.closedAt
    && row.reason == mapping.closeReason && row.copied
  }

  /** The broker's word comes first: a row shows its trade where there is one, and the platform's record otherwise. */
  lemma RowsSayWhatIsKnown(m: Member, keys: seq<Ticket>, names: Names, trades: seq<BrokerTrade>, row: HistoryRow)
    requires forall k :: k in keys ==> k in m.mappings
    requires row in Page(m, keys, names, trades)
    ensures if row.ticket in TicketsOf(trades)
            then exists trade :: trade in trades && ShowsTrade(row, trade)
            else exists k :: k in keys && ShowsMapping(row, m.mappings[k])
  {
    PageRowComesFrom(m, keys, names, trades, row);
    if trade :| trade in trades && row == MarkUp(trade, StrategyByTicket(m, keys, names)) {
      assert ShowsTrade(row, trade) && trade.ticket in TicketsOf(trades);
    } else {
      var k :| k in keys && row == RowOf(m.mappings[k], names);
      assert ShowsMapping(row, m.mappings[k]);
    }
  }
}
