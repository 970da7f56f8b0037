/**
 * What a close earns, in money: the price move in the direction of the position
 * (src/providers/trading/MockTradingProvider.ts).
 */
module ClosingProfit {
  import opened Common
  import opened TradeTypes
  import opened MockBroker
  import opened MemberModel
  import opened MemberAgreement
  import opened CopyEffects
  import L = BrokerLedger

  /** Every position is of a symbol the broker trades. */
  ghost predicate OfKnownSymbols(b: Account) {
    forall t :: t in b.positions ==> b.positions[t].symbol in LOT_SIZES
  }

  lemma {:induction false} RunsKeepKnownSymbols(b: Account, orders: seq<L.Order>)
    requires OfKnownSymbols(b)
    ensures OfKnownSymbols(L.Run(b, orders))
  {
    if orders != [] {
      RunsKeepKnownSymbols(b, orders[..|orders| - 1]);
      OrderKeepsKnownSymbols(L.Run(b, orders[..|orders| - 1]), orders[|orders| - 1]);
    }
  }

  lemma OrderKeepsKnownSymbols(b: Account, order: L.Order)
    requires OfKnownSymbols(b)
    ensures OfKnownSymbols(L.Apply(b, order))
  {
  }

  /**
   * Every close of a live position, whole or partial, moves the balance by what
   * the closed volume earned, and puts that on record.
   */
  lemma CloseEarnsMove(b: Account, t: Ticket, volume: Option<nat>, price: int, now: int)
    requires OfKnownSymbols(b) && IsLive(b, t)
    ensures var b' := ClosePosition(b, t, volume, price, now).0;
            var p := b.positions[t];
            var closing := volume.GetOr(p.volume);
            && EarnsMove(b'.balance - b.balance, p.symbol, p.orderType, closing, p.openPrice, price)
            && b'.closes.Keys == b.closes.Keys + {t}
            && (forall u :: u in b.closes && u != t ==> b'.closes[u] == b.closes[u])
            && b'.closes[t] == CloseRecord(t, p.symbol, p.orderType, p.openPrice, p.currentPrice,
                                           b'.balance - b.balance, closing, now, COPIED_CLOSE)
  {
    ProfitEarnsMove(b.positions[t], volume.GetOr(b.positions[t].volume), price);
  }

  /** So the result a copied CLOSE writes to its mapping is what the whole position earned, to the cent. */
  lemma CopiedCloseEarnsMove(m: Member, b: Account, sub: Subscription, event: TradeEvent, symbol: Symbol, row: RowId,
                             at: Moment)
    requires event.eventType == CLOSE || event.eventType == DELETE_PENDING
    requires event.eventId !in m.rows && OfKnownSymbols(b)
    requires CopyToMember(m, b, sub, event, symbol, row, at).outcome == SUCCESS
    ensures event.ticket in m.mappings && m.mappings[event.ticket].memberTicket in b.positions
    ensures var step := CopyToMember(m, b, sub, event, symbol, row, at);
            var p := b.positions[m.mappings[event.ticket].memberTicket];
            var mapping := step.member.mappings[event.ticket];
            && mapping.profit.Some? && step.broker.balance == b.balance + mapping.profit.value
            && EarnsMove(mapping.profit.value, p.symbol, p.orderType, p.volume, p.openPrice, at.price)
            && mapping.closePrice == Some(p.currentPrice)
  {
    CloseBooksTheResult(m, b, sub, event, symbol, row, at);
    var t := m.mappings[event.ticket].memberTicket;
    CloseEarnsMove(b, t, None, at.price, at.now);
    CopiedCloseIsClose(m, b, sub, event, symbol, row, at);
  }

  lemma CopiedCloseIsClose(m: Member, b: Account, sub: Subscription, event: TradeEvent, symbol: Symbol, row: RowId,
                           at: Moment)
    requires event.eventType == CLOSE || event.eventType == DELETE_PENDING
    requires event.eventId !in m.rows
    requires CopyToMember(m, b, sub, event, symbol, row, at).outcome == SUCCESS
    ensures event.ticket in m.mappings
    ensures var step := CopyToMember(m, b, sub, event, symbol, row, at);
            var t := m.mappings[event.ticket].memberTicket;
            && step.broker == ClosePosition(b, t, None, at.price, at.now).0
            && (t in step.broker.closes ==>
                  step.member.mappings[event.ticket].closePrice == Some(step.broker.closes[t].closePrice))
  {
  }

  /**
   * A copied partial close books what the member's share of the volume earned:
   * the master's fraction of the mapping's volume, to the nearest hundredth and
   * never less than one.
   */
  lemma CopiedPartialCloseEarnsMove(m: Member, b: Account, sub: Subscription, event: TradeEvent, symbol: Symbol,
                                    row: RowId, at: Moment)
    returns (closing: nat)
    requires event.eventType == PARTIAL_CLOSE && event.eventId !in m.rows && OfKnownSymbols(b)
    requires CopyToMember(m, b, sub, event, symbol, row, at).outcome == SUCCESS
    ensures event.ticket in m.mappings && m.mappings[event.ticket].memberTicket in b.positions
    ensures closing >= 1
    ensures var share := m.mappings[event.ticket].volume * event.closeFraction.GetOr(WHOLE);
            IsNearest(closing, share, WHOLE) || (closing == 1 && share < WHOLE)
    ensures var step := CopyToMember(m, b, sub, event, symbol, row, at);
            var p := b.positions[m.mappings[event.ticket].memberTicket];
            EarnsMove(step.broker.balance - b.balance, p.symbol, p.orderType, closing, p.openPrice, at.price)
  {
    PartialCloseIsClose(m, b, sub, event, symbol, row, at);
    var mapping := m.mappings[event.ticket];
    closing := CloseVolume(mapping.volume, event.closeFraction.GetOr(WHOLE));
    CloseEarnsMove(b, mapping.memberTicket, Some(closing), at.price, at.now);
  }

  lemma PartialCloseIsClose(m: Member, b: Account, sub: Subscription, event: TradeEvent, symbol: Symbol, row: RowId,
                            at: Moment)
    requires event.eventType == PARTIAL_CLOSE && event.eventId !in m.rows
    requires CopyToMember(m, b, sub, event, symbol, row, at).outcome == SUCCESS
    ensures event.ticket in m.mappings && IsLive(b, m.mappings[event.ticket].memberTicket)
    ensures var mapping := m.mappings[event.ticket];
            var closing := CloseVolume(mapping.volume, event.closeFraction.GetOr(WHOLE));
            CopyToMember(m, b, sub, event, symbol, row, at).broker
            == ClosePosition(b, mapping.memberTicket, Some(closing), at.price, at.now).0
  {
  }

  /** Master ticket `k` is mapped to a live position of this kind and size, entered at this price. */
  ghost predicate HoldsCopy(m: Member, b: Account, k: Ticket, symbol: Symbol, orderType: OrderType, volume: int,
                            price: int)
  {
    && OfKnownSymbols(b) && k in m.mappings && m.mappings[k].status != CLOSED
    && IsLive(b, m.mappings[k].memberTicket)
    && var p := b.positions[m.mappings[k].memberTicket];
    p.symbol == symbol && p.orderType == orderType && p.volume == volume && p.openPrice == price
  }

  /** A copied OPEN is held in the master's direction, from the price at which it was copied. */
  lemma CopiedOpenHolds(m: Member, b: Account, sub: Subscription, event: TradeEvent, symbol: Symbol, row: RowId,
                        at: Moment)
    requires !b.netting && CommentsBelow(b, row) && OfKnownSymbols(b)
    requires Opens(event) && event.eventId !in m.rows
    requires CopyToMember(m, b, sub, event, symbol, row, at).outcome == SUCCESS
    ensures var step := CopyToMember(m, b, sub, event, symbol, row, at);
            && event.eventId in step.member.rows && step.member.rows.Keys == m.rows.Keys + {event.eventId}
            && step.broker.balance == b.balance
            && HoldsCopy(step.member, step.broker, event.ticket, symbol, event.orderType,
                         step.member.rows[event.eventId].memberVolume, at.price)
  {
    RowTellsOutcome(m, b, sub, event, symbol, row, at);
    OpenMirrorsMaster(m, b, sub, event, symbol, row, at);
    OpenedAtPrice(m, b, sub, event, symbol, row, at);
  }

  /** And its CLOSE earns, and writes to the mapping, the move from that price to the price at the close. */
  lemma CloseOfHolding(m: Member, b: Account, sub: Subscription, event: TradeEvent, row: RowId, at: Moment,
                       symbol: Symbol, orderType: OrderType, volume: int, price: int)
    requires HoldsCopy(m, b, event.ticket, symbol, orderType, volume, price)
    requires event.eventType == CLOSE && event.eventId !in m.rows
    ensures var step := CopyToMember(m, b, sub, event, symbol, row, at);
            && step.outcome == SUCCESS && event.ticket in step.member.mappings && volume >= 0
            && EarnsMove(step.broker.balance - b.balance, symbol, orderType, volume, price, at.price)
            && step.member.mappings[event.ticket].profit == Some(step.broker.balance - b.balance)
  {
    AdjustOutcome(m, b, sub, event, symbol, row, at);
    CopiedCloseEarnsMove(m, b, sub, event, symbol, row, at);
  }

  lemma OpenedAtPrice(m: Member, b: Account, sub: Subscription, event: TradeEvent, symbol: Symbol, row: RowId,
                      at: Moment)
    requires !b.netting && CommentsBelow(b, row) && Opens(event) && event.eventId !in m.rows && OfKnownSymbols(b)
    requires CopyToMember(m, b, sub, event, symbol, row, at).outcome == SUCCESS
    ensures var b' := CopyToMember(m, b, sub, event, symbol, row, at).broker;
            && OfKnownSymbols(b')
            && b.nextTicket in b'.positions && b'.positions[b.nextTicket].openPrice == at.price
            && b'.positions[b.nextTicket].currentPrice == at.price
  {
    var m1 := m.(rows := m.rows[event.eventId := NewRow(sub, event, row)]);
    var before, request := OpenReduces(m1, b, sub, event, symbol, row, at);
    SendOpensAtPrice(before, b, sub, event, symbol, request, at);
  }

  lemma SendOpensAtPrice(m: Member, b: Account, sub: Subscription, event: TradeEvent, symbol: Symbol,
                         request: OpenRequest, at: Moment)
    requires !b.netting && event.eventId in m.rows && OfKnownSymbols(b)
    requires Send(m, b, sub, event, symbol, request, at).outcome == SUCCESS
    ensures var b' := Send(m, b, sub, event, symbol, request, at).broker;
            && OfKnownSymbols(b')
            && b.nextTicket in b'.positions && b'.positions[b.nextTicket].openPrice == at.price
            && b'.positions[b.nextTicket].currentPrice == at.price
  {
  }
}
