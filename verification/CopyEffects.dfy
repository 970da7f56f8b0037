/**
 * What one copied event does to the member's position, its mapping and its row
 * (src/services/copy-engine.service.ts).
 */
module CopyEffects {
  import opened Common
  import opened TradeTypes
  import opened MockBroker
  import opened MemberModel
  import opened MemberAgreement

  /** Every position but `t` is the same in both states. */
  ghost predicate OthersKept(b: Account, b': Account, t: Ticket) {
    && (forall u :: u != t ==> (u in b.positions <==> u in b'.positions))
    && (forall u :: u != t && u in b.positions ==> b'.positions[u] == b.positions[u])
  }

  ghost predicate OtherMappingsKept(m: Member, m': Member, k: Ticket) {
    && (forall j :: j != k ==> (j in m.mappings <==> j in m'.mappings))
    && (forall j :: j != k && j in m.mappings ==> m'.mappings[j] == m.mappings[j])
  }

  ghost predicate OtherRowsKept(m: Member, m': Member, e: EventId) {
    && (forall j :: j != e ==> (j in m.rows <==> j in m'.rows))
    && (forall j :: j != e && j in m.rows ==> m'.rows[j] == m.rows[j])
  }

  lemma OpenTellsOutcome(m: Member, b: Account, sub: Subscription, event: TradeEvent, symbol: Symbol, row: RowId,
                         at: Moment)
    requires event.eventId in m.rows && CommentsBelow(b, row)
    ensures var step := OpenForMember(m, b, sub, event, symbol, row, at);
            && event.eventId in step.member.rows && step.member.rows[event.eventId].status == step.outcome
            && step.outcome != UNFINISHED
            && OtherRowsKept(m, step.member, event.eventId)
  {
    RecoveryNeverFires(b, row);
  }

  lemma OpenChangesLittle(m: Member, b: Account, sub: Subscription, event: TradeEvent, symbol: Symbol, row: RowId,
                          at: Moment)
    requires event.eventId in m.rows && CommentsBelow(b, row)
    ensures var step := OpenForMember(m, b, sub, event, symbol, row, at);
            && OtherMappingsKept(m, step.member, event.ticket)
            && (step.outcome != SUCCESS ==> step.broker == b && step.member.mappings == m.mappings)
  {
    var before, request := OpenReduces(m, b, sub, event, symbol, row, at);
    SendChangesLittle(before, b, sub, event, symbol, request, at);
  }

  lemma SendChangesLittle(m: Member, b: Account, sub: Subscription, event: TradeEvent, symbol: Symbol,
                          request: OpenRequest, at: Moment)
    requires event.eventId in m.rows
    ensures var step := Send(m, b, sub, event, symbol, request, at);
            && OtherMappingsKept(m, step.member, event.ticket)
            && (step.outcome != SUCCESS ==> step.broker == b && step.member.mappings == m.mappings)
  {
  }

  /**
   * A copy never ends without saying how: its row carries the outcome, no other
   * row or mapping is touched, and a copy that failed or was skipped has
   * changed nothing at the broker and no mapping.
   */
  lemma RowTellsOutcome(m: Member, b: Account, sub: Subscription, event: TradeEvent, symbol: Symbol, row: RowId,
                        at: Moment)
    requires event.eventId !in m.rows && CommentsBelow(b, row)
    ensures var step := CopyToMember(m, b, sub, event, symbol, row, at);
            && event.eventId in step.member.rows && step.member.rows[event.eventId].status == step.outcome
            && step.outcome != UNFINISHED
            && OtherRowsKept(m, step.member, event.eventId) && OtherMappingsKept(m, step.member, event.ticket)
            && (step.outcome != SUCCESS ==> step.broker == b && step.member.mappings == m.mappings)
  {
    var m1 := m.(rows := m.rows[event.eventId := NewRow(sub, event, row)]);
    if Opens(event) {
      OpenTellsOutcome(m1, b, sub, event, symbol, row, at);
      OpenChangesLittle(m1, b, sub, event, symbol, row, at);
    }
  }

  /**
   * A copied OPEN leaves a live position of the master's kind, with the stops
   * the member copies, and a mapping and row that say so.
   */
  lemma OpenMirrorsMaster(m: Member, b: Account, sub: Subscription, event: TradeEvent, symbol: Symbol, row: RowId,
                          at: Moment)
    requires !b.netting && CommentsBelow(b, row) && Opens(event) && event.eventId !in m.rows
    requires CopyToMember(m, b, sub, event, symbol, row, at).outcome == SUCCESS
    ensures sub.settings.Some?
    ensures var step := CopyToMember(m, b, sub, event, symbol, row, at);
            var t := b.nextTicket;
            && IsLive(step.broker, t) && OthersKept(b, step.broker, t) && step.broker.balance == b.balance
            && var p := step.broker.positions[t];
            && p.symbol == symbol && p.orderType == event.orderType && p.volume > 0
            && p.sl == (if sub.settings.value.copySl then event.sl else None)
            && p.tp == (if sub.settings.value.copyTp then event.tp else None)
            && event.ticket in step.member.mappings
            && var mapping := step.member.mappings[event.ticket];
            && mapping.memberTicket == t && mapping.volume == p.volume && mapping.status == OPENED
            && (event.ticket !in m.mappings ==>
                  mapping.symbol == p.symbol && mapping.orderType == p.orderType && mapping.openPrice == p.openPrice
                  && mapping.subscriptionId == sub.id && mapping.ticketHistory == [] && mapping.profit.None?
                  && mapping.openedAt == at.now && mapping.closedAt.None?)
            && step.member.rows[event.eventId].memberTicket == Some(t)
            && step.member.rows[event.eventId].memberVolume == p.volume
            && step.member.openTrades == m.openTrades + 1
  {
    var m1 := m.(rows := m.rows[event.eventId := NewRow(sub, event, row)]);
    var before, request := OpenReduces(m1, b, sub, event, symbol, row, at);
    SentAsSettingsSay(m1, b, sub, event, symbol, row, at);
    SendPlaces(before, b, sub, event, symbol, request, at);
  }

  lemma SentAsSettingsSay(m: Member, b: Account, sub: Subscription, event: TradeEvent, symbol: Symbol, row: RowId,
                          at: Moment)
    requires event.eventId in m.rows && OpenForMember(m, b, sub, event, symbol, row, at).sent.Some?
    ensures sub.settings.Some?
    ensures var request := OpenForMember(m, b, sub, event, symbol, row, at).sent.value;
            && request.symbol == symbol && request.orderType == event.orderType
            && request.sl == (if sub.settings.value.copySl then event.sl else None)
            && request.tp == (if sub.settings.value.copyTp then event.tp else None)
  {
  }

  lemma SendPlaces(m: Member, b: Account, sub: Subscription, event: TradeEvent, symbol: Symbol, request: OpenRequest,
                   at: Moment)
    requires !b.netting && event.eventId in m.rows
    requires Send(m, b, sub, event, symbol, request, at).outcome == SUCCESS
    ensures var step := Send(m, b, sub, event, symbol, request, at);
            var t := b.nextTicket;
            && IsLive(step.broker, t) && OthersKept(b, step.broker, t) && step.broker.balance == b.balance
            && var p := step.broker.positions[t];
            && p.symbol == request.symbol && p.orderType == request.orderType && p.volume == request.volume > 0
            && p.sl == request.sl && p.tp == request.tp
            && step.member.mappings ==
                m.mappings[event.ticket := FilledMapping(m, sub, event, symbol, t, Some(p.openPrice), p.volume, at.now)]
            && step.member.rows[event.eventId].memberTicket == Some(t)
            && step.member.rows[event.eventId].memberVolume == p.volume
            && step.member.openTrades == m.openTrades + 1
  {
  }

  /** A copied MODIFY moves exactly the stops the member copies and the master has set. */
  lemma ModifyMirrorsMaster(m: Member, b: Account, sub: Subscription, event: TradeEvent, symbol: Symbol, row: RowId,
                            at: Moment)
    requires event.eventType == MODIFY && event.eventId !in m.rows
    requires CopyToMember(m, b, sub, event, symbol, row, at).outcome == SUCCESS
    ensures event.ticket in m.mappings
    ensures var step := CopyToMember(m, b, sub, event, symbol, row, at);
            var t := m.mappings[event.ticket].memberTicket;
            && IsLive(b, t) && IsLive(step.broker, t) && OthersKept(b, step.broker, t)
            && step.broker.balance == b.balance && step.member.mappings == m.mappings
            && var sl := if event.sl.Some? && (sub.settings.Some? ==> sub.settings.value.copySl) then event.sl
                else b.positions[t].sl;
            var tp := if event.tp.Some? && (sub.settings.Some? ==> sub.settings.value.copyTp) then event.tp
                else b.positions[t].tp;
            step.broker.positions[t] == b.positions[t].(sl := sl, tp := tp)
  {
  }

  /**
   * How an adjustment not seen before ends is decided by its mapping: skipped
   * without an open one, failed when its ticket is no longer live (also when a
   * partial close has emptied it), executed otherwise.
   */
  lemma AdjustOutcome(m: Member, b: Account, sub: Subscription, event: TradeEvent, symbol: Symbol, row: RowId,
                      at: Moment)
    requires !Opens(event) && event.eventId !in m.rows
    ensures var outcome := CopyToMember(m, b, sub, event, symbol, row, at).outcome;
            var open := event.ticket in m.mappings && m.mappings[event.ticket].status != CLOSED;
            && (outcome == SKIPPED <==> !open)
            && (outcome == FAILED <==> open && !IsLive(b, m.mappings[event.ticket].memberTicket))
            && (outcome == SUCCESS <==> open && IsLive(b, m.mappings[event.ticket].memberTicket))
  {
  }

  /** A copied CLOSE ends the whole position, and the mapping's result is what the balance moved by. */
  lemma CloseBooksTheResult(m: Member, b: Account, sub: Subscription, event: TradeEvent, symbol: Symbol, row: RowId,
                            at: Moment)
    requires event.eventType == CLOSE || event.eventType == DELETE_PENDING
    requires event.eventId !in m.rows
    requires CopyToMember(m, b, sub, event, symbol, row, at).outcome == SUCCESS
    ensures event.ticket in m.mappings
    ensures var step := CopyToMember(m, b, sub, event, symbol, row, at);
            var t := m.mappings[event.ticket].memberTicket;
            && IsLive(b, t) && !IsLive(step.broker, t) && OthersKept(b, step.broker, t)
            && step.broker.nextTicket == b.nextTicket
            && var mapping := step.member.mappings[event.ticket];
            && mapping.status == CLOSED && mapping.profit == Some(step.broker.balance - b.balance)
            && mapping.closedAt == Some(at.now) && mapping.closeReason == Some(COPIED_CLOSE)
            && step.broker.closes[t].volume == b.positions[t].volume
            && step.member.openTrades == m.openTrades - 1
  {
    CloseEffect(b, m.mappings[event.ticket].memberTicket, None, at.price, at.now);
  }

  /**
   * A copied PARTIAL_CLOSE takes the same volume off the position and the
   * mapping, which follows it to its new ticket.
   */
  lemma PartialCloseFollows(m: Member, b: Account, sub: Subscription, event: TradeEvent, symbol: Symbol, row: RowId,
                            at: Moment)
    requires event.eventType == PARTIAL_CLOSE && event.eventId !in m.rows
    requires Tracked(m, b)
    requires CopyToMember(m, b, sub, event, symbol, row, at).outcome == SUCCESS
    ensures event.ticket in m.mappings
    ensures var step := CopyToMember(m, b, sub, event, symbol, row, at);
            var mapping, after := m.mappings[event.ticket], step.member.mappings[event.ticket];
            var closing := CloseVolume(mapping.volume, event.closeFraction.GetOr(WHOLE));
            && after.volume == mapping.volume - closing && after.status == PARTIALLY_CLOSED
            && (closing < mapping.volume ==>
                  && IsLive(step.broker, after.memberTicket)
                  && step.broker.positions[after.memberTicket].volume == after.volume
                  && step.broker.positions[after.memberTicket].symbol == b.positions[mapping.memberTicket].symbol
                  && step.broker.positions[after.memberTicket].orderType == b.positions[mapping.memberTicket].orderType
                  && step.broker.positions[after.memberTicket].openPrice == b.positions[mapping.memberTicket].openPrice
                  && if b.platform == MT4
                     then after.memberTicket == b.nextTicket && after.ticketHistory == Chain(mapping)
                     else after.memberTicket == mapping.memberTicket && after.ticketHistory == mapping.ticketHistory)
            && (closing >= mapping.volume ==>
                  !IsLive(step.broker, after.memberTicket) && after.memberTicket == mapping.memberTicket)
  {
    var mapping := m.mappings[event.ticket];
    assert MappingOk(b, mapping);
    CloseEffect(b, mapping.memberTicket, Some(CloseVolume(mapping.volume, event.closeFraction.GetOr(WHOLE))),
                at.price, at.now);
  }

  /**
   * An OPEN executed over a mapping that exists but holds nothing re-opens it:
   * its close time and profit stay, and its former current ticket is in no
   * mapping's chain any more.
   */
  lemma ReopeningDropsTicket(m: Member, b: Account, sub: Subscription, event: TradeEvent, symbol: Symbol, row: RowId,
                             at: Moment, k: Ticket)
    requires Tracked(m, b) && CommentsBelow(b, row) && Opens(event) && event.eventId !in m.rows
    requires event.ticket in m.mappings && Executes(m, b, sub, event, symbol, row, at)
    ensures var old', m' := m.mappings[event.ticket], CopyToMember(m, b, sub, event, symbol, row, at).member;
            && event.ticket in m'.mappings
            && m'.mappings[event.ticket] == old'.(memberTicket := b.nextTicket, status := OPENED,
                                                  volume := m'.mappings[event.ticket].volume)
            && !InChain(m'.mappings, k, old'.memberTicket)
  {
    var old' := m.mappings[event.ticket];
    ExecutesIff(m, b, sub, event, symbol, row, at);
    var m1 := m.(rows := m.rows[event.eventId := NewRow(sub, event, row)]);
    var before, request := OpenReduces(m1, b, sub, event, symbol, row, at);
    SendPlaces(before, b, sub, event, symbol, request, at);
    var m' := CopyToMember(m, b, sub, event, symbol, row, at).member;
    FormerTicketDropped(m, b, m', event.ticket, m'.mappings[event.ticket], k);
  }

  lemma FormerTicketDropped(m: Member, b: Account, m': Member, k0: Ticket, mapping: Mapping, k: Ticket)
    requires Tracked(m, b) && k0 in m.mappings && m'.mappings == m.mappings[k0 := mapping]
    requires mapping.ticketHistory == m.mappings[k0].ticketHistory && mapping.memberTicket !in b.positions
    ensures !InChain(m'.mappings, k, m.mappings[k0].memberTicket)
  {
    var old' := m.mappings[k0];
    assert MappingOk(b, old') && InChain(m.mappings, k0, old'.memberTicket);
    assert Chain(old')[|old'.ticketHistory|] == old'.memberTicket;
    forall i | 0 <= i < |old'.ticketHistory|
      ensures old'.ticketHistory[i] != old'.memberTicket
    {
      assert Chain(old')[i] == old'.ticketHistory[i];
    }
    if k in m.mappings && k != k0 {
      assert !InChain(m.mappings, k, old'.memberTicket);
    }
  }

  /** A mapping made now for this subscriber, over a live position on `symbol` entered at `price`. */
  ghost predicate Entered(m: Member, b: Account, k: Ticket, sub: Subscription, symbol: Symbol, price: int, now: int) {
    && k in m.mappings
    && var mapping := m.mappings[k];
    && mapping.symbol == symbol && mapping.subscriptionId == sub.id && mapping.openedAt == now
    && IsLive(b, mapping.memberTicket)
    && b.positions[mapping.memberTicket].symbol == symbol
    && b.positions[mapping.memberTicket].openPrice == price == mapping.openPrice
  }

  lemma SendEnters(m: Member, b: Account, sub: Subscription, event: TradeEvent, symbol: Symbol, request: OpenRequest,
                   at: Moment)
    requires !b.netting && event.eventId in m.rows && event.ticket !in m.mappings && request.symbol == symbol
    requires Send(m, b, sub, event, symbol, request, at).outcome == SUCCESS
    ensures var step := Send(m, b, sub, event, symbol, request, at);
            Entered(step.member, step.broker, event.ticket, sub, symbol, at.price, at.now)
  {
  }

  lemma OpenEnters(m: Member, b: Account, sub: Subscription, event: TradeEvent, symbol: Symbol, row: RowId, at: Moment)
    requires !b.netting && CommentsBelow(b, row) && Opens(event)
    requires event.eventId !in m.rows && event.ticket !in m.mappings
    requires CopyToMember(m, b, sub, event, symbol, row, at).outcome == SUCCESS
    ensures var step := CopyToMember(m, b, sub, event, symbol, row, at);
            Entered(step.member, step.broker, event.ticket, sub, symbol, at.price, at.now)
  {
    var m1 := m.(rows := m.rows[event.eventId := NewRow(sub, event, row)]);
    RecoveryNeverFires(b, row);
    SentAsSettingsSay(m1, b, sub, event, symbol, row, at);
    RowUntilSent(m1, b, sub, event, symbol, row, at);
    var m2 := m1.(risk := Some(TodaysRisk(m1, at.today)));
    SendEnters(m2, b, sub, event, symbol, OpenForMember(m1, b, sub, event, symbol, row, at).sent.value, at);
  }

  // ---- What the row of a copy records --------------------------------------

  /** The row names its copy: the id it was created with, the subscription, and the master's event. */
  ghost predicate RowOfCopy(trade: CopyTrade, sub: Subscription, event: TradeEvent, row: RowId) {
    && trade.id == row && trade.subscriptionId == sub.id && trade.eventType == event.eventType
    && trade.masterTicket == event.ticket
  }

  lemma SendFillsRow(m: Member, b: Account, sub: Subscription, event: TradeEvent, symbol: Symbol,
                     request: OpenRequest, at: Moment)
    requires event.eventId in m.rows
    ensures var was := m.rows[event.eventId];
            var trade := Send(m, b, sub, event, symbol, request, at).member.rows[event.eventId];
            && trade == was.(status := trade.status, memberTicket := trade.memberTicket, memberVolume := request.volume,
                             error := trade.error, attempts := was.attempts + 1)
            && if trade.status == SUCCESS then
                 trade.error == was.error && trade.memberTicket == Some(OpenPosition(b, request, at.price).1.ticket)
               else
                 trade.status == FAILED && trade.memberTicket == was.memberTicket
                 && trade.error == Some(if request.symbol !in SYMBOLS then INVALID_SYMBOL else INVALID_VOLUME)
  {
  }

  lemma UnsentFillsRow(m: Member, b: Account, sub: Subscription, event: TradeEvent, symbol: Symbol, row: RowId,
                       at: Moment)
    requires event.eventId in m.rows && CommentsBelow(b, row)
    requires OpenForMember(m, b, sub, event, symbol, row, at).sent.None?
    ensures var was := m.rows[event.eventId];
            var trade := OpenForMember(m, b, sub, event, symbol, row, at).member.rows[event.eventId];
            trade == was.(status := SKIPPED, error := trade.error)
  {
    RecoveryNeverFires(b, row);
  }

  /**
   * The row of an OPEN: one attempt and the sent volume if an order went out,
   * with the ticket it was filled under or the broker's reason; otherwise
   * skipped, with no attempt, no ticket and no volume.
   */
  lemma OpenFillsItsRow(m: Member, b: Account, sub: Subscription, event: TradeEvent, symbol: Symbol, row: RowId,
                        at: Moment)
    requires !b.netting && CommentsBelow(b, row) && Opens(event) && event.eventId !in m.rows
    ensures var step := CopyToMember(m, b, sub, event, symbol, row, at);
            && event.eventId in step.member.rows
            && var trade := step.member.rows[event.eventId];
            && RowOfCopy(trade, sub, event, row)
            && match step.sent
               case None =>
                 trade.status == SKIPPED && trade.attempts == 0 && trade.memberTicket.None? && trade.memberVolume == 0
               case Some(request) =>
                 && trade.attempts == 1 && trade.memberVolume == request.volume
                 && if trade.status == SUCCESS
                    then trade.memberTicket == Some(b.nextTicket) && trade.error.None?
                    else trade.status == FAILED && trade.memberTicket.None? && trade.error.Some?
  {
    var m1 := m.(rows := m.rows[event.eventId := NewRow(sub, event, row)]);
    RowTellsOutcome(m, b, sub, event, symbol, row, at);
    RowUntilSent(m1, b, sub, event, symbol, row, at);
    if OpenForMember(m1, b, sub, event, symbol, row, at).sent.Some? {
      var request := OpenForMember(m1, b, sub, event, symbol, row, at).sent.value;
      SendFillsRow(m1.(risk := Some(TodaysRisk(m1, at.today))), b, sub, event, symbol, request, at);
      OpenEffect(b, request, at.price);
    } else {
      UnsentFillsRow(m1, b, sub, event, symbol, row, at);
    }
  }

  lemma RowUntilSent(m: Member, b: Account, sub: Subscription, event: TradeEvent, symbol: Symbol, row: RowId,
                     at: Moment)
    requires event.eventId in m.rows && CommentsBelow(b, row)
    ensures var step := OpenForMember(m, b, sub, event, symbol, row, at);
            step.sent.Some? ==>
              step == Send(m.(risk := Some(TodaysRisk(m, at.today))), b, sub, event, symbol, step.sent.value, at)
  {
    RecoveryNeverFires(b, row);
  }

  /**
   * The row of an adjustment: skipped without an open mapping; otherwise one
   * attempt on the mapping's ticket, with the volume that was closed (for a
   * stop change, the mapping's), or the reason it failed.
   */
  lemma AdjustmentFillsItsRow(m: Member, b: Account, sub: Subscription, event: TradeEvent, symbol: Symbol, row: RowId,
                              at: Moment)
    requires !Opens(event) && event.eventId !in m.rows
    ensures var step := CopyToMember(m, b, sub, event, symbol, row, at);
            && event.eventId in step.member.rows && step.sent.None?
            && var trade := step.member.rows[event.eventId];
            && RowOfCopy(trade, sub, event, row)
            && if event.ticket !in m.mappings || m.mappings[event.ticket].status == CLOSED then
                 && trade.status == SKIPPED && trade.attempts == 0 && trade.error == Some(POSITION_NOT_FOUND)
                 && trade.memberTicket.None? && trade.memberVolume == 0
               else
                 var mapping := m.mappings[event.ticket];
                 && trade.attempts == 1 && trade.memberTicket == Some(mapping.memberTicket)
                 && if !IsLive(b, mapping.memberTicket) then
                      trade.status == FAILED && trade.error == Some(POSITION_NOT_FOUND) && trade.memberVolume == 0
                    else
                      && trade.status == SUCCESS && trade.error.None?
                      && trade.memberVolume ==
                         (if event.eventType == MODIFY then mapping.volume
                          else if event.eventType == PARTIAL_CLOSE
                          then CloseVolume(mapping.volume, event.closeFraction.GetOr(WHOLE))
                          else b.positions[mapping.memberTicket].volume)
  {
  }

  /** The row id is on a live position: the copy is recorded as filled by it and nothing is sent. */
  lemma LandedOrderIsRecorded(m: Member, b: Account, sub: Subscription, event: TradeEvent, symbol: Symbol, row: RowId,
                              at: Moment)
    returns (t: Ticket)
    requires Opens(event) && event.eventId !in m.rows && sub.settings.Some?
    requires exists u: Ticket :: u < b.nextTicket && IsLive(b, u) && b.positions[u].comment == row
    ensures t < b.nextTicket && IsLive(b, t) && b.positions[t].comment == row
    ensures var step := CopyToMember(m, b, sub, event, symbol, row, at);
            && step.broker == b && step.sent.None? && step.outcome == SUCCESS
            && event.eventId in step.member.rows && event.ticket in step.member.mappings
            && step.member.rows[event.eventId].memberVolume == b.positions[t].volume
            && step.member.mappings[event.ticket].memberTicket == b.positions[t].ticket
            && step.member.mappings[event.ticket].volume == b.positions[t].volume
            && (event.ticket !in m.mappings ==>
                step.member.mappings[event.ticket].openPrice == b.positions[t].openPrice)
  {
    var u: Ticket :| u < b.nextTicket && IsLive(b, u) && b.positions[u].comment == row;
    LandedOrderIsFound(b, row, 0, u);
    t := FindByComment(b, row, 0).value;
  }

  lemma {:induction false} LandedOrderIsFound(b: Account, row: RowId, from: Ticket, u: Ticket)
    requires from <= u < b.nextTicket && IsLive(b, u) && b.positions[u].comment == row
    ensures FindByComment(b, row, from).Some? && FindByComment(b, row, from).value < b.nextTicket
    decreases u - from
  {
    if from < u {
      LandedOrderIsFound(b, row, from + 1, u);
    }
  }
}
