/**
 * The stored mappings and the broker agree.
 *
 * `Tracked` is what always holds on a hedging account: no live position is
 * orphaned, none is claimed twice, and volumes match. `InSync` adds that every
 * mapping still holding volume has a live position; closes of whole positions
 * made at the broker itself (a stop, a take profit, the member's own hand) leave
 * it, and a sweep restores it. A partial close made there breaks `Tracked` for
 * good (`OutsideCloseTrackedIff`, `SweepRestoresSyncIff`).
 */
module MemberAgreement {
  import opened Common
  import opened TradeTypes
  import opened MockBroker
  import opened MemberModel

  /** A hedging account with consistent tickets. */
  ghost predicate BrokerOk(b: Account) {
    && !b.netting
    && forall t :: t in b.positions ==>
         t < b.nextTicket && (IsLive(b, t) ==> 0 < b.positions[t].volume <= LARGEST_ORDER)
  }

  predicate Holding(mapping: Mapping) {
    mapping.status != CLOSED && mapping.volume > 0
  }

  /** Every ticket a mapping has had since it was created, the current one last. */
  function Chain(mapping: Mapping): seq<Ticket> {
    mapping.ticketHistory + [mapping.memberTicket]
  }

  ghost predicate ChainOk(b: Account, mapping: Mapping) {
    && (forall i, j :: 0 <= i < j < |Chain(mapping)| ==> Chain(mapping)[i] != Chain(mapping)[j])
    && (forall t :: t in Chain(mapping) ==> t in b.positions)
    && (forall t :: t in mapping.ticketHistory ==> !IsLive(b, t))
  }

  ghost predicate MappingOk(b: Account, mapping: Mapping) {
    && ChainOk(b, mapping)
    && mapping.status != PENDING
    && (!Holding(mapping) ==> !IsLive(b, mapping.memberTicket))
    && (IsLive(b, mapping.memberTicket) ==> b.positions[mapping.memberTicket].volume == mapping.volume)
  }

  ghost predicate InChain(mappings: map<Ticket, Mapping>, k: Ticket, t: Ticket) {
    k in mappings && t in Chain(mappings[k])
  }

  ghost predicate ChainsDisjoint(mappings: map<Ticket, Mapping>) {
    forall k1, k2, t :: InChain(mappings, k1, t) && InChain(mappings, k2, t) ==> k1 == k2
  }

  ghost predicate Claimed(mappings: map<Ticket, Mapping>, t: Ticket) {
    exists k :: k in mappings && mappings[k].memberTicket == t
  }

  ghost predicate Tracked(m: Member, b: Account) {
    && BrokerOk(b)
    && (forall k :: k in m.mappings ==> MappingOk(b, m.mappings[k]))
    && ChainsDisjoint(m.mappings)
    && (forall t :: IsLive(b, t) ==> Claimed(m.mappings, t))
  }

  ghost predicate AllHeldLive(m: Member, b: Account) {
    forall k :: k in m.mappings && Holding(m.mappings[k]) ==> IsLive(b, m.mappings[k].memberTicket)
  }

  ghost predicate InSync(m: Member, b: Account) {
    Tracked(m, b) && AllHeldLive(m, b)
  }

  /**
   * The live positions are exactly the current tickets of the mappings holding
   * volume, one each, with equal volumes.
   */
  lemma InSyncMeaning(m: Member, b: Account)
    requires InSync(m, b)
    ensures (set t | t in b.positions && IsLive(b, t))
            == (set k | k in m.mappings && Holding(m.mappings[k]) :: m.mappings[k].memberTicket)
    ensures forall k :: k in m.mappings && Holding(m.mappings[k]) ==>
              b.positions[m.mappings[k].memberTicket].volume == m.mappings[k].volume
    ensures forall k1, k2 | k1 in m.mappings && k2 in m.mappings && k1 != k2 ::
              m.mappings[k1].memberTicket != m.mappings[k2].memberTicket
  {
    forall k1, k2 | k1 in m.mappings && k2 in m.mappings && k1 != k2
      ensures m.mappings[k1].memberTicket != m.mappings[k2].memberTicket
    {
      assert InChain(m.mappings, k1, m.mappings[k1].memberTicket);
      assert InChain(m.mappings, k2, m.mappings[k2].memberTicket);
    }
    forall t | IsLive(b, t)
      ensures exists k :: k in m.mappings && Holding(m.mappings[k]) && m.mappings[k].memberTicket == t
    {
      assert Claimed(m.mappings, t);
    }
  }

  // ---- Changing one mapping and its own tickets ----------------------------

  /** Only tickets of mapping `k`, and tickets not issued before, differ between the two broker states. */
  ghost predicate TouchesOnly(m: Member, b: Account, b': Account, k: Ticket) {
    forall t :: t in b.positions && !InChain(m.mappings, k, t) ==>
        t in b'.positions && b'.positions[t] == b.positions[t]
  }

  /** Mapping `k` is replaced; its tickets are its former ones or newly issued, and at most its current one is live. */
  ghost predicate Replaces(m: Member, b: Account, m': Member, b': Account, k: Ticket, mapping: Mapping) {
    && m'.mappings == m.mappings[k := mapping]
    && TouchesOnly(m, b, b', k)
    && (forall t :: t in Chain(mapping) ==> InChain(m.mappings, k, t) || t !in b.positions)
    && (forall t :: IsLive(b', t) && (InChain(m.mappings, k, t) || t !in b.positions) ==> t == mapping.memberTicket)
  }

  lemma OneMappingChanges(m: Member, b: Account, m': Member, b': Account, k: Ticket, mapping: Mapping)
    requires Tracked(m, b) && BrokerOk(b')
    requires Replaces(m, b, m', b', k, mapping) && MappingOk(b', mapping)
    ensures Tracked(m', b')
    ensures AllHeldLive(m, b) && (Holding(mapping) ==> IsLive(b', mapping.memberTicket)) ==> AllHeldLive(m', b')
  {
    forall k1 | k1 in m'.mappings && k1 != k
      ensures MappingOk(b', m'.mappings[k1]) && m'.mappings[k1] == m.mappings[k1]
      ensures IsLive(b', m.mappings[k1].memberTicket) <==> IsLive(b, m.mappings[k1].memberTicket)
    {
      OtherMappingKept(m, b, b', k, k1);
    }
    ReplacedStaysDisjoint(m, b, m', b', k, mapping);
    forall t | IsLive(b', t)
      ensures Claimed(m'.mappings, t)
    {
      ReplacedStaysClaimed(m, b, m', b', k, mapping, t);
    }
  }

  lemma ReplacedStaysDisjoint(m: Member, b: Account, m': Member, b': Account, k: Ticket, mapping: Mapping)
    requires Tracked(m, b) && Replaces(m, b, m', b', k, mapping)
    ensures ChainsDisjoint(m'.mappings)
  {
    forall k1, k2, t | InChain(m'.mappings, k1, t) && InChain(m'.mappings, k2, t)
      ensures k1 == k2
    {
      assert k1 != k ==> InChain(m.mappings, k1, t) && MappingOk(b, m.mappings[k1]);
      assert k2 != k ==> InChain(m.mappings, k2, t) && MappingOk(b, m.mappings[k2]);
    }
  }

  lemma ReplacedStaysClaimed(m: Member, b: Account, m': Member, b': Account, k: Ticket, mapping: Mapping, t: Ticket)
    requires Tracked(m, b) && Replaces(m, b, m', b', k, mapping) && IsLive(b', t)
    ensures Claimed(m'.mappings, t)
  {
    if InChain(m.mappings, k, t) || t !in b.positions {
      assert m'.mappings[k].memberTicket == t;
    } else {
      assert IsLive(b, t);
      var k1 :| k1 in m.mappings && m.mappings[k1].memberTicket == t;
      assert InChain(m.mappings, k1, t);
      assert m'.mappings[k1].memberTicket == t;
    }
  }

  lemma OtherMappingKept(m: Member, b: Account, b': Account, k: Ticket, k1: Ticket)
    requires Tracked(m, b) && TouchesOnly(m, b, b', k)
    requires k1 in m.mappings && k1 != k
    ensures MappingOk(b', m.mappings[k1])
    ensures IsLive(b', m.mappings[k1].memberTicket) <==> IsLive(b, m.mappings[k1].memberTicket)
  {
    var mapping := m.mappings[k1];
    assert MappingOk(b, mapping);
    forall t | t in Chain(mapping)
      ensures t in b'.positions && b'.positions[t] == b.positions[t]
    {
      assert InChain(m.mappings, k1, t);
    }
    assert mapping.memberTicket in Chain(mapping);
    assert forall t :: t in mapping.ticketHistory ==> t in Chain(mapping);
  }

  // ---- OPEN ----------------------------------------------------------------

  ghost predicate CommentsBelow(b: Account, row: RowId) {
    forall t :: t in b.positions ==> b.positions[t].comment < row
  }

  /**
   * The lookup for an order that already landed cannot find one: the row id it
   * searches for is created in the same call, so no earlier order carries it.
   */
  lemma RecoveryNeverFires(b: Account, row: RowId)
    requires CommentsBelow(b, row)
    ensures FindByComment(b, row, 0).None?
  {
  }

  /** The master ticket is not mapped to a position still held. */
  predicate NotHeld(m: Member, ticket: Ticket) {
    ticket in m.mappings ==> !Holding(m.mappings[ticket])
  }

  /** What an executed order on a hedging account leaves behind. */
  ghost predicate Opened(b: Account, b': Account, request: OpenRequest) {
    var t := b.nextTicket;
    && b'.nextTicket == t + 1
    && b'.closes == b.closes
    && b'.netting == b.netting && b'.platform == b.platform
    && t in b'.positions
    && b'.positions == b.positions[t := b'.positions[t]]
    && b'.positions[t].ticket == t
    && !b'.positions[t].closed
    && b'.positions[t].volume == request.volume
    && b'.positions[t].comment == request.clientId
    && 0 < request.volume <= LARGEST_ORDER
  }

  lemma OpenEffect(b: Account, request: OpenRequest, price: int)
    requires !b.netting
    ensures var (b', result) := OpenPosition(b, request, price);
            match result
            case Rejected(_) => b' == b
            case Executed(t, _, _, _) => t == b.nextTicket && Opened(b, b', request)
  {
  }

  lemma FillTracked(m: Member, b: Account, m': Member, b': Account, k: Ticket, request: OpenRequest, mapping: Mapping)
    requires Tracked(m, b) && NotHeld(m, k) && Opened(b, b', request)
    requires m'.mappings == m.mappings[k := mapping]
    requires mapping.memberTicket == b.nextTicket && mapping.volume == request.volume && mapping.status == OPENED
    requires mapping.ticketHistory == (if k in m.mappings then m.mappings[k].ticketHistory else [])
    ensures Tracked(m', b')
    ensures AllHeldLive(m, b) ==> AllHeldLive(m', b')
  {
    assert b.nextTicket !in b.positions;
    if k in m.mappings {
      var old' := m.mappings[k];
      assert MappingOk(b, old');
      assert forall t :: t in old'.ticketHistory ==> t in Chain(old');
      forall i, j | 0 <= i < j < |Chain(mapping)|
        ensures Chain(mapping)[i] != Chain(mapping)[j]
      {
        assert Chain(mapping)[i] == Chain(old')[i];
        if j < |Chain(mapping)| - 1 {
          assert Chain(mapping)[j] == Chain(old')[j];
        } else {
          assert Chain(old')[i] in b.positions;
        }
      }
      forall t | InChain(m.mappings, k, t)
        ensures !IsLive(b', t)
      {
        assert t in Chain(old') && t in b.positions;
      }
    }
    OneMappingChanges(m, b, m', b', k, mapping);
  }

  lemma SendTracked(m: Member, b: Account, sub: Subscription, event: TradeEvent, symbol: Symbol, request: OpenRequest,
                    at: Moment)
    requires event.eventId in m.rows && Tracked(m, b) && NotHeld(m, event.ticket)
    ensures var step := Send(m, b, sub, event, symbol, request, at);
            Tracked(step.member, step.broker) && (AllHeldLive(m, b) ==> AllHeldLive(step.member, step.broker))
  {
    OpenEffect(b, request, at.price);
    var (b', result) := OpenPosition(b, request, at.price);
    var step := Send(m, b, sub, event, symbol, request, at);
    match result {
      case Rejected(_) => assert step.member.mappings == m.mappings;
      case Executed(t, _, price, _) =>
        FillTracked(m, b, step.member, b', event.ticket, request,
                    FilledMapping(m, sub, event, symbol, t, price, request.volume, at.now));
    }
  }

  /** How an OPEN that was not refused before sending reached the broker: through `Send`, from unchanged mappings. */
  lemma OpenReduces(m: Member, b: Account, sub: Subscription, event: TradeEvent, symbol: Symbol, row: RowId, at: Moment)
    returns (before: Member, request: OpenRequest)
    requires event.eventId in m.rows && CommentsBelow(b, row)
    ensures before.mappings == m.mappings && event.eventId in before.rows && request.clientId == row
    ensures var step := OpenForMember(m, b, sub, event, symbol, row, at);
            if step.sent.Some? then
              step == Send(before, b, sub, event, symbol, request, at)
            else
              step.broker == b && step.member.mappings == m.mappings && step.outcome == SKIPPED
  {
    RecoveryNeverFires(b, row);
    var step := OpenForMember(m, b, sub, event, symbol, row, at);
    before := m.(risk := Some(TodaysRisk(m, at.today)));
    request := if step.sent.Some? then step.sent.value
               else OpenRequest(symbol, event.orderType, 0, None, None, row);
  }

  // ---- MODIFY, CLOSE, PARTIAL_CLOSE, DELETE_PENDING ------------------------

  /** What a full close of a live ticket leaves behind. */
  ghost predicate FullyClosed(b: Account, b': Account, t: Ticket) {
    && IsLive(b, t)
    && b'.nextTicket == b.nextTicket && b'.netting == b.netting && b'.platform == b.platform
    && b'.positions == b.positions[t := b.positions[t].(closed := true)]
  }

  ghost predicate Split(b: Account, b': Account, t: Ticket, closing: nat) {
    && IsLive(b, t) && closing < b.positions[t].volume
    && b'.nextTicket == b.nextTicket + 1 && b'.netting == b.netting && b'.platform == b.platform
    && b'.positions == b.positions[t := b.positions[t].(closed := true)]
                                  [b.nextTicket := b.positions[t].(ticket := b.nextTicket,
                                                                   volume := b.positions[t].volume - closing)]
  }

  ghost predicate Shrunk(b: Account, b': Account, t: Ticket, closing: nat) {
    && IsLive(b, t) && closing < b.positions[t].volume
    && b'.nextTicket == b.nextTicket && b'.netting == b.netting && b'.platform == b.platform
    && b'.positions == b.positions[t := b.positions[t].(volume := b.positions[t].volume - closing)]
  }

  lemma CloseEffect(b: Account, t: Ticket, volume: Option<nat>, price: int, now: int)
    ensures var (b', result) := ClosePosition(b, t, volume, price, now);
            if !IsLive(b, t) then
              b' == b && result.Rejected?
            else
              var closing := volume.GetOr(b.positions[t].volume);
              if closing >= b.positions[t].volume then
                result == Executed(t, None, None, Some(closing)) && FullyClosed(b, b', t)
              else if b.platform == MT4 then
                result == Executed(t, Some(b.nextTicket), None, Some(closing)) && Split(b, b', t, closing)
              else
                result == Executed(t, None, None, Some(closing)) && Shrunk(b, b', t, closing)
  {
  }

  /** A close made at the broker that leaves nothing of the position, or changes nothing at all. */
  predicate WholeClose(b: Account, t: Ticket, volume: Option<nat>) {
    || !IsLive(b, t)
    || volume.GetOr(b.positions[t].volume) >= b.positions[t].volume
    || (b.platform == MT5 && volume == Some(0))
  }

  lemma WholeCloseTracked(m: Member, b: Account, t: Ticket, volume: Option<nat>, price: int, now: int)
    requires Tracked(m, b) && WholeClose(b, t, volume)
    ensures Tracked(m, ClosePosition(b, t, volume, price, now).0)
  {
    CloseEffect(b, t, volume, price, now);
    var b' := ClosePosition(b, t, volume, price, now).0;
    forall k | k in m.mappings
      ensures MappingOk(b', m.mappings[k])
    {
      assert MappingOk(b, m.mappings[k]);
    }
    forall u | IsLive(b', u)
      ensures Claimed(m.mappings, u)
    {
      assert IsLive(b, u);
    }
  }

  lemma PartCloseBreaks(m: Member, b: Account, t: Ticket, volume: Option<nat>, price: int, now: int)
    requires Tracked(m, b) && !WholeClose(b, t, volume)
    ensures !Tracked(m, ClosePosition(b, t, volume, price, now).0)
  {
    CloseEffect(b, t, volume, price, now);
    var b' := ClosePosition(b, t, volume, price, now).0;
    if b.platform == MT4 {
      assert b.nextTicket !in b.positions && IsLive(b', b.nextTicket);
      forall k | k in m.mappings
        ensures m.mappings[k].memberTicket != b.nextTicket
      {
        assert MappingOk(b, m.mappings[k]);
        assert m.mappings[k].memberTicket in Chain(m.mappings[k]);
      }
      assert !Claimed(m.mappings, b.nextTicket);
    } else {
      var k :| k in m.mappings && m.mappings[k].memberTicket == t;
      assert MappingOk(b, m.mappings[k]);
      assert !MappingOk(b', m.mappings[k]);
    }
  }

  /**
   * A close made at the broker itself, by a stop or by hand, keeps the
   * agreement if and only if it closes the whole position (or closes nothing):
   * after a partial one MT4 holds a remainder nobody claims, and on MT5 the
   * volumes differ.
   */
  lemma OutsideCloseTrackedIff(m: Member, b: Account, t: Ticket, volume: Option<nat>, price: int, now: int)
    requires Tracked(m, b)
    ensures Tracked(m, ClosePosition(b, t, volume, price, now).0) <==> WholeClose(b, t, volume)
  {
    if WholeClose(b, t, volume) {
      WholeCloseTracked(m, b, t, volume, price, now);
    } else {
      PartCloseBreaks(m, b, t, volume, price, now);
    }
  }

  /** The live position of mapping `k` ended; the mapping no longer holds volume. */
  lemma FullCloseTracked(m: Member, b: Account, m': Member, b': Account, k: Ticket, mapping: Mapping)
    requires Tracked(m, b) && k in m.mappings && FullyClosed(b, b', m.mappings[k].memberTicket)
    requires m'.mappings == m.mappings[k := mapping]
    requires mapping.status != PENDING && mapping.memberTicket == m.mappings[k].memberTicket
    requires mapping.ticketHistory == m.mappings[k].ticketHistory && !Holding(mapping)
    ensures Tracked(m', b')
    ensures AllHeldLive(m, b) ==> AllHeldLive(m', b')
  {
    var t := m.mappings[k].memberTicket;
    assert MappingOk(b, m.mappings[k]);
    assert t in Chain(m.mappings[k]);
    OneMappingChanges(m, b, m', b', k, mapping);
  }

  lemma SplitTracked(m: Member, b: Account, m': Member, b': Account, k: Ticket, closing: nat)
    requires Tracked(m, b) && k in m.mappings && Split(b, b', m.mappings[k].memberTicket, closing)
    requires m'.mappings == m.mappings[k := Remapped(m.mappings[k], b.nextTicket, closing)]
    ensures Tracked(m', b')
    ensures AllHeldLive(m, b) ==> AllHeldLive(m', b')
  {
    var old', mapping := m.mappings[k], Remapped(m.mappings[k], b.nextTicket, closing);
    assert MappingOk(b, old');
    assert mapping.ticketHistory == Chain(old');
    assert old'.memberTicket in Chain(old');
    assert b.nextTicket !in b.positions;
    forall i, j | 0 <= i < j < |Chain(mapping)|
      ensures Chain(mapping)[i] != Chain(mapping)[j]
    {
      assert Chain(mapping)[i] == Chain(old')[i] && Chain(old')[i] in b.positions;
    }
    forall t | t in Chain(old')
      ensures !IsLive(b', t)
    {
      if t != old'.memberTicket {
        assert t in old'.ticketHistory;
      }
    }
    OneMappingChanges(m, b, m', b', k, mapping);
  }

  lemma ShrinkTracked(m: Member, b: Account, m': Member, b': Account, k: Ticket, closing: nat)
    requires Tracked(m, b) && k in m.mappings && Shrunk(b, b', m.mappings[k].memberTicket, closing)
    requires m'.mappings == m.mappings[k := Reduced(m.mappings[k], closing)]
    ensures Tracked(m', b')
    ensures AllHeldLive(m, b) ==> AllHeldLive(m', b')
  {
    var mapping := Reduced(m.mappings[k], closing);
    assert MappingOk(b, m.mappings[k]);
    assert Chain(mapping) == Chain(m.mappings[k]);
    assert mapping.memberTicket in Chain(m.mappings[k]);
    OneMappingChanges(m, b, m', b', k, mapping);
  }

  lemma ModifyTracked(m: Member, b: Account, m': Member, k: Ticket, sl: Option<int>, tp: Option<int>)
    requires Tracked(m, b) && k in m.mappings && m'.mappings == m.mappings
    ensures var b' := ModifyPosition(b, m.mappings[k].memberTicket, sl, tp).0;
            Tracked(m', b') && (AllHeldLive(m, b) ==> AllHeldLive(m', b'))
  {
    var t := m.mappings[k].memberTicket;
    var b' := ModifyPosition(b, t, sl, tp).0;
    if IsLive(b, t) {
      assert MappingOk(b, m.mappings[k]);
      assert t in Chain(m.mappings[k]);
      assert m'.mappings == m.mappings[k := m.mappings[k]];
      OneMappingChanges(m, b, m', b', k, m.mappings[k]);
    }
  }

  lemma AdjustTracked(m: Member, b: Account, sub: Subscription, event: TradeEvent, at: Moment)
    requires event.eventId in m.rows && !Opens(event) && Tracked(m, b)
    ensures var step := AdjustForMember(m, b, sub, event, at);
            Tracked(step.member, step.broker) && (AllHeldLive(m, b) ==> AllHeldLive(step.member, step.broker))
  {
    var step := AdjustForMember(m, b, sub, event, at);
    var k := event.ticket;
    if k !in m.mappings || m.mappings[k].status == CLOSED {
      assert step.member.mappings == m.mappings;
      return;
    }
    var mapping := m.mappings[k];
    if event.eventType == MODIFY {
      ModifyTracked(m, b, step.member, k,
                    if sub.settings.None? || sub.settings.value.copySl then event.sl else None,
                    if sub.settings.None? || sub.settings.value.copyTp then event.tp else None);
      return;
    }
    var t := mapping.memberTicket;
    var volume := if event.eventType == PARTIAL_CLOSE
                  then Some(CloseVolume(mapping.volume, event.closeFraction.GetOr(WHOLE))) else None;
    CloseEffect(b, t, volume, at.price, at.now);
    assert MappingOk(b, mapping);
    if IsLive(b, t) {
      var closing := volume.GetOr(b.positions[t].volume);
      if closing >= b.positions[t].volume {
        FullCloseTracked(m, b, step.member, step.broker, k, step.member.mappings[k]);
      } else if b.platform == MT4 {
        SplitTracked(m, b, step.member, step.broker, k, closing);
      } else {
        ShrinkTracked(m, b, step.member, step.broker, k, closing);
      }
    } else {
      assert step.member.mappings == m.mappings;
    }
  }

  // ---- Copying one event ---------------------------------------------------

  /** A new OPEN, not a repeated one, must find its master ticket holding nothing. */
  predicate SafeToCopy(m: Member, event: TradeEvent) {
    Opens(event) && event.eventId !in m.rows ==> NotHeld(m, event.ticket)
  }

  /**
   * Copying any event keeps the store and the broker in agreement, as long as
   * an OPEN does not reuse a master ticket whose position is still held.
   */
  lemma CopyTracked(m: Member, b: Account, sub: Subscription, event: TradeEvent, symbol: Symbol, row: RowId, at: Moment)
    requires Tracked(m, b) && CommentsBelow(b, row)
    requires SafeToCopy(m, event)
    ensures var step := CopyToMember(m, b, sub, event, symbol, row, at);
            Tracked(step.member, step.broker) && (AllHeldLive(m, b) ==> AllHeldLive(step.member, step.broker))
  {
    var e := event.eventId;
    if e !in m.rows {
      var m1 := m.(rows := m.rows[e := NewRow(sub, event, row)]);
      if Opens(event) {
        var before, request := OpenReduces(m1, b, sub, event, symbol, row, at);
        SendTracked(before, b, sub, event, symbol, request, at);
      } else {
        AdjustTracked(m1, b, sub, event, at);
      }
    }
  }

  /** An OPEN executed over a position still held leaves that position unclaimed. */
  lemma RefillOrphans(m: Member, b: Account, sub: Subscription, event: TradeEvent, symbol: Symbol, row: RowId,
                      at: Moment)
    requires InSync(m, b) && CommentsBelow(b, row) && Opens(event) && event.eventId !in m.rows
    requires CopyToMember(m, b, sub, event, symbol, row, at).outcome == SUCCESS && !NotHeld(m, event.ticket)
    ensures var step := CopyToMember(m, b, sub, event, symbol, row, at);
            var t := m.mappings[event.ticket].memberTicket;
            IsLive(step.broker, t) && !Claimed(step.member.mappings, t)
  {
    var step := CopyToMember(m, b, sub, event, symbol, row, at);
    var m1 := m.(rows := m.rows[event.eventId := NewRow(sub, event, row)]);
    var before, request := OpenReduces(m1, b, sub, event, symbol, row, at);
    OpenEffect(b, request, at.price);
    var t := m.mappings[event.ticket].memberTicket;
    assert InChain(m.mappings, event.ticket, t);
    assert IsLive(b, t) && t != b.nextTicket;
    forall k | k in step.member.mappings
      ensures step.member.mappings[k].memberTicket != t
    {
      if k != event.ticket {
        assert InChain(m.mappings, k, m.mappings[k].memberTicket);
      }
    }
  }

  /**
   * The condition is exact, and known before the copy: an OPEN leaves an
   * agreeing state if and only if its master ticket held nothing, or settings,
   * sizing, risk or the symbol's limits stop it.
   */
  lemma OpenKeepsAgreementIff(m: Member, b: Account, sub: Subscription, event: TradeEvent, symbol: Symbol, row: RowId,
                              at: Moment)
    requires InSync(m, b) && CommentsBelow(b, row) && Opens(event) && event.eventId !in m.rows
    ensures var step := CopyToMember(m, b, sub, event, symbol, row, at);
            InSync(step.member, step.broker) <==>
              NotHeld(m, event.ticket) || !Executes(m, b, sub, event, symbol, row, at)
  {
    ExecutesIff(m, b, sub, event, symbol, row, at);
    if NotHeld(m, event.ticket) {
      CopyTracked(m, b, sub, event, symbol, row, at);
    } else if Executes(m, b, sub, event, symbol, row, at) {
      RefillOrphans(m, b, sub, event, symbol, row, at);
    } else {
      StoppedOpenKeeps(m, b, sub, event, symbol, row, at);
    }
  }

  lemma StoppedOpenKeeps(m: Member, b: Account, sub: Subscription, event: TradeEvent, symbol: Symbol, row: RowId,
                         at: Moment)
    requires InSync(m, b) && CommentsBelow(b, row) && Opens(event) && event.eventId !in m.rows
    requires CopyToMember(m, b, sub, event, symbol, row, at).outcome != SUCCESS
    ensures var step := CopyToMember(m, b, sub, event, symbol, row, at);
            InSync(step.member, step.broker)
  {
    var m1 := m.(rows := m.rows[event.eventId := NewRow(sub, event, row)]);
    var before, request := OpenReduces(m1, b, sub, event, symbol, row, at);
    OpenEffect(b, request, at.price);
    var step := CopyToMember(m, b, sub, event, symbol, row, at);
    assert step.broker == b && step.member.mappings == m.mappings;
  }

  /** Orders carry the row id they are sent for; nothing else writes one, on hedging and netting accounts alike. */
  lemma OpenComments(b: Account, request: OpenRequest, price: int, row: RowId)
    requires CommentsBelow(b, row) && request.clientId == row
    ensures var b' := OpenPosition(b, request, price).0;
            CommentsBelow(b', row + 1) && b'.netting == b.netting
  {
  }

  lemma CopyComments(m: Member, b: Account, sub: Subscription, event: TradeEvent, symbol: Symbol, row: RowId,
                     at: Moment)
    requires CommentsBelow(b, row)
    ensures var step := CopyToMember(m, b, sub, event, symbol, row, at);
            CommentsBelow(step.broker, row + 1) && step.broker.netting == b.netting
  {
    var e := event.eventId;
    if e !in m.rows {
      var m1 := m.(rows := m.rows[e := NewRow(sub, event, row)]);
      if Opens(event) {
        var before, request := OpenReduces(m1, b, sub, event, symbol, row, at);
        OpenComments(b, request, at.price, row);
      }
    }
  }
}
