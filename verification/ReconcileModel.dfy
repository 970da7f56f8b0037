/** What one sweep over a member account does (src/services/reconcile.service.ts). */
module ReconcileModel {
  import opened Common
  import opened TradeTypes
  import opened MockBroker
  import opened MemberModel
  import opened MemberAgreement

  /** 24 hours, in seconds. */
  const RETRY_WINDOW: int := 86400

  const BATCH_SIZE: nat := 20

  datatype ReconcileResult = ReconcileResult(openPositions: nat, closedMappings: nat, equity: int)

  predicate BelievedOpen(mapping: Mapping) {
    mapping.status == OPENED || mapping.status == PARTIALLY_CLOSED
  }

  /** Believed open, but the broker no longer reports the position. */
  predicate Vanished(b: Account, mapping: Mapping) {
    BelievedOpen(mapping) && !IsLive(b, mapping.memberTicket)
  }

  function CloseVanished(b: Account, mapping: Mapping, now: int): Mapping {
    if Vanished(b, mapping) then Ended(mapping, GetClosedPosition(b, mapping.memberTicket), None, now) else mapping
  }

  predicate MissingResult(mapping: Mapping, now: int) {
    mapping.status == CLOSED && mapping.profit.None?
    && mapping.closedAt.Some? && mapping.closedAt.value >= now - RETRY_WINDOW
  }

  function Backfilled(b: Account, mapping: Mapping): Mapping {
    match GetClosedPosition(b, mapping.memberTicket)
    case None => mapping
    case Some(r) => mapping.(closePrice := Some(r.closePrice), profit := Some(r.profit), closeReason := Some(r.reason))
  }

  /** An answer to "the 20 most recently closed mappings still missing a result". */
  ghost predicate IsBatch(mappings: map<Ticket, Mapping>, now: int, batch: set<Ticket>) {
    && (forall k :: k in batch ==> k in mappings && MissingResult(mappings[k], now))
    && |batch| <= BATCH_SIZE
    && forall k :: k in mappings && MissingResult(mappings[k], now) && k !in batch ==>
         |batch| == BATCH_SIZE
         && forall j :: j in batch ==> mappings[k].closedAt.value <= mappings[j].closedAt.value
  }

  ghost function AfterVanished(b: Account, mappings: map<Ticket, Mapping>, now: int): map<Ticket, Mapping> {
    map k | k in mappings :: CloseVanished(b, mappings[k], now)
  }

  ghost function AfterBackfill(b: Account, mappings: map<Ticket, Mapping>, batch: set<Ticket>): map<Ticket, Mapping> {
    map k | k in mappings :: if k in batch then Backfilled(b, mappings[k]) else mappings[k]
  }

  predicate Reachable(m: Member) {
    m.connection == CONNECTED || m.connection == ERROR
  }

  /** `equity` is the broker's figure at the time of the sweep. */
  ghost function Sweep(m: Member, b: Account, equity: int, batch: set<Ticket>, now: int): Member {
    if !Reachable(m) then
      m
    else
      m.(mappings := AfterBackfill(b, AfterVanished(b, m.mappings, now), batch),
         balance := b.balance,
         equity := equity,
         peakEquity := Max(m.peakEquity, equity),
         openTrades := |LivePositions(b)|,
         connection := CONNECTED)
  }

  ghost function VanishedKeys(m: Member, b: Account): set<Ticket> {
    set k | k in m.mappings && Vanished(b, m.mappings[k])
  }

  /** A sweep closes exactly the open mappings whose ticket is not live, and never reopens one. */
  lemma SweepClosesExactlyVanished(m: Member, b: Account, equity: int, batch: set<Ticket>, now: int)
    requires Reachable(m) && IsBatch(AfterVanished(b, m.mappings, now), now, batch)
    ensures var m' := Sweep(m, b, equity, batch, now);
            && m'.mappings.Keys == m.mappings.Keys
            && (forall k :: k in m.mappings ==>
                  (m'.mappings[k].status == CLOSED <==> m.mappings[k].status == CLOSED || Vanished(b, m.mappings[k])))
            && (forall k :: k in m.mappings && !Vanished(b, m.mappings[k]) && k !in batch ==>
                  m'.mappings[k] == m.mappings[k])
  {
  }

  /**
   * On an unchanged broker a second sweep closes nothing, and the only rows it
   * still writes are results the first one's limit of 20 left out.
   */
  lemma SecondSweepOnlyFillsLeftovers(m: Member, b: Account, equity: int, batch: set<Ticket>, batch': set<Ticket>,
                                      now: int, k: Ticket)
    requires Reachable(m) && k in m.mappings
    requires IsBatch(AfterVanished(b, m.mappings, now), now, batch)
    requires IsBatch(AfterVanished(b, Sweep(m, b, equity, batch, now).mappings, now), now, batch')
    ensures var once := Sweep(m, b, equity, batch, now);
            var twice := Sweep(once, b, equity, batch', now);
            && VanishedKeys(once, b) == {}
            && (twice.mappings[k] != once.mappings[k] ==>
                  MissingResult(once.mappings[k], now) && k in batch' && k !in batch &&
                      once.mappings[k].memberTicket in b.closes)
  {
    var once := Sweep(m, b, equity, batch, now);
    forall j | j in once.mappings
      ensures !Vanished(b, once.mappings[j])
    {
      assert once.mappings[j].memberTicket == m.mappings[j].memberTicket;
    }
    var again := AfterVanished(b, once.mappings, now);
    assert again[k] == once.mappings[k];
    if k in batch' {
      assert MissingResult(again[k], now);
    }
  }

  /**
   * A realised result is never changed or erased by a sweep. A mapping it
   * closes takes time, price, profit and reason from the broker's record, or
   * the time of the sweep and nothing else; a row in the batch that the broker
   * knows is filled and keeps its close time.
   */
  lemma SweepKeepsResults(m: Member, b: Account, equity: int, batch: set<Ticket>, now: int, k: Ticket)
    requires Reachable(m) && IsBatch(AfterVanished(b, m.mappings, now), now, batch)
    requires k in m.mappings
    ensures var was, mapping := m.mappings[k], Sweep(m, b, equity, batch, now).mappings[k];
            && (was.status == CLOSED && was.profit.Some? ==> mapping == was)
            && mapping == was.(status := mapping.status, closedAt := mapping.closedAt,
                               closePrice := mapping.closePrice, profit := mapping.profit,
                               closeReason := mapping.closeReason)
            && ((k in batch || Vanished(b, was)) && was.memberTicket in b.closes ==>
                  && mapping.profit == Some(b.closes[was.memberTicket].profit)
                  && mapping.closePrice == Some(b.closes[was.memberTicket].closePrice)
                  && mapping.closeReason == Some(b.closes[was.memberTicket].reason))
            && (Vanished(b, was) ==>
                  mapping.closedAt == Some(if was.memberTicket in b.closes then b.closes[was.memberTicket].closedAt
                                           else now))
            && (Vanished(b, was) && was.memberTicket !in b.closes ==>
                  mapping.profit.None? && mapping.closePrice.None? && mapping.closeReason.None?)
            && (!Vanished(b, was) ==> mapping.closedAt == was.closedAt)
  {
    var vanished := AfterVanished(b, m.mappings, now);
    if k in batch {
      assert k in vanished && MissingResult(vanished[k], now);
    }
  }

  /**
   * A closed mapping without a result gets one from a sweep only within a day
   * of its close; and within that day it stays without one only if the broker
   * has none, or if 20 others at least as recent were asked about instead.
   */
  lemma RetryWithinADay(m: Member, b: Account, equity: int, batch: set<Ticket>, now: int, k: Ticket)
    requires Reachable(m) && IsBatch(AfterVanished(b, m.mappings, now), now, batch)
    requires k in m.mappings && m.mappings[k].status == CLOSED && m.mappings[k].profit.None?
    ensures var was, mapping := m.mappings[k], Sweep(m, b, equity, batch, now).mappings[k];
            var recent := was.closedAt.Some? && was.closedAt.value >= now - 24 * 60 * 60;
            && (mapping.profit.Some? ==> recent && was.memberTicket in b.closes)
            && (mapping.profit.None? && recent ==>
                  || was.memberTicket !in b.closes
                  || (|batch| == 20 && forall j :: j in batch ==>
                        j in m.mappings && Sweep(m, b, equity, batch, now).mappings[j].closedAt.Some?
                        && was.closedAt.value <= Sweep(m, b, equity, batch, now).mappings[j].closedAt.value))
  {
    var vanished := AfterVanished(b, m.mappings, now);
    assert vanished[k] == m.mappings[k];
    assert MissingResult(vanished[k], now) <==>
             m.mappings[k].closedAt.Some? && m.mappings[k].closedAt.value >= now - 24 * 60 * 60;
    forall j | j in batch
      ensures j in m.mappings && Sweep(m, b, equity, batch, now).mappings[j].closedAt == vanished[j].closedAt
    {
      assert j in vanished;
    }
  }

  /**
   * What a sweep says about the account itself: for one that is connected or in
   * error, the broker's figures and never a lower peak; nothing for another.
   */
  lemma SweepTakesBrokerFigures(m: Member, b: Account, equity: int, batch: set<Ticket>, now: int)
    ensures m.connection == DISCONNECTED ==> Sweep(m, b, equity, batch, now) == m
    ensures m.connection in {CONNECTED, ERROR} ==>
              var m' := Sweep(m, b, equity, batch, now);
              && m'.balance == b.balance && m'.equity == equity && m'.connection == CONNECTED
              && m'.openTrades == |set t | t in b.positions && !b.positions[t].closed|
              && m'.peakEquity >= m.peakEquity && m'.peakEquity >= equity
              && m'.peakEquity in {m.peakEquity, equity}
              && m'.rows == m.rows && m'.risk == m.risk && m'.copying == m.copying
  {
    assert LivePositions(b).Keys == set t | t in b.positions && !b.positions[t].closed;
  }

  /** Sweeping a mapping neither loses nor repairs its agreement with the broker. */
  lemma SweptMapping(m: Member, b: Account, equity: int, batch: set<Ticket>, now: int, k: Ticket)
    requires Reachable(m) && k in m.mappings
    ensures var mapping := Sweep(m, b, equity, batch, now).mappings[k];
            && (MappingOk(b, mapping) <==> MappingOk(b, m.mappings[k])) && Chain(mapping) == Chain(m.mappings[k])
            && mapping.memberTicket == m.mappings[k].memberTicket
            && (MappingOk(b, mapping) && Holding(mapping) ==> IsLive(b, mapping.memberTicket))
  {
    var mapping := Sweep(m, b, equity, batch, now).mappings[k];
    assert mapping.ticketHistory == m.mappings[k].ticketHistory;
    assert Chain(mapping) == Chain(m.mappings[k]);
  }

  lemma SweptChains(m: Member, b: Account, equity: int, batch: set<Ticket>, now: int)
    requires Reachable(m)
    ensures var m' := Sweep(m, b, equity, batch, now);
            && (forall k, t :: InChain(m'.mappings, k, t) <==> InChain(m.mappings, k, t))
            && (forall t :: Claimed(m'.mappings, t) <==> Claimed(m.mappings, t))
  {
    var m' := Sweep(m, b, equity, batch, now);
    forall k | k in m.mappings
      ensures Chain(m'.mappings[k]) == Chain(m.mappings[k]) && m'.mappings[k].memberTicket == m.mappings[k].memberTicket
    {
      SweptMapping(m, b, equity, batch, now, k);
    }
    forall t
      ensures Claimed(m'.mappings, t) <==> Claimed(m.mappings, t)
    {
      if k :| k in m.mappings && m.mappings[k].memberTicket == t {
        assert m'.mappings[k].memberTicket == t;
      }
      if k :| k in m'.mappings && m'.mappings[k].memberTicket == t {
        assert m.mappings[k].memberTicket == t;
      }
    }
  }

  lemma SweptMappingsOk(m: Member, b: Account, equity: int, batch: set<Ticket>, now: int)
    requires Reachable(m)
    ensures var m' := Sweep(m, b, equity, batch, now);
            (forall k :: k in m'.mappings ==> MappingOk(b, m'.mappings[k]))
            <==> (forall k :: k in m.mappings ==> MappingOk(b, m.mappings[k]))
  {
    forall k | k in m.mappings
      ensures MappingOk(b, Sweep(m, b, equity, batch, now).mappings[k]) <==> MappingOk(b, m.mappings[k])
    {
      SweptMapping(m, b, equity, batch, now, k);
    }
  }

  /**
   * A sweep restores full agreement if and only if no position was orphaned or
   * claimed twice and every live volume was right: it cannot repair those.
   */
  lemma SweepRestoresSyncIff(m: Member, b: Account, equity: int, batch: set<Ticket>, now: int)
    requires Reachable(m)
    ensures InSync(Sweep(m, b, equity, batch, now), b) <==> Tracked(m, b)
  {
    var m' := Sweep(m, b, equity, batch, now);
    SweptChains(m, b, equity, batch, now);
    SweptMappingsOk(m, b, equity, batch, now);
    assert Tracked(m', b) <==> Tracked(m, b);
    if Tracked(m', b) {
      forall k | k in m'.mappings && Holding(m'.mappings[k])
        ensures IsLive(b, m'.mappings[k].memberTicket)
      {
        SweptMapping(m, b, equity, batch, now, k);
      }
    }
  }
}
