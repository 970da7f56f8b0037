/**
 * A member's position shrinks in proportion to the master's: partial closes
 * followed from the recorded master event, through the copy engine, to the
 * member's broker account.
 */
module Tracking {
  import opened Common
  import opened TradeTypes
  import opened MockBroker
  import opened MemberModel
  import opened MemberAgreement
  import opened FeedModel

  /** The strategy's record, and one member account as stored and at its broker. */
  datatype Pipeline = Pipeline(feed: Feed, member: Member, broker: Account)

  /** One partial close by the master, and the circumstances of copying it. */
  datatype Partial = Partial(input: MasterInput, sub: Subscription, row: RowId, at: Moment)

  /** Ingest, then copy what was stored. */
  function Follow(p: Pipeline, partial: Partial): Pipeline {
    var (feed, status) := Ingest(p.feed, true, partial.input, true);
    if status != QUEUED || feed.events == [] then
      p.(feed := feed)
    else
      var event := feed.events[|feed.events| - 1];
      var step := CopyToMember(p.member, p.broker, partial.sub, event, event.symbol, partial.row, partial.at);
      Pipeline(feed, step.member, step.broker)
  }

  function FollowAll(p: Pipeline, partials: seq<Partial>): Pipeline {
    if partials == [] then p else Follow(FollowAll(p, partials[..|partials| - 1]), partials[|partials| - 1])
  }

  /** A new event that closes some of what is recorded as open on master ticket `k`. */
  predicate ClosesSome(p: Pipeline, partial: Partial, k: Ticket) {
    var input := partial.input;
    && input.eventType == PARTIAL_CLOSE && input.ticket == k && k in p.feed.trades
    && 0 < input.volume <= p.feed.trades[k].volume
    && input.eventId !in p.feed.nonces && !HasEvent(p.feed.events, input.eventId)
    && input.eventId !in p.member.rows
  }

  predicate InOrder(p: Pipeline, partials: seq<Partial>, k: Ticket) {
    partials == [] ||
    (&& InOrder(p, partials[..|partials| - 1], k)
     && ClosesSome(FollowAll(p, partials[..|partials| - 1]), partials[|partials| - 1], k))
  }

  // ---- The volumes after one partial close ---------------------------------

  /** What a member holding `m` holds after the master closed `fraction`. */
  function Kept(m: nat, fraction: nat): int {
    if m == 0 then 0 else m - CloseVolume(m, fraction)
  }

  ghost predicate Followed(p: Pipeline, k: Ticket, master: nat, held: nat) {
    && InSync(p.member, p.broker)
    && k in p.feed.trades && p.feed.trades[k].volume == master
    && k in p.member.mappings && p.member.mappings[k].status != CLOSED
    && p.member.mappings[k].volume == held
  }

  lemma AdjustKeeps(m: Member, b: Account, sub: Subscription, event: TradeEvent, at: Moment)
    requires event.eventId in m.rows && event.eventType == PARTIAL_CLOSE && InSync(m, b)
    requires event.ticket in m.mappings && m.mappings[event.ticket].status != CLOSED
    requires m.mappings[event.ticket].volume >= 0
    ensures var m' := AdjustForMember(m, b, sub, event, at).member;
            && event.ticket in m'.mappings && m'.mappings[event.ticket].status != CLOSED
            && m'.mappings[event.ticket].volume ==
                Kept(m.mappings[event.ticket].volume, event.closeFraction.GetOr(WHOLE))
  {
    var mapping := m.mappings[event.ticket];
    assert MappingOk(b, mapping);
    CloseEffect(b, mapping.memberTicket, Some(CloseVolume(mapping.volume, event.closeFraction.GetOr(WHOLE))),
                at.price, at.now);
  }

  lemma FollowStep(p: Pipeline, partial: Partial, k: Ticket, master: nat, held: nat)
    requires Followed(p, k, master, held) && ClosesSome(p, partial, k)
    ensures var closed := partial.input.volume;
            var after := Follow(p, partial);
            && Kept(held, CloseFraction(master, closed)) >= 0
            && Followed(after, k, master - closed, Kept(held, CloseFraction(master, closed)))
  {
    var fraction := CloseFraction(master, partial.input.volume);
    KeptWithin(held, fraction);
    var feed := Ingest(p.feed, true, partial.input, true).0;
    var event := feed.events[|feed.events| - 1];
    assert event == EventOf(p.feed.strategy, Some(p.feed.trades[k]), partial.input);
    var m1 := p.member.(rows := p.member.rows[event.eventId := NewRow(partial.sub, event, partial.row)]);
    AdjustTracked(m1, p.broker, partial.sub, event, partial.at);
    AdjustKeeps(m1, p.broker, partial.sub, event, partial.at);
  }

  /** Following a close never takes more than the member holds. */
  lemma KeptWithin(m: nat, fraction: nat)
    requires fraction <= WHOLE
    ensures 0 <= Kept(m, fraction) <= m
  {
    if m > 0 {
      TimesMonotone(fraction, WHOLE, m);
      assert m * fraction <= m * WHOLE;
      RoundAtMost(m * fraction, WHOLE, m);
    }
  }

  // ---- The bound -----------------------------------------------------------

  /** |held/held0 - master/master0| <= k/held0, without division. */
  predicate Tracks(held: int, master: int, held0: nat, master0: nat, k: nat) {
    -(k * master0) <= held * master0 - held0 * master <= k * master0
  }

  /** Rounding to the nearest hundredth, and the fraction's own error, stay within one hundredth together. */
  lemma NearestScaled(q: int, m: nat, f: nat, master: nat, closed: nat)
    requires IsNearest(q, m * f, WHOLE)
    requires -(master * WHOLE) <= 2 * (m * (f * master) - m * (closed * WHOLE)) <= master * WHOLE
    ensures 0 - master <= q * master - m * closed <= master
  {
    var d := 2 * (q * WHOLE - m * f);
    TimesMonotone(d, WHOLE, master);
    TimesMonotone(0 - WHOLE, d, master);
    assert d * master == 2 * (q * master) * WHOLE - 2 * (m * (f * master));
    assert (m * closed) * WHOLE == m * (closed * WHOLE);
    assert -2 * master * WHOLE <= 2 * (q * master - m * closed) * WHOLE <= 2 * master * WHOLE;
  }

  /** The close is within one hundredth of the exact proportional one. */
  lemma CloseIsProportional(m: nat, master: nat, closed: nat)
    requires 0 < closed <= master && 0 < m <= WHOLE
    ensures 0 - master <= CloseVolume(m, CloseFraction(master, closed)) * master - m * closed <= master
  {
    var f := CloseFraction(master, closed);
    var q := Round(m * f, WHOLE);
    FractionError(m, master, closed);
    NearestScaled(q, m, f, master, closed);
    assert m * closed >= 0;
  }

  /** The six-decimal fraction is exact enough for any position an order can open. */
  lemma FractionError(m: nat, master: nat, closed: nat)
    requires 0 < closed <= master && m <= WHOLE
    ensures var f := CloseFraction(master, closed);
            -(master * WHOLE) <= 2 * (m * (f * master) - m * (closed * WHOLE)) <= master * WHOLE
  {
    var f := CloseFraction(master, closed);
    var d := 2 * (f * master - closed * WHOLE);
    assert 0 - master <= d <= master;
    TimesMonotone(d, master, m);
    TimesMonotone(0 - master, d, m);
    TimesMonotone(m, WHOLE, master);
    assert d * m == 2 * (m * (f * master) - m * (closed * WHOLE));
  }

  /** The old error shrinks with the master's position, and one slip is added. */
  lemma ErrorStep(held: int, q: int, master: nat, closed: nat, held0: nat, master0: nat, k: nat)
    requires 0 < closed <= master
    requires Tracks(held, master, held0, master0, k)
    requires 0 - master <= q * master - held * closed <= master
    ensures Tracks(held - q, master - closed, held0, master0, k + 1)
  {
    var left := master - closed;
    var e := held * master0 - held0 * master;
    var e' := (held - q) * master0 - held0 * left;
    var slip := held * closed - q * master;
    ErrorIdentity(held, q, master, closed, held0, master0);
    var bound := k * master0;
    TimesMonotone(e, bound, left);
    TimesMonotone(-bound, e, left);
    TimesMonotone(slip, master, master0);
    TimesMonotone(0 - master, slip, master0);
    TimesMonotone(left, master, bound);
    assert (bound + master0) * master == bound * master + master * master0;
    Cancel(e', bound + master0, master);
    Cancel(-e', bound + master0, master);
  }

  lemma ErrorIdentity(held: int, q: int, master: int, closed: int, held0: int, master0: int)
    ensures master * ((held - q) * master0 - held0 * (master - closed))
            == (master - closed) * (held * master0 - held0 * master) + (held * closed - q * master) * master0
  {
    var left := master - closed;
    assert master * ((held - q) * master0) == (master * held - q * master) * master0;
    assert left * (held * master0) == (master * held - held * closed) * master0;
    assert master * (held0 * left) == left * (held0 * master);
  }

  lemma NothingHeld(master: nat, closed: nat, held0: nat, master0: nat, k: nat)
    requires 0 < closed <= master
    requires Tracks(0, master, held0, master0, k)
    ensures Tracks(0, master - closed, held0, master0, k + 1)
  {
    TimesMonotone(master - closed, master, held0);
    assert (k + 1) * master0 == k * master0 + master0;
    assert 0 <= k * master0 && 0 <= held0 * (master - closed) <= held0 * master;
  }

  lemma BoundStep(held: nat, master: nat, closed: nat, held0: nat, master0: nat, k: nat)
    requires 0 < closed <= master && held <= WHOLE
    requires Tracks(held, master, held0, master0, k)
    ensures Tracks(Kept(held, CloseFraction(master, closed)), master - closed, held0, master0, k + 1)
  {
    if held == 0 {
      NothingHeld(master, closed, held0, master0, k);
    } else {
      CloseIsProportional(held, master, closed);
      ErrorStep(held, CloseVolume(held, CloseFraction(master, closed)), master, closed, held0, master0, k);
    }
  }

  lemma Cancel(a: int, b: int, c: nat)
    requires c > 0 && a * c <= b * c
    ensures a <= b
  {
    if a > b {
      TimesMonotone(b + 1, a, c);
    }
  }

  lemma HeldFitsOrder(p: Pipeline, k: Ticket, master: nat, held: nat)
    requires Followed(p, k, master, held)
    ensures held <= LARGEST_ORDER
  {
    assert MappingOk(p.broker, p.member.mappings[k]);
  }

  lemma FollowBound(p: Pipeline, partial: Partial, k: Ticket, mid: nat, kept: nat, master0: nat, held0: nat, n: nat)
    returns (master: nat, held: nat)
    requires Followed(p, k, mid, kept) && ClosesSome(p, partial, k)
    requires mid <= master0 && kept <= held0 && Tracks(kept, mid, held0, master0, n)
    ensures Followed(Follow(p, partial), k, master, held)
    ensures master <= master0 && held <= held0 && Tracks(held, master, held0, master0, n + 1)
  {
    var fraction := CloseFraction(mid, partial.input.volume);
    FollowStep(p, partial, k, mid, kept);
    HeldFitsOrder(p, k, mid, kept);
    BoundStep(kept, mid, partial.input.volume, held0, master0, n);
    KeptWithin(kept, fraction);
    master, held := mid - partial.input.volume, Kept(kept, fraction);
  }

  /**
   * After k in-order partial closes the member's share of its opening volume is
   * within k hundredths of the master's, through rounding to two decimals, the
   * six-decimal fraction and the 0.01 floor; and it never goes negative.
   */
  lemma {:induction false} TrackingBound(p: Pipeline, partials: seq<Partial>, k: Ticket, master0: nat, held0: nat)
    returns (master: nat, held: nat)
    requires Followed(p, k, master0, held0)
    requires InOrder(p, partials, k)
    ensures Followed(FollowAll(p, partials), k, master, held)
    ensures Tracks(held, master, held0, master0, |partials|)
    ensures master <= master0 && held <= held0
  {
    if partials == [] {
      master, held := master0, held0;
    } else {
      var before, last := partials[..|partials| - 1], partials[|partials| - 1];
      var mid, kept := TrackingBound(p, before, k, master0, held0);
      master, held := FollowBound(FollowAll(p, before), last, k, mid, kept, master0, held0, |before|);
    }
  }
}
