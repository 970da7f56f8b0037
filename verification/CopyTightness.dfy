/** The exposure bound of concurrent copying cannot be improved: it is reached for every number of copies in flight. */
module CopyTightness {
  import opened Common
  import opened TradeTypes
  import opened RiskEngine
  import opened MockBroker
  import opened MemberModel
  import opened CopyWorkers

  /** The same trade, copied for the i-th event. */
  function JobAt(template: Job, i: nat): Job {
    template.(event := Derived(OPEN, i, Gone))
  }

  function Inserts(template: Job, n: nat): seq<Action> {
    if n == 0 then [] else Inserts(template, n - 1) + [Insert(n - 1, JobAt(template, n - 1))]
  }

  function Snapshots(n: nat): seq<Action> {
    if n == 0 then [] else Snapshots(n - 1) + [TakeSnapshot(n - 1)]
  }

  function Checks(figures: Figures, n: nat): seq<Action> {
    if n == 0 then [] else Checks(figures, n - 1) + [Check(n - 1, figures)]
  }

  function Sends(price: int, n: nat): seq<Action> {
    if n == 0 then [] else Sends(price, n - 1) + [SendOrder(n - 1, price)]
  }

  /** All copies insert, then all look, then all check, then all trade. */
  function InStep(template: Job, figures: Figures, price: int, k: nat): seq<Action> {
    Inserts(template, k) + Snapshots(k) + Checks(figures, k) + Sends(price, k)
  }

  lemma {:induction false} RunConcat(s: State, first: seq<Action>, second: seq<Action>)
    ensures Run(s, first + second) == Run(Run(s, first), second)
  {
    if second == [] {
      assert first + second == first;
    } else {
      RunConcat(s, first, second[..|second| - 1]);
      assert (first + second)[..|first + second| - 1] == first + second[..|second| - 1];
    }
  }

  lemma RunOneMore(s: State, actions: seq<Action>, action: Action)
    ensures Run(s, actions + [action]) == Step(Run(s, actions), action)
  {
    assert (actions + [action])[..|actions|] == actions;
  }

  /** Idle slots, one for each copy, and none of the copies made yet. */
  ghost predicate Unstarted(s: State, template: Job, k: nat) {
    && |s.slots| == k
    && (forall j :: 0 <= j < k ==> s.slots[j].Idle?)
    && (forall j: nat :: j < k ==> (JobAt(template, j).event, template.account) !in s.rows)
  }

  ghost predicate InsertedUpTo(s: State, u: State, template: Job, n: nat, k: nat) {
    && n <= k == |u.slots| && u.brokers == s.brokers
    && (forall j: nat :: j < n ==> u.slots[j].Inserted? && u.slots[j].job == JobAt(template, j))
    && (forall j :: n <= j < k ==> u.slots[j].Idle?)
    && (forall j: nat :: n <= j < k ==> (JobAt(template, j).event, template.account) !in u.rows)
  }

  lemma OneInserts(s: State, u: State, template: Job, n: nat, k: nat)
    requires n < k && InsertedUpTo(s, u, template, n, k)
    ensures InsertedUpTo(s, Step(u, Insert(n, JobAt(template, n))), template, n + 1, k)
  {
  }

  lemma {:induction false} AllInsert(s: State, template: Job, n: nat, k: nat)
    requires Unstarted(s, template, k) && n <= k
    ensures InsertedUpTo(s, Run(s, Inserts(template, n)), template, n, k)
  {
    if n > 0 {
      AllInsert(s, template, n - 1, k);
      RunOneMore(s, Inserts(template, n - 1), Insert(n - 1, JobAt(template, n - 1)));
      OneInserts(s, Run(s, Inserts(template, n - 1)), template, n - 1, k);
    }
  }

  ghost predicate SnappedUpTo(s: State, u: State, template: Job, n: nat, k: nat) {
    && n <= k == |u.slots| && u.brokers == s.brokers
    && (forall j: nat :: j < k ==> !u.slots[j].Idle? && u.slots[j].job == JobAt(template, j))
    && (forall j :: 0 <= j < n ==> u.slots[j].Snapped? && u.slots[j].openTrades == TradesOn(s, template.account)
                                   && u.slots[j].openVolume == VolumeOn(s, template.account))
    && (forall j :: n <= j < k ==> u.slots[j].Inserted?)
  }

  lemma OneLooks(s: State, u: State, template: Job, n: nat, k: nat)
    requires n < k && SnappedUpTo(s, u, template, n, k)
    ensures SnappedUpTo(s, Step(u, TakeSnapshot(n)), template, n + 1, k)
  {
    assert TradesOn(u, template.account) == TradesOn(s, template.account);
    assert VolumeOn(u, template.account) == VolumeOn(s, template.account);
  }

  lemma {:induction false} AllLook(s: State, template: Job, n: nat, k: nat)
    requires SnappedUpTo(s, s, template, 0, k) && n <= k
    ensures SnappedUpTo(s, Run(s, Snapshots(n)), template, n, k)
  {
    if n > 0 {
      AllLook(s, template, n - 1, k);
      RunOneMore(s, Snapshots(n - 1), TakeSnapshot(n - 1));
      OneLooks(s, Run(s, Snapshots(n - 1)), template, n - 1, k);
    }
  }

  /** The template passes the risk check against this snapshot. */
  predicate Passes(template: Job, openTrades: nat, openVolume: nat, figures: Figures) {
    EvaluateRisk(ContextFor(Snapped(template, 0, openTrades, openVolume), figures)).Allowed?
  }

  ghost predicate ApprovedUpTo(s: State, u: State, template: Job, trades: nat, volume: nat, n: nat, k: nat) {
    && n <= k == |u.slots| && u.brokers == s.brokers
    && (forall j: nat :: j < k ==> !u.slots[j].Idle? && u.slots[j].job == JobAt(template, j))
    && (forall j :: 0 <= j < n ==> u.slots[j].Approved?)
    && (forall j :: n <= j < k ==>
        u.slots[j].Snapped? && u.slots[j].openTrades == trades && u.slots[j].openVolume == volume)
  }

  lemma SameDecision(template: Job, i: nat, row: RowId, trades: nat, volume: nat, figures: Figures)
    requires Passes(template, trades, volume, figures)
    ensures EvaluateRisk(ContextFor(Snapped(JobAt(template, i), row, trades, volume), figures)).Allowed?
  {
  }

  lemma OnePasses(s: State, u: State, template: Job, trades: nat, volume: nat, figures: Figures, n: nat, k: nat)
    requires n < k && ApprovedUpTo(s, u, template, trades, volume, n, k)
    requires Passes(template, trades, volume, figures)
    ensures ApprovedUpTo(s, Step(u, Check(n, figures)), template, trades, volume, n + 1, k)
  {
    SameDecision(template, n, u.slots[n].row, trades, volume, figures);
  }

  lemma {:induction false} AllPass(s: State, template: Job, trades: nat, volume: nat, figures: Figures, n: nat, k: nat)
    requires ApprovedUpTo(s, s, template, trades, volume, 0, k) && n <= k
    requires Passes(template, trades, volume, figures)
    ensures ApprovedUpTo(s, Run(s, Checks(figures, n)), template, trades, volume, n, k)
  {
    if n > 0 {
      AllPass(s, template, trades, volume, figures, n - 1, k);
      RunOneMore(s, Checks(figures, n - 1), Check(n - 1, figures));
      OnePasses(s, Run(s, Checks(figures, n - 1)), template, trades, volume, figures, n - 1, k);
    }
  }

  /** A hedging account on which the template's order is filled. */
  ghost predicate Fillable(s: State, template: Job) {
    && template.account in s.brokers && !s.brokers[template.account].netting
    && TicketsIssued(s.brokers[template.account])
    && template.symbol in SYMBOLS
    && SYMBOLS[template.symbol].minLot <= template.volume <= SYMBOLS[template.symbol].maxLot
  }

  lemma OrderAddsExactly(b: Account, request: OpenRequest, price: int)
    requires TicketsIssued(b) && !b.netting && request.symbol in SYMBOLS
    requires SYMBOLS[request.symbol].minLot <= request.volume <= SYMBOLS[request.symbol].maxLot
    ensures var b' := OpenPosition(b, request, price).0;
            && TicketsIssued(b') && !b'.netting
            && |LivePositions(b')| == |LivePositions(b)| + 1
            && OpenVolume(b') == OpenVolume(b) + request.volume
  {
    var b' := OpenPosition(b, request, price).0;
    ExposureChange(b, b', b.nextTicket);
  }

  ghost predicate SentUpTo(s: State, u: State, template: Job, n: nat, k: nat) {
    && n <= k == |u.slots| && Fillable(u, template)
    && (forall j: nat :: n <= j < k ==> u.slots[j].Approved? && u.slots[j].job == JobAt(template, j))
    && TradesOn(u, template.account) == TradesOn(s, template.account) + n
    && VolumeOn(u, template.account) == VolumeOn(s, template.account) + n * template.volume
  }

  lemma OneTrades(s: State, u: State, template: Job, price: int, n: nat, k: nat)
    requires n < k && SentUpTo(s, u, template, n, k)
    ensures SentUpTo(s, Step(u, SendOrder(n, price)), template, n + 1, k)
  {
    OrderAddsExactly(u.brokers[template.account],
                     OpenRequest(template.symbol, template.orderType, template.volume, None, None, u.slots[n].row),
                     price);
    OneLess(n + 1, template.volume);
  }

  lemma {:induction false} AllTrade(s: State, template: Job, price: int, n: nat, k: nat)
    requires SentUpTo(s, s, template, 0, k) && n <= k
    ensures SentUpTo(s, Run(s, Sends(price, n)), template, n, k)
  {
    if n > 0 {
      AllTrade(s, template, price, n - 1, k);
      RunOneMore(s, Sends(price, n - 1), SendOrder(n - 1, price));
      OneTrades(s, Run(s, Sends(price, n - 1)), template, price, n - 1, k);
    }
  }

  /** Copies that all look before any trades all get through, whatever the others are about to add. */
  lemma AllGetThrough(s: State, template: Job, figures: Figures, price: int, k: nat)
    requires Unstarted(s, template, k) && Fillable(s, template)
    requires Passes(template, TradesOn(s, template.account), VolumeOn(s, template.account), figures)
    ensures var end := Run(s, InStep(template, figures, price, k));
            && TradesOn(end, template.account) == TradesOn(s, template.account) + k
            && VolumeOn(end, template.account) == VolumeOn(s, template.account) + k * template.volume
  {
    var a := template.account;
    AllInsert(s, template, k, k);
    var one := Run(s, Inserts(template, k));
    AllLook(one, template, k, k);
    var two := Run(one, Snapshots(k));
    AllPass(two, template, TradesOn(s, a), VolumeOn(s, a), figures, k, k);
    var three := Run(two, Checks(figures, k));
    AllTrade(three, template, price, k, k);
    RunConcat(s, Inserts(template, k) + Snapshots(k) + Checks(figures, k), Sends(price, k));
    RunConcat(s, Inserts(template, k) + Snapshots(k), Checks(figures, k));
    RunConcat(s, Inserts(template, k), Snapshots(k));
  }

  // ---- It is a schedule the bound speaks of --------------------------------

  lemma {:induction false} SlotCountKept(s: State, actions: seq<Action>)
    ensures |Run(s, actions).slots| == |s.slots|
  {
    if actions != [] {
      SlotCountKept(s, actions[..|actions| - 1]);
    }
  }

  lemma {:induction false} InFlightAtMost(slots: seq<Slot>, a: AccountId)
    ensures InFlight(slots, a) <= |slots|
  {
    if slots != [] {
      InFlightAtMost(slots[..|slots| - 1], a);
    }
  }

  lemma {:induction false} OnlyTemplates(template: Job, figures: Figures, price: int, n: nat)
    ensures forall action :: action in Inserts(template, n) && action.Insert? ==>
              action.job == template.(event := action.job.event)
    ensures forall action :: action in Snapshots(n) + Checks(figures, n) + Sends(price, n) ==> !action.Insert?
  {
    if n > 0 {
      OnlyTemplates(template, figures, price, n - 1);
    }
  }

  lemma InStepIsSchedule(s: State, template: Job, figures: Figures, price: int, caps: Caps, k: nat)
    requires |s.slots| == k && WithinCaps(template, template.account, caps)
    ensures Schedule(s, InStep(template, figures, price, k), template.account, caps, k)
  {
    var actions := InStep(template, figures, price, k);
    OnlyTemplates(template, figures, price, k);
    assert actions == Inserts(template, k) + (Snapshots(k) + Checks(figures, k) + Sends(price, k));
    forall i | 0 <= i < |actions|
      ensures InFlight(Run(s, actions[..i]).slots, template.account) <= k
      ensures actions[i].Insert? ==> WithinCaps(actions[i].job, template.account, caps)
    {
      SlotCountKept(s, actions[..i]);
      InFlightAtMost(Run(s, actions[..i]).slots, template.account);
      assert actions[i] in actions;
    }
  }

  /**
   * For every k and every caps, from every account one trade short of its
   * maximum, a schedule with k copies in flight ends at exactly the bound.
   */
  lemma TradesBoundReached(s: State, template: Job, figures: Figures, price: int, caps: Caps, k: nat)
    requires k >= 1 && Unstarted(s, template, k) && Fillable(s, template) &&
              WithinCaps(template, template.account, caps)
    requires TradesOn(s, template.account) + 1 == caps.trades
    requires Passes(template, TradesOn(s, template.account), VolumeOn(s, template.account), figures)
    ensures var actions := InStep(template, figures, price, k);
            && Schedule(s, actions, template.account, caps, k)
            && TradesOn(Run(s, actions), template.account) == caps.trades + (k - 1)
  {
    InStepIsSchedule(s, template, figures, price, caps, k);
    AllGetThrough(s, template, figures, price, k);
  }

  /** And from every account one largest order short of its total volume, the volume bound is reached likewise. */
  lemma VolumeBoundReached(s: State, template: Job, figures: Figures, price: int, caps: Caps, k: nat)
    requires k >= 1 && Unstarted(s, template, k) && Fillable(s, template) &&
              WithinCaps(template, template.account, caps)
    requires template.volume == caps.perTrade && VolumeOn(s, template.account) + caps.perTrade == caps.total
    requires Passes(template, TradesOn(s, template.account), VolumeOn(s, template.account), figures)
    ensures var actions := InStep(template, figures, price, k);
            && Schedule(s, actions, template.account, caps, k)
            && VolumeOn(Run(s, actions), template.account) == caps.total + (k - 1) * caps.perTrade
  {
    InStepIsSchedule(s, template, figures, price, caps, k);
    AllGetThrough(s, template, figures, price, k);
    OneLess(k, caps.perTrade);
  }

  lemma OneLess(k: nat, each: nat)
    requires k >= 1
    ensures k * each == (k - 1) * each + each
  {
  }

  const ANY_SIZE :=
    CopySettings(LotCalculator.FIXED, 1, 10000, 10000, 10000, 1, 1000, false, true, true, true, true, false, 1, [])
  const LOT_LIMITS := RiskProfile(0, 0, 0, 1, 1, true)
  const QUIET_DAY := Figures(0, 0, 0, false)

  /**
   * Both at once, from an empty account with a maximum of one trade and 0.01
   * lot: k copies in flight reach k of each.
   */
  lemma BoundsAreReached(k: nat) returns (s: State, actions: seq<Action>, caps: Caps)
    requires k >= 1
    ensures caps.lotsLimited && Schedule(s, actions, 0, caps, k)
    ensures forall i :: 0 <= i < |s.slots| ==> s.slots[i].Idle?
    ensures TradesOn(s, 0) <= caps.trades && VolumeOn(s, 0) <= caps.total
    ensures TradesOn(Run(s, actions), 0) == caps.trades + (k - 1)
    ensures VolumeOn(Run(s, actions), 0) == caps.total + (k - 1) * caps.perTrade
  {
    var template := Job(Derived(OPEN, 0, Gone), 0, ANY_SIZE, LOT_LIMITS, "EURUSD", BUY, 1);
    s := State({}, 0, map[0 := Account(MT5, false, 0, map[], map[], 1)], seq(k, i => Idle), []);
    caps := Caps(1, true, 1, 1);
    actions := InStep(template, QUIET_DAY, 0, k);
    assert LivePositions(s.brokers[0]) == map[];
    assert TradesOn(s, 0) == 0 && VolumeOn(s, 0) == 0;
    TradesBoundReached(s, template, QUIET_DAY, 0, caps, k);
    VolumeBoundReached(s, template, QUIET_DAY, 0, caps, k);
  }

  /** With two, the account ends one trade above its maximum. */
  lemma TwoInFlightExceedTheCap() returns (s: State, actions: seq<Action>, caps: Caps)
    ensures Schedule(s, actions, 0, caps, 2)
    ensures forall i :: 0 <= i < |s.slots| ==> s.slots[i].Idle?
    ensures TradesOn(s, 0) <= caps.trades
    ensures TradesOn(Run(s, actions), 0) == caps.trades + 1
  {
    s, actions, caps := BoundsAreReached(2);
  }
}
