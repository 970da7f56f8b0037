/**
 * Concurrent copying (src/workers/copy.worker.ts, src/services/copy-engine.service.ts).
 *
 * Any number of worker slots make copies at once. Each database or broker call
 * is one atomic step: the unique row insert, the position snapshot, the check
 * against that snapshot, and the order. Jobs may be retried or duplicated, a
 * slot may crash between any two steps, and positions may be closed meanwhile.
 */
module CopyWorkers {
  import opened Common
  import opened TradeTypes
  import opened RiskEngine
  import opened MockBroker
  import opened MemberModel
  import opened MemberAgreement
  import D = CopyDecisions

  /** One copy to make: which event on which account, under which settings, and the sized order. */
  datatype Job = Job(
    event: EventId,
    account: AccountId,
    settings: CopySettings,
    limits: RiskProfile,
    symbol: Symbol,
    orderType: OrderType,
    volume: nat)

  datatype Slot =
    | Idle
    | Inserted(job: Job, row: RowId)
    | Snapped(job: Job, row: RowId, openTrades: nat, openVolume: nat)
    | Approved(job: Job, row: RowId)

  datatype SentOrder = SentOrder(event: EventId, account: AccountId, clientId: RowId)

  datatype State = State(
    rows: set<(EventId, AccountId)>,
    nextRow: RowId,
    brokers: map<AccountId, Account>,
    slots: seq<Slot>,
    sent: seq<SentOrder>)

  /** The account figures the risk check reads from the database. */
  datatype Figures = Figures(equity: int, peakEquity: int, dailyStartEquity: int, breached: bool)

  datatype Action =
    | Insert(slot: nat, job: Job)
    | TakeSnapshot(slot: nat)
    | Check(slot: nat, figures: Figures)
    | SendOrder(slot: nat, price: int)
    | Crash(slot: nat)
    | ClosePart(account: AccountId, ticket: Ticket, volume: Option<nat>, price: int, now: int)

  function TradesOn(s: State, a: AccountId): nat {
    if a in s.brokers then |LivePositions(s.brokers[a])| else 0
  }

  function VolumeOn(s: State, a: AccountId): nat {
    if a in s.brokers then OpenVolume(s.brokers[a]) else 0
  }

  function ContextFor(slot: Slot, figures: Figures): RiskContext
    requires slot.Snapped?
  {
    var job := slot.job;
    RiskContext(job.symbol, job.orderType, job.volume, job.settings.allowedSymbols, job.settings.copyBuy,
                job.settings.copySell, job.settings.copyPendingOrders, job.settings.maxOpenTrades,
                job.limits.maxDailyLoss, job.limits.maxDailyLossPct, job.limits.maxDrawdownPct,
                job.limits.maxLotPerTrade, job.limits.maxTotalLot, slot.openTrades, slot.openVolume,
                figures.equity, figures.peakEquity, figures.dailyStartEquity, figures.breached)
  }

  /** A step that is not enabled leaves the state as it is. */
  function Step(s: State, action: Action): State {
    match action
    case Insert(i, job) =>
      if i < |s.slots| && s.slots[i].Idle? && (job.event, job.account) !in s.rows then
        s.(rows := s.rows + {(job.event, job.account)}, nextRow := s.nextRow + 1,
           slots := s.slots[i := Inserted(job, s.nextRow)])
      else s
    case TakeSnapshot(i) =>
      if i < |s.slots| && s.slots[i].Inserted? then
        var a := s.slots[i].job.account;
        s.(slots := s.slots[i := Snapped(s.slots[i].job, s.slots[i].row, TradesOn(s, a), VolumeOn(s, a))])
      else s
    case Check(i, figures) =>
      if i < |s.slots| && s.slots[i].Snapped? then
        if EvaluateRisk(ContextFor(s.slots[i], figures)).Allowed? then
          s.(slots := s.slots[i := Approved(s.slots[i].job, s.slots[i].row)])
        else
          s.(slots := s.slots[i := Idle])
      else s
    case SendOrder(i, price) =>
      if i < |s.slots| && s.slots[i].Approved? then
        var job, row := s.slots[i].job, s.slots[i].row;
        var request := OpenRequest(job.symbol, job.orderType, job.volume, None, None, row);
        s.(slots := s.slots[i := Idle],
           sent := s.sent + [SentOrder(job.event, job.account, row)],
           brokers := if job.account in s.brokers
                      then s.brokers[job.account := OpenPosition(s.brokers[job.account], request, price).0]
                      else s.brokers)
      else s
    case Crash(i) =>
      if i < |s.slots| then s.(slots := s.slots[i := Idle]) else s
    case ClosePart(a, ticket, volume, price, now) =>
      if a in s.brokers then
        s.(brokers := s.brokers[a := ClosePosition(s.brokers[a], ticket, volume, price, now).0])
      else s
  }

  function Run(s: State, actions: seq<Action>): State {
    if actions == [] then s else Step(Run(s, actions[..|actions| - 1]), actions[|actions| - 1])
  }

  // ---- At most one order per event and account ------------------------------

  predicate HoldsRow(slot: Slot, event: EventId, account: AccountId, row: RowId) {
    !slot.Idle? && (slot.row == row || (slot.job.event == event && slot.job.account == account))
  }

  /** Rows protect orders: whoever is in flight or was sent has its own row, and nobody shares one. */
  ghost predicate Guarded(s: State) {
    && (forall i :: 0 <= i < |s.slots| && !s.slots[i].Idle? ==>
          (s.slots[i].job.event, s.slots[i].job.account) in s.rows && s.slots[i].row < s.nextRow)
    && (forall j :: 0 <= j < |s.sent| ==>
          (s.sent[j].event, s.sent[j].account) in s.rows && s.sent[j].clientId < s.nextRow)
    && (forall i, j :: 0 <= i < j < |s.slots| && !s.slots[i].Idle? ==>
          !HoldsRow(s.slots[j], s.slots[i].job.event, s.slots[i].job.account, s.slots[i].row))
    && (forall i, j :: 0 <= i < |s.slots| && 0 <= j < |s.sent| ==>
          !HoldsRow(s.slots[i], s.sent[j].event, s.sent[j].account, s.sent[j].clientId))
    && NoDuplicateOrders(s.sent)
  }

  ghost predicate NoDuplicateOrders(sent: seq<SentOrder>) {
    forall i, j :: 0 <= i < j < |sent| ==>
      sent[i].clientId != sent[j].clientId && (sent[i].event != sent[j].event || sent[i].account != sent[j].account)
  }

  lemma InsertGuarded(s: State, action: Action)
    requires Guarded(s) && action.Insert?
    ensures Guarded(Step(s, action))
  {
  }

  lemma SendGuarded(s: State, action: Action)
    requires Guarded(s) && action.SendOrder?
    ensures Guarded(Step(s, action))
  {
  }

  lemma StepGuarded(s: State, action: Action)
    requires Guarded(s)
    ensures Guarded(Step(s, action))
  {
    if action.Insert? {
      InsertGuarded(s, action);
    } else if action.SendOrder? {
      SendGuarded(s, action);
    }
  }

  /**
   * For any number of slots, retries, duplicate jobs and crashes between any
   * two steps, the broker is asked to open at most once per event and account,
   * and no two orders carry the same client id.
   */
  lemma {:induction false} AtMostOneOrder(s: State, actions: seq<Action>)
    requires Guarded(s)
    ensures Guarded(Run(s, actions))
    ensures NoDuplicateOrders(Run(s, actions).sent)
  {
    if actions != [] {
      AtMostOneOrder(s, actions[..|actions| - 1]);
      StepGuarded(Run(s, actions[..|actions| - 1]), actions[|actions| - 1]);
    }
  }

  ghost predicate Abandoned(s: State, job: Job) {
    && (job.event, job.account) in s.rows
    && (forall i :: 0 <= i < |s.slots| && !s.slots[i].Idle? ==>
          s.slots[i].job.event != job.event || s.slots[i].job.account != job.account)
    && (forall j :: 0 <= j < |s.sent| ==> s.sent[j].event != job.event || s.sent[j].account != job.account)
  }

  lemma {:induction false} AbandonedStays(s: State, job: Job, actions: seq<Action>)
    requires Abandoned(s, job)
    ensures Abandoned(Run(s, actions), job)
  {
    if actions != [] {
      AbandonedStays(s, job, actions[..|actions| - 1]);
    }
  }

  /**
   * At most once, not exactly once: a crash of a slot anywhere between the
   * insert and the order leaves the row behind, and no later step of any slot
   * sends that copy.
   */
  lemma CrashAfterInsertLosesTheCopy(s: State, i: nat, actions: seq<Action>)
    requires Guarded(s) && i < |s.slots| && !s.slots[i].Idle?
    ensures Abandoned(Run(Step(s, Crash(i)), actions), s.slots[i].job)
  {
    var job := s.slots[i].job;
    var crashed := Step(s, Crash(i));
    assert (job.event, job.account) in s.rows;
    forall j | 0 <= j < |s.slots| && j != i && !s.slots[j].Idle?
      ensures s.slots[j].job.event != job.event || s.slots[j].job.account != job.account
    {
      assert !HoldsRow(s.slots[Max(i, j)], s.slots[Min(i, j)].job.event, s.slots[Min(i, j)].job.account,
                       s.slots[Min(i, j)].row);
    }
    assert Abandoned(crashed, job);
    AbandonedStays(crashed, job, actions);
  }

  // ---- Exposure ------------------------------------------------------------

  /**
   * The largest limits any subscription of the account has: open trades, and,
   * where every subscription sets both (`lotsLimited`), total lots and lots per trade.
   */
  datatype Caps = Caps(trades: nat, lotsLimited: bool, total: nat, perTrade: nat)

  predicate WithinCaps(job: Job, a: AccountId, caps: Caps) {
    job.account == a ==>
      && job.settings.maxOpenTrades <= caps.trades
      && (caps.lotsLimited ==>
            0 < job.limits.maxTotalLot <= caps.total && 0 < job.limits.maxLotPerTrade <= caps.perTrade)
  }

  predicate OnAccount(slot: Slot, a: AccountId) {
    !slot.Idle? && slot.job.account == a
  }

  /** Copies in flight on an account. */
  function InFlight(slots: seq<Slot>, a: AccountId): nat {
    if slots == [] then 0
    else InFlight(slots[..|slots| - 1], a) + (if OnAccount(slots[|slots| - 1], a) then 1 else 0)
  }

  /** Trades a slot may still add, going by the snapshot it took. */
  function TradesToCome(slot: Slot, a: AccountId, caps: Caps): nat {
    if !OnAccount(slot, a) then 0
    else if slot.Approved? || (slot.Snapped? && slot.openTrades < caps.trades) then 1
    else 0
  }

  /** Volume a slot may still add, going by the snapshot it took. */
  function VolumeToCome(slot: Slot, a: AccountId, caps: Caps): nat {
    if !OnAccount(slot, a) then 0
    else if slot.Approved? then slot.job.volume
    else if slot.Snapped? && slot.openVolume < caps.total then Min(caps.perTrade, caps.total - slot.openVolume)
    else 0
  }

  function PendingTrades(slots: seq<Slot>, a: AccountId, caps: Caps): nat {
    if slots == [] then 0
    else PendingTrades(slots[..|slots| - 1], a, caps) + TradesToCome(slots[|slots| - 1], a, caps)
  }

  function PendingVolume(slots: seq<Slot>, a: AccountId, caps: Caps): nat {
    if slots == [] then 0
    else PendingVolume(slots[..|slots| - 1], a, caps) + VolumeToCome(slots[|slots| - 1], a, caps)
  }

  lemma {:induction false} PendingUpdate(slots: seq<Slot>, i: nat, slot: Slot, a: AccountId, caps: Caps)
    requires i < |slots|
    ensures PendingTrades(slots[i := slot], a, caps)
            == PendingTrades(slots, a, caps) - TradesToCome(slots[i], a, caps) + TradesToCome(slot, a, caps)
    ensures PendingVolume(slots[i := slot], a, caps)
            == PendingVolume(slots, a, caps) - VolumeToCome(slots[i], a, caps) + VolumeToCome(slot, a, caps)
  {
    var n := |slots| - 1;
    if i == n {
      assert slots[i := slot][..n] == slots[..n];
    } else {
      assert slots[i := slot][..n] == slots[..n][i := slot];
      PendingUpdate(slots[..n], i, slot, a, caps);
    }
  }

  ghost predicate SlotsWithin(slots: seq<Slot>, a: AccountId, caps: Caps) {
    forall i :: 0 <= i < |slots| && !slots[i].Idle? ==>
      WithinCaps(slots[i].job, a, caps)
      && (caps.lotsLimited && OnAccount(slots[i], a) && slots[i].Approved? ==> slots[i].job.volume <= caps.perTrade)
  }

  /** Each copy in flight can add at most one trade and one order's volume. */
  lemma {:induction false} PendingAtMost(slots: seq<Slot>, a: AccountId, caps: Caps)
    requires SlotsWithin(slots, a, caps)
    ensures PendingTrades(slots, a, caps) <= InFlight(slots, a)
    ensures caps.lotsLimited ==> PendingVolume(slots, a, caps) <= InFlight(slots, a) * caps.perTrade
  {
    if slots != [] {
      var before := slots[..|slots| - 1];
      PendingAtMost(before, a, caps);
      assert (InFlight(before, a) + 1) * caps.perTrade == InFlight(before, a) * caps.perTrade + caps.perTrade;
    }
  }

  /** The copies in flight beside slot `i`. */
  lemma {:induction false} PendingBeside(slots: seq<Slot>, i: nat, a: AccountId, caps: Caps)
    requires SlotsWithin(slots, a, caps) && i < |slots| && OnAccount(slots[i], a)
    ensures InFlight(slots, a) >= 1
    ensures PendingTrades(slots, a, caps) - TradesToCome(slots[i], a, caps) <= InFlight(slots, a) - 1
    ensures caps.lotsLimited ==>
              PendingVolume(slots, a, caps) - VolumeToCome(slots[i], a, caps) <=
                  (InFlight(slots, a) - 1) * caps.perTrade
  {
    var before := slots[..|slots| - 1];
    if i == |slots| - 1 {
      PendingAtMost(before, a, caps);
    } else {
      PendingBeside(before, i, a, caps);
      assert (InFlight(before, a) - 1 + 1) * caps.perTrade == (InFlight(before, a) - 1) * caps.perTrade + caps.perTrade;
    }
  }

  // What an order or a close does to an account's exposure.

  ghost predicate TicketsIssued(b: Account) {
    forall t :: t in b.positions ==> t < b.nextTicket
  }

  function OpenVolume(b: Account): nat {
    VolumeOf(LivePositions(b), b.nextTicket)
  }

  function LiveVolume(b: Account, t: Ticket): nat {
    if IsLive(b, t) then b.positions[t].volume else 0
  }

  lemma {:induction false} VolumeChange(ps: map<Ticket, Position>, ps': map<Ticket, Position>, n: nat, i: Ticket)
    requires forall t :: t in ps && t != i ==> t in ps' && ps'[t].volume == ps[t].volume
    requires forall t :: t in ps' && t != i ==> t in ps
    ensures VolumeOf(ps', n) == VolumeOf(ps, n)
              + (if i < n then (if i in ps' then ps'[i].volume else 0) - (if i in ps then ps[i].volume else 0) else 0)
  {
    if n > 0 {
      VolumeChange(ps, ps', n - 1, i);
    }
  }

  lemma {:induction false} VolumeBeyond(ps: map<Ticket, Position>, n: nat, n': nat)
    requires n <= n' && forall t :: t in ps ==> t < n
    ensures VolumeOf(ps, n') == VolumeOf(ps, n)
  {
    if n < n' {
      VolumeBeyond(ps, n, n' - 1);
    }
  }

  /** Two accounts that differ in one position at most. */
  ghost predicate DifferAt(b: Account, b': Account, i: Ticket) {
    && TicketsIssued(b) && TicketsIssued(b')
    && b.nextTicket <= b'.nextTicket && i < b'.nextTicket
    && (forall t :: t != i ==> (t in b.positions <==> t in b'.positions))
    && (forall t :: t != i && t in b.positions ==> b'.positions[t] == b.positions[t])
  }

  lemma CountChange(before: set<Ticket>, after: set<Ticket>, i: Ticket)
    requires forall t :: t != i ==> (t in before <==> t in after)
    ensures |after| == |before| + (if i in after then 1 else 0) - (if i in before then 1 else 0)
  {
    var others := before - {i};
    assert others == after - {i};
    assert |before| == |others| + (if i in before then 1 else 0);
    assert |after| == |others| + (if i in after then 1 else 0) by {
      if i in after {
        assert after == others + {i};
      } else {
        assert after == others;
      }
    }
  }

  lemma LiveCountChange(b: Account, b': Account, i: Ticket)
    requires DifferAt(b, b', i)
    ensures |LivePositions(b')| == |LivePositions(b)| +
              (if IsLive(b', i) then 1 else 0) - (if IsLive(b, i) then 1 else 0)
  {
    var before, after := LivePositions(b).Keys, LivePositions(b').Keys;
    assert |before| == |LivePositions(b)| && |after| == |LivePositions(b')|;
    CountChange(before, after, i);
  }

  lemma LiveVolumeChange(b: Account, b': Account, i: Ticket)
    requires DifferAt(b, b', i)
    ensures OpenVolume(b') == OpenVolume(b) + LiveVolume(b', i) - LiveVolume(b, i)
  {
    VolumeChange(LivePositions(b), LivePositions(b'), b'.nextTicket, i);
    VolumeBeyond(LivePositions(b), b.nextTicket, b'.nextTicket);
  }

  lemma ExposureChange(b: Account, b': Account, i: Ticket)
    requires DifferAt(b, b', i)
    ensures |LivePositions(b')| == |LivePositions(b)| +
              (if IsLive(b', i) then 1 else 0) - (if IsLive(b, i) then 1 else 0)
    ensures OpenVolume(b') == OpenVolume(b) + LiveVolume(b', i) - LiveVolume(b, i)
  {
    LiveCountChange(b, b', i);
    LiveVolumeChange(b, b', i);
  }

  lemma OrderGrowsExposure(b: Account, request: OpenRequest, price: int)
    requires TicketsIssued(b)
    ensures var b' := OpenPosition(b, request, price).0;
            && TicketsIssued(b')
            && |LivePositions(b')| <= |LivePositions(b)| + 1
            && OpenVolume(b') <= OpenVolume(b) + request.volume
  {
    var (b', result) := OpenPosition(b, request, price);
    if result.Executed? {
      ExposureChange(b, b', result.ticket);
    }
  }

  lemma CloseShrinksExposure(b: Account, t: Ticket, volume: Option<nat>, price: int, now: int)
    requires TicketsIssued(b)
    ensures var b' := ClosePosition(b, t, volume, price, now).0;
            && TicketsIssued(b')
            && |LivePositions(b')| <= |LivePositions(b)|
            && OpenVolume(b') <= OpenVolume(b)
  {
    CloseEffect(b, t, volume, price, now);
    var b' := ClosePosition(b, t, volume, price, now).0;
    if IsLive(b, t) {
      if b'.nextTicket == b.nextTicket {
        ExposureChange(b, b', t);
      } else {
        var closed := b.(positions := b.positions[t := b.positions[t].(closed := true)]);
        ExposureChange(b, closed, t);
        ExposureChange(closed, b', b.nextTicket);
      }
    }
  }

  /**
   * What every interleaving keeps: open plus still-to-come exposure stays within
   * the caps and one order per extra slot.
   */
  ghost predicate Bounded(s: State, a: AccountId, caps: Caps, k: nat) {
    && (a in s.brokers ==> TicketsIssued(s.brokers[a]))
    && SlotsWithin(s.slots, a, caps)
    && TradesOn(s, a) + PendingTrades(s.slots, a, caps) + 1 <= caps.trades + k
    && (caps.lotsLimited ==>
          VolumeOn(s, a) + PendingVolume(s.slots, a, caps) + caps.perTrade <= caps.total + k * caps.perTrade)
  }

  lemma SnapshotBounded(s: State, i: nat, a: AccountId, caps: Caps, k: nat)
    requires Bounded(s, a, caps, k) && i < |s.slots| && s.slots[i].Inserted?
    requires InFlight(s.slots, a) <= k
    ensures Bounded(Step(s, TakeSnapshot(i)), a, caps, k)
  {
    var slot := Step(s, TakeSnapshot(i)).slots[i];
    PendingUpdate(s.slots, i, slot, a, caps);
    if OnAccount(slot, a) {
      PendingBeside(s.slots, i, a, caps);
      TimesMonotone(InFlight(s.slots, a) - 1, k - 1, caps.perTrade);
      assert (k - 1) * caps.perTrade == k * caps.perTrade - caps.perTrade;
    }
  }

  function Checked(slot: Slot, figures: Figures): Slot
    requires slot.Snapped?
  {
    if EvaluateRisk(ContextFor(slot, figures)).Allowed? then Approved(slot.job, slot.row) else Idle
  }

  /** The check lets through no more than the snapshot left room for. */
  lemma CheckFits(slot: Slot, figures: Figures, a: AccountId, caps: Caps)
    requires slot.Snapped? && WithinCaps(slot.job, a, caps)
    ensures var next := Checked(slot, figures);
            && TradesToCome(next, a, caps) <= TradesToCome(slot, a, caps)
            && (caps.lotsLimited ==> VolumeToCome(next, a, caps) <= VolumeToCome(slot, a, caps))
            && (caps.lotsLimited && OnAccount(next, a) ==> next.job.volume <= caps.perTrade)
            && (!next.Idle? ==> WithinCaps(next.job, a, caps))
  {
  }

  lemma CheckBounded(s: State, i: nat, figures: Figures, a: AccountId, caps: Caps, k: nat)
    requires Bounded(s, a, caps, k) && i < |s.slots| && s.slots[i].Snapped?
    ensures Bounded(Step(s, Check(i, figures)), a, caps, k)
  {
    CheckFits(s.slots[i], figures, a, caps);
    PendingUpdate(s.slots, i, Checked(s.slots[i], figures), a, caps);
    assert Step(s, Check(i, figures)) == s.(slots := s.slots[i := Checked(s.slots[i], figures)]);
  }

  lemma SendBounded(s: State, i: nat, price: int, a: AccountId, caps: Caps, k: nat)
    requires Bounded(s, a, caps, k) && i < |s.slots| && s.slots[i].Approved?
    ensures Bounded(Step(s, SendOrder(i, price)), a, caps, k)
  {
    var job, row := s.slots[i].job, s.slots[i].row;
    PendingUpdate(s.slots, i, Idle, a, caps);
    if job.account == a && a in s.brokers {
      OrderGrowsExposure(s.brokers[a], OpenRequest(job.symbol, job.orderType, job.volume, None, None, row), price);
    }
  }

  lemma SlotFreed(s: State, i: nat, a: AccountId, caps: Caps, k: nat)
    requires Bounded(s, a, caps, k) && i < |s.slots|
    ensures Bounded(Step(s, Crash(i)), a, caps, k)
  {
    PendingUpdate(s.slots, i, Idle, a, caps);
  }

  lemma InsertBounded(s: State, i: nat, job: Job, a: AccountId, caps: Caps, k: nat)
    requires Bounded(s, a, caps, k) && WithinCaps(job, a, caps)
    ensures Bounded(Step(s, Insert(i, job)), a, caps, k)
  {
    if i < |s.slots| {
      PendingUpdate(s.slots, i, Inserted(job, s.nextRow), a, caps);
    }
  }

  lemma CloseBounded(s: State, action: Action, a: AccountId, caps: Caps, k: nat)
    requires Bounded(s, a, caps, k) && action.ClosePart?
    ensures Bounded(Step(s, action), a, caps, k)
  {
    if action.account == a && a in s.brokers {
      CloseShrinksExposure(s.brokers[a], action.ticket, action.volume, action.price, action.now);
    }
  }

  lemma StepBounded(s: State, action: Action, a: AccountId, caps: Caps, k: nat)
    requires Bounded(s, a, caps, k)
    requires action.Insert? ==> WithinCaps(action.job, a, caps)
    requires InFlight(s.slots, a) <= k
    ensures Bounded(Step(s, action), a, caps, k)
  {
    match action {
      case Insert(i, job) => InsertBounded(s, i, job, a, caps, k);
      case TakeSnapshot(i) =>
        if i < |s.slots| && s.slots[i].Inserted? {
          SnapshotBounded(s, i, a, caps, k);
        }
      case Check(i, figures) =>
        if i < |s.slots| && s.slots[i].Snapped? {
          CheckBounded(s, i, figures, a, caps, k);
        }
      case SendOrder(i, price) =>
        if i < |s.slots| && s.slots[i].Approved? {
          SendBounded(s, i, price, a, caps, k);
        }
      case Crash(i) =>
        if i < |s.slots| {
          SlotFreed(s, i, a, caps, k);
        }
      case ClosePart(_, _, _, _, _) => CloseBounded(s, action, a, caps, k);
    }
  }

  /** Never more than `k` copies in flight on the account, and every copy made there is within the caps. */
  ghost predicate Schedule(s: State, actions: seq<Action>, a: AccountId, caps: Caps, k: nat) {
    forall i :: 0 <= i < |actions| ==>
      InFlight(Run(s, actions[..i]).slots, a) <= k && (actions[i].Insert? ==> WithinCaps(actions[i].job, a, caps))
  }

  lemma {:induction false} RunBounded(s: State, actions: seq<Action>, a: AccountId, caps: Caps, k: nat)
    requires Bounded(s, a, caps, k) && Schedule(s, actions, a, caps, k)
    ensures Bounded(Run(s, actions), a, caps, k)
  {
    if actions != [] {
      var before := actions[..|actions| - 1];
      forall i | 0 <= i < |before|
        ensures InFlight(Run(s, before[..i]).slots, a) <= k &&
                  (before[i].Insert? ==> WithinCaps(before[i].job, a, caps))
      {
        assert before[..i] == actions[..i];
      }
      RunBounded(s, before, a, caps, k);
      StepBounded(Run(s, before), actions[|actions| - 1], a, caps, k);
    }
  }

  /**
   * Starting within the caps and with nothing in flight, any interleaving keeps
   * the account within its caps and at most one order for each further copy
   * in flight; one copy at a time keeps the caps exactly.
   */
  lemma ExposureBound(s: State, actions: seq<Action>, a: AccountId, caps: Caps, k: nat)
    requires k >= 1 && Schedule(s, actions, a, caps, k)
    requires forall i :: 0 <= i < |s.slots| ==> s.slots[i].Idle?
    requires a in s.brokers ==> TicketsIssued(s.brokers[a])
    requires TradesOn(s, a) <= caps.trades && (caps.lotsLimited ==> VolumeOn(s, a) <= caps.total)
    ensures TradesOn(Run(s, actions), a) <= caps.trades + (k - 1)
    ensures caps.lotsLimited ==> VolumeOn(Run(s, actions), a) <= caps.total + (k - 1) * caps.perTrade
  {
    NothingPending(s.slots, a, caps);
    TimesMonotone(1, k, caps.perTrade);
    RunBounded(s, actions, a, caps, k);
    assert (k - 1) * caps.perTrade == k * caps.perTrade - caps.perTrade;
  }

  lemma {:induction false} NothingPending(slots: seq<Slot>, a: AccountId, caps: Caps)
    requires forall i :: 0 <= i < |slots| ==> slots[i].Idle?
    ensures PendingTrades(slots, a, caps) == 0 && PendingVolume(slots, a, caps) == 0
  {
    if slots != [] {
      NothingPending(slots[..|slots| - 1], a, caps);
    }
  }

  // ---- One copy with nothing in between ------------------------------------

  /** The job is the copy of `event` to this subscriber. */
  predicate IsCopyOf(job: Job, sub: Subscription, event: TradeEvent) {
    && job.event == event.eventId && job.account == sub.accountId && job.orderType == event.orderType
    && sub.settings == Some(job.settings) && sub.risk.GetOr(NO_LIMITS) == job.limits
  }

  function FiguresOf(m: Member, today: Day): Figures {
    Figures(m.equity, m.peakEquity, TodaysRisk(m, today).dailyStartEquity, TodaysRisk(m, today).breached)
  }

  lemma CheckIsTheEngines(slot: Slot, m: Member, b: Account, sub: Subscription, event: TradeEvent, today: Day)
    requires slot.Snapped? && IsCopyOf(slot.job, sub, event)
    requires slot.openTrades == |LivePositions(b)| && slot.openVolume == OpenVolume(b)
    ensures EvaluateRisk(ContextFor(slot, FiguresOf(m, today))).Allowed?
            <==> D.Passes(m, b, slot.job.settings, sub.risk, event, slot.job.symbol, slot.job.volume, today)
                 && !D.LostTooMuch(m, sub.risk, today)
  {
    D.RiskMeaning(m, b, slot.job.settings, sub.risk, event, slot.job.symbol, slot.job.volume, today);
  }

  /**
   * A copy that runs through a slot with nothing in between does what the
   * engine does: it sends its order exactly when nothing forbids it.
   */
  lemma AloneIsTheEngine(s: State, i: nat, job: Job, m: Member, sub: Subscription, event: TradeEvent, today: Day,
                         price: int)
    requires i < |s.slots| && s.slots[i].Idle? && (job.event, job.account) !in s.rows
    requires job.account in s.brokers && IsCopyOf(job, sub, event)
    ensures var b := s.brokers[job.account];
            var snapped := Step(Step(s, Insert(i, job)), TakeSnapshot(i));
            var end := Step(Step(snapped, Check(i, FiguresOf(m, today))), SendOrder(i, price));
            if D.Passes(m, b, job.settings, sub.risk, event, job.symbol, job.volume, today)
               && !D.LostTooMuch(m, sub.risk, today) then
              && end.sent == s.sent + [SentOrder(job.event, job.account, s.nextRow)]
              && end.brokers == s.brokers[job.account :=
                   OpenPosition(b, OpenRequest(job.symbol, job.orderType, job.volume, None, None, s.nextRow), price).0]
            else
              end.sent == s.sent && end.brokers == s.brokers
  {
    var snapped := Step(Step(s, Insert(i, job)), TakeSnapshot(i));
    CheckIsTheEngines(snapped.slots[i], m, s.brokers[job.account], sub, event, today);
  }
}
