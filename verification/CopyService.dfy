/**
 * The copy engine and the reconcile sweep as the stateful services they are
 * (src/services/copy-engine.service.ts, src/services/reconcile.service.ts).
 *
 * Each method writes the tables one step at a time; its contract ties the new
 * state to the function of the same name in `MemberModel` or `ReconcileModel`.
 */
module CopyService {
  import opened Common
  import opened TradeTypes
  import opened LotCalculator
  import opened RiskEngine
  import opened MockBroker
  import opened MemberModel
  import opened ReconcileModel
  import opened MemberAgreement
  import E = CopyEffects

  datatype EventProcessing = QUEUED | PROCESSING | PROCESSED

  datatype QueuedEvent = QueuedEvent(event: TradeEvent, status: EventProcessing)

  datatype CopyOutcome = CopyOutcome(processed: nat, succeeded: nat, failed: nat, skipped: nat)

  const NOTHING := CopyOutcome(0, 0, 0, 0)

  datatype Result<T> = Success(value: T) | NotFound

  /** Prices, day and time at which one job runs. */
  datatype Clock = Clock(prices: map<Symbol, int>, today: Day, now: int) {
    function At(symbol: Symbol): Moment {
      Moment(if symbol in prices then prices[symbol] else 0, today, now)
    }
  }

  /** The part of the store a fan-out touches, and the next row id to be created. */
  datatype World = World(members: map<AccountId, Member>, brokers: map<AccountId, Account>, nextRow: RowId)

  function MemberSymbol(aliases: map<(AccountId, Symbol), Symbol>, account: AccountId, symbol: Symbol): Symbol {
    if (account, symbol) in aliases then aliases[(account, symbol)] else symbol
  }

  predicate IsEligible(members: map<AccountId, Member>, sub: Subscription, strategy: StrategyId) {
    && sub.strategyId == strategy && sub.active
    && sub.accountId in members
    && sub.id in members[sub.accountId].copying
    && members[sub.accountId].connection == CONNECTED
  }

  function Eligible(members: map<AccountId, Member>, subs: seq<Subscription>, strategy: StrategyId): seq<Subscription> {
    if subs == [] then []
    else
      Eligible(members, subs[..|subs| - 1], strategy)
      + (if IsEligible(members, subs[|subs| - 1], strategy) then [subs[|subs| - 1]] else [])
  }

  /** One subscriber of the fan-out; `None` when no broker session can be had. */
  function CopyOne(w: World, sub: Subscription, event: TradeEvent, symbol: Symbol, at: Moment)
    : (World, Option<CopyStep>)
  {
    if sub.accountId !in w.members || sub.accountId !in w.brokers then
      (w, None)
    else
      var m := w.members[sub.accountId];
      var step := CopyToMember(m, w.brokers[sub.accountId], sub, event, symbol, w.nextRow, at);
      (World(w.members[sub.accountId := step.member],
             w.brokers[sub.accountId := step.broker],
             if event.eventId in m.rows then w.nextRow else w.nextRow + 1),
       Some(step))
  }

  function Tally(outcome: CopyOutcome, step: Option<CopyStep>): CopyOutcome {
    var counted := outcome.(processed := outcome.processed + 1);
    if step.Some? && step.value.outcome == SUCCESS then counted.(succeeded := counted.succeeded + 1)
    else if step.Some? && step.value.outcome == SKIPPED then counted.(skipped := counted.skipped + 1)
    else counted.(failed := counted.failed + 1)
  }

  function FanOut(w: World, subs: seq<Subscription>, event: TradeEvent, aliases: map<(AccountId, Symbol), Symbol>,
                  clock: Clock): (World, CopyOutcome)
  {
    if subs == [] then
      (w, NOTHING)
    else
      var (w1, outcome) := FanOut(w, subs[..|subs| - 1], event, aliases, clock);
      var sub := subs[|subs| - 1];
      var symbol := MemberSymbol(aliases, sub.accountId, event.symbol);
      var (w2, step) := CopyOne(w1, sub, event, symbol, clock.At(symbol));
      (w2, Tally(outcome, step))
  }

  lemma FanOutStep(w: World, subs: seq<Subscription>, event: TradeEvent, aliases: map<(AccountId, Symbol), Symbol>,
                   clock: Clock, i: nat)
    requires i < |subs|
    ensures var (w1, outcome) := FanOut(w, subs[..i], event, aliases, clock);
            var symbol := MemberSymbol(aliases, subs[i].accountId, event.symbol);
            var (w2, step) := CopyOne(w1, subs[i], event, symbol, clock.At(symbol));
            FanOut(w, subs[..i + 1], event, aliases, clock) == (w2, Tally(outcome, step))
  {
    assert subs[..i + 1][..i] == subs[..i];
  }

  class CopyPlatform {
    const provider: MockTradingProvider
    var members: map<AccountId, Member>
    var subscriptions: seq<Subscription>
    var aliases: map<(AccountId, Symbol), Symbol>
    var events: map<EventId, QueuedEvent>
    var nextRow: RowId

    constructor (provider: MockTradingProvider)
      ensures this.provider == provider && members == map[] && events == map[] && nextRow == 0
    {
      this.provider := provider;
      members, subscriptions, aliases, events, nextRow := map[], [], map[], map[], 0;
    }

    ghost predicate Knows(a: AccountId)
      reads this, provider
    {
      a in members && a in provider.accounts
    }

    function View(): World
      reads this, provider
    {
      World(members, provider.accounts, nextRow)
    }

    // -- copy-engine.service.ts ----------------------------------------------

    method Finish(a: AccountId, e: EventId, status: CopyStatus, error: Option<ErrorCode>)
      requires a in members && e in members[a].rows
      modifies this`members
      ensures members == old(members)[a := MemberModel.Finish(old(members)[a], e, status, error)]
    {
      var row := members[a].rows[e];
      row := row.(status := status, error := error);
      members := members[a := members[a].(rows := members[a].rows[e := row])];
    }

    method RecordFill(sub: Subscription, event: TradeEvent, symbol: Symbol, ticket: Ticket, price: Option<int>,
                      volume: int, now: int)
      requires sub.accountId in members && event.eventId in members[sub.accountId].rows
      modifies this`members
      ensures members == old(members)[sub.accountId :=
                           MemberModel.RecordFill(old(members)[sub.accountId], sub, event, symbol, ticket, price,
                                                  volume, now)]
    {
      var a, e := sub.accountId, event.eventId;
      var row := members[a].rows[e].(status := SUCCESS, memberTicket := Some(ticket), memberVolume := volume);
      members := members[a := members[a].(rows := members[a].rows[e := row])];

      var mappings := members[a].mappings;
      if event.ticket in mappings {
        mappings := mappings[event.ticket :=
                             mappings[event.ticket].(memberTicket := ticket, volume := volume, status := OPENED)];
      } else {
        mappings := mappings[event.ticket := Mapping(sub.id, ticket, [], symbol, event.orderType, volume,
                                                     price.GetOr(event.price), OPENED, None, None, None, now, None)];
      }
      members := members[a := members[a].(mappings := mappings)];
      members := members[a := members[a].(openTrades := members[a].openTrades + 1)];
    }

    /** Loads today's counters, starting them afresh on a new trading day. */
    method LoadRiskState(a: AccountId, today: Day) returns (state: RiskState)
      requires a in members
      modifies this`members
      ensures state == TodaysRisk(old(members)[a], today)
      ensures members == old(members)[a := old(members)[a].(risk := Some(state))]
    {
      if members[a].risk.None? {
        members := members[a := members[a].(risk := Some(RiskState(today, members[a].equity, false)))];
      }
      state := members[a].risk.value;
      if state.tradingDay != today {
        state := RiskState(today, members[a].equity, false);
        members := members[a := members[a].(risk := Some(state))];
      }
      assert old(members)[a].risk.Some? ==> members[a].(risk := old(members)[a].risk) == old(members)[a];
    }

    method PauseForBreach(sub: Subscription, today: Day)
      requires sub.accountId in members
      modifies this`members
      ensures members == old(members)[sub.accountId :=
                                      MemberModel.PauseForBreach(old(members)[sub.accountId], sub.id, today)]
    {
      var a := sub.accountId;
      var m := members[a].(copying := members[a].copying - {sub.id});
      if m.risk.Some? {
        m := m.(risk := Some(m.risk.value.(breached := true)));
      } else {
        m := m.(risk := Some(RiskState(today, 0, true)));
      }
      members := members[a := m];
    }

    method OpenForMember(sub: Subscription, event: TradeEvent, symbol: Symbol, row: RowId, at: Moment)
      returns (outcome: CopyStatus)
      requires Knows(sub.accountId) && event.eventId in members[sub.accountId].rows
      modifies this`members, provider
      ensures var a := sub.accountId;
              var step := MemberModel.OpenForMember(old(members)[a], old(provider.accounts)[a], sub, event, symbol,
                                                    row, at);
              && members == old(members)[a := step.member]
              && provider.accounts == old(provider.accounts)[a := step.broker]
              && outcome == step.outcome
    {
      var a, e := sub.accountId, event.eventId;
      var b := provider.accounts[a];
      assert provider.accounts == provider.accounts[a := b];
      if sub.settings.None? {
        Finish(a, e, SKIPPED, None);
        return SKIPPED;
      }
      var settings := sub.settings.value;
      var existing := FindByComment(b, row, 0);
      if existing.Some? {
        var p := b.positions[existing.value];
        RecordFill(sub, event, symbol, p.ticket, Some(p.openPrice), p.volume, at.now);
        return SUCCESS;
      }
      var spec := GetSymbolSpec(b, symbol);
      if spec.None? || !spec.value.tradeAllowed {
        Finish(a, e, SKIPPED, Some(INVALID_SYMBOL));
        return SKIPPED;
      }
      var lot := CalculateLot(LotInputsFor(members[a], settings, event, symbol, spec.value));
      if lot.Refused? {
        Finish(a, e, SKIPPED, Some(ErrorCode.INVALID_VOLUME));
        return SKIPPED;
      }
      outcome := CheckAndSend(sub, settings, event, symbol, row, OrderVolume(lot.volume), at);
    }

    method CheckAndSend(sub: Subscription, settings: CopySettings, event: TradeEvent, symbol: Symbol, row: RowId,
                        volume: nat, at: Moment) returns (outcome: CopyStatus)
      requires Knows(sub.accountId) && event.eventId in members[sub.accountId].rows
      modifies this`members, provider
      ensures var a := sub.accountId;
              var step := MemberModel.CheckAndSend(old(members)[a], old(provider.accounts)[a], sub, settings, event,
                                                   symbol, row, volume, at);
              && members == old(members)[a := step.member]
              && provider.accounts == old(provider.accounts)[a := step.broker]
              && outcome == step.outcome
    {
      var a, e := sub.accountId, event.eventId;
      var b := provider.accounts[a];
      assert provider.accounts == provider.accounts[a := b];
      var limits := sub.risk.GetOr(NO_LIMITS);
      var state := LoadRiskState(a, at.today);
      var decision := EvaluateRisk(RiskContextFor(members[a], b, settings, limits, event, symbol, volume, state));
      if decision.Denied? {
        if decision.shouldPause && limits.stopCopyOnBreach {
          PauseForBreach(sub, at.today);
        }
        Finish(a, e, SKIPPED, Some(decision.code));
        return SKIPPED;
      }
      outcome := SendOrder(sub, event, symbol, RequestFor(settings, event, symbol, volume, row), at);
    }

    method SendOrder(sub: Subscription, event: TradeEvent, symbol: Symbol, request: OpenRequest, at: Moment)
      returns (outcome: CopyStatus)
      requires Knows(sub.accountId) && event.eventId in members[sub.accountId].rows
      modifies this`members, provider
      ensures var a := sub.accountId;
              var step := Send(old(members)[a], old(provider.accounts)[a], sub, event, symbol, request, at);
              && members == old(members)[a := step.member]
              && provider.accounts == old(provider.accounts)[a := step.broker]
              && outcome == step.outcome
    {
      var a, e := sub.accountId, event.eventId;
      var result := provider.Open(a, request, at.price);
      var sent := members[a].rows[e];
      members := members[a := members[a].(rows := members[a].rows[e := sent.(attempts := sent.attempts + 1)])];
      match result {
        case Rejected(error) =>
          Finish(a, e, FAILED, Some(error));
          var row := members[a].rows[e];
          members := members[a := members[a].(rows := members[a].rows[e := row.(memberVolume := request.volume)])];
          outcome := FAILED;
        case Executed(ticket, _, price, _) =>
          RecordFill(sub, event, symbol, ticket, price, request.volume, at.now);
          outcome := SUCCESS;
      }
    }

    method PlaceAdjustment(sub: Subscription, event: TradeEvent, mapping: Mapping, at: Moment)
      returns (result: OrderResult)
      requires sub.accountId in provider.accounts
      modifies provider
      ensures var adjusted := AdjustOrder(old(provider.accounts)[sub.accountId], sub, event, mapping, at);
              provider.accounts == old(provider.accounts)[sub.accountId := adjusted.0] && result == adjusted.1
    {
      if event.eventType == MODIFY {
        var sl := if sub.settings.None? || sub.settings.value.copySl then event.sl else None;
        var tp := if sub.settings.None? || sub.settings.value.copyTp then event.tp else None;
        result := provider.Modify(sub.accountId, mapping.memberTicket, sl, tp);
      } else {
        var fraction := event.closeFraction.GetOr(WHOLE);
        var closeVolume: Option<nat> := None;
        if event.eventType == PARTIAL_CLOSE {
          closeVolume := Some(CloseVolume(mapping.volume, fraction));
        }
        result := provider.Close(sub.accountId, mapping.memberTicket, closeVolume, at.price, at.now);
      }
    }

    method AdjustForMember(sub: Subscription, event: TradeEvent, at: Moment) returns (outcome: CopyStatus)
      requires Knows(sub.accountId) && event.eventId in members[sub.accountId].rows
      modifies this`members, provider
      ensures var a := sub.accountId;
              var step := MemberModel.AdjustForMember(old(members)[a], old(provider.accounts)[a], sub, event, at);
              && members == old(members)[a := step.member]
              && provider.accounts == old(provider.accounts)[a := step.broker]
              && outcome == step.outcome
    {
      var a, e, k := sub.accountId, event.eventId, event.ticket;
      if k !in members[a].mappings || members[a].mappings[k].status == CLOSED {
        assert provider.accounts == provider.accounts[a := provider.accounts[a]];
        Finish(a, e, SKIPPED, Some(POSITION_NOT_FOUND));
        return SKIPPED;
      }
      var mapping := members[a].mappings[k];
      var result := PlaceAdjustment(sub, event, mapping, at);
      var row := members[a].rows[e];
      members := members[a := members[a].(rows := members[a].rows[e :=
        row.(attempts := row.attempts + 1, memberTicket := Some(mapping.memberTicket))])];
      if result.Rejected? {
        Finish(a, e, FAILED, Some(result.error));
        return FAILED;
      }
      WriteAdjustment(a, event, mapping, result.remainderTicket, result.volume, at.now);
      row := members[a].rows[e];
      var filled := if result.volume.Some? then result.volume.value else mapping.volume;
      members := members[a :=
                         members[a].(rows := members[a].rows[e := row.(status := SUCCESS, memberVolume := filled)])];
      outcome := SUCCESS;
    }

    method WriteAdjustment(a: AccountId, event: TradeEvent, mapping: Mapping, remainder: Option<Ticket>,
                           volume: Option<int>, now: int)
      requires Knows(a) && event.ticket in members[a].mappings && members[a].mappings[event.ticket] == mapping
      modifies this`members
      ensures members == old(members)[a := ApplyAdjustment(old(members)[a], provider.accounts[a], event, mapping,
                                                           remainder, volume, now)]
    {
      var k := event.ticket;
      var m := members[a];
      if remainder.Some? {
        var remapped := mapping.(memberTicket := remainder.value, status := PARTIALLY_CLOSED);
        remapped := remapped.(ticketHistory := mapping.ticketHistory + [mapping.memberTicket]);
        remapped := remapped.(volume := mapping.volume - volume.GetOr(0));
        members := members[a := m.(mappings := m.mappings[k := remapped])];
      } else if event.eventType == PARTIAL_CLOSE {
        var reduced := mapping.(volume := mapping.volume - volume.GetOr(0), status := PARTIALLY_CLOSED);
        members := members[a := m.(mappings := m.mappings[k := reduced])];
      } else if event.eventType == CLOSE || event.eventType == DELETE_PENDING {
        var closed := GetClosedPosition(provider.accounts[a], mapping.memberTicket);
        members := members[a :=
                           m.(mappings := m.mappings[k :=
                                                     MemberModel.Ended(mapping, closed, Some(COPIED_CLOSE), now)])];
        members := members[a := members[a].(openTrades := members[a].openTrades - 1)];
      } else {
        assert members == members[a := m];
      }
    }

    /** The row is created first, under the unique constraint; it is the lock. */
    method CopyToMember(sub: Subscription, event: TradeEvent, symbol: Symbol, at: Moment) returns (outcome: CopyStatus)
      requires Knows(sub.accountId)
      modifies this`members, this`nextRow, provider
      ensures var a := sub.accountId;
              var step := MemberModel.CopyToMember(old(members)[a], old(provider.accounts)[a], sub, event, symbol,
                                                   old(nextRow), at);
              && members == old(members)[a := step.member]
              && provider.accounts == old(provider.accounts)[a := step.broker]
              && outcome == step.outcome
      ensures nextRow == if event.eventId in old(members)[sub.accountId].rows then old(nextRow) else old(nextRow) + 1
    {
      var a, e := sub.accountId, event.eventId;
      if e in members[a].rows {
        assert members == members[a := members[a]];
        assert provider.accounts == provider.accounts[a := provider.accounts[a]];
        return SKIPPED;
      }
      var row := nextRow;
      nextRow := nextRow + 1;
      members := members[a := members[a].(rows := members[a].rows[e := NewRow(sub, event, row)])];
      if event.eventType == OPEN || event.eventType == PENDING_ORDER {
        outcome := OpenForMember(sub, event, symbol, row, at);
      } else {
        outcome := AdjustForMember(sub, event, at);
      }
    }

    /** One round of the fan-out loop: copies to one subscriber and counts how it ended. */
    method CopySubscriber(sub: Subscription, event: TradeEvent, clock: Clock, outcome: CopyOutcome)
      returns (counted: CopyOutcome)
      modifies this`members, this`nextRow, provider
      ensures var symbol := MemberSymbol(aliases, sub.accountId, event.symbol);
              var (w, step) := CopyOne(old(View()), sub, event, symbol, clock.At(symbol));
              View() == w && counted == Tally(outcome, step)
    {
      counted := outcome.(processed := outcome.processed + 1);
      if sub.accountId !in members || sub.accountId !in provider.accounts {
        counted := counted.(failed := counted.failed + 1);
        return;
      }
      var symbol := MemberSymbol(aliases, sub.accountId, event.symbol);
      var result := CopyToMember(sub, event, symbol, clock.At(symbol));
      if result == SUCCESS {
        counted := counted.(succeeded := counted.succeeded + 1);
      } else if result == SKIPPED {
        counted := counted.(skipped := counted.skipped + 1);
      } else {
        counted := counted.(failed := counted.failed + 1);
      }
    }

    /** The fan-out loop. */
    method CopyToSubscribers(subs: seq<Subscription>, event: TradeEvent, clock: Clock) returns (outcome: CopyOutcome)
      modifies this`members, this`nextRow, provider
      ensures (View(), outcome) == FanOut(old(View()), subs, event, aliases, clock)
    {
      outcome := NOTHING;
      for i := 0 to |subs|
        invariant (View(), outcome) == FanOut(old(View()), subs[..i], event, aliases, clock)
      {
        FanOutStep(old(View()), subs, event, aliases, clock, i);
        outcome := CopySubscriber(subs[i], event, clock, outcome);
      }
      assert subs[..|subs|] == subs;
    }

    /** Fans one stored event out to every eligible subscriber, once. */
    method ProcessTradeEvent(eventId: EventId, clock: Clock) returns (r: Result<CopyOutcome>)
      modifies this, provider
      ensures subscriptions == old(subscriptions) && aliases == old(aliases)
      ensures eventId !in old(events) ==> r == NotFound && View() == old(View()) && events == old(events)
      ensures eventId in old(events) && old(events)[eventId].status == PROCESSED ==>
                r == Success(NOTHING) && View() == old(View()) && events == old(events)
      ensures eventId in old(events) && old(events)[eventId].status != PROCESSED ==>
                var event := old(events)[eventId].event;
                var subs := Eligible(old(members), old(subscriptions), event.strategyId);
                && View() == FanOut(old(View()), subs, event, old(aliases), clock).0
                && r == Success(FanOut(old(View()), subs, event, old(aliases), clock).1)
                && events == old(events)[eventId := QueuedEvent(event, PROCESSED)]
    {
      if eventId !in events {
        return NotFound;
      }
      var event := events[eventId].event;
      if events[eventId].status == PROCESSED {
        return Success(NOTHING);
      }
      events := events[eventId := QueuedEvent(event, PROCESSING)];
      var subs := Eligible(members, subscriptions, event.strategyId);
      var outcome := CopyToSubscribers(subs, event, clock);
      events := events[eventId := QueuedEvent(event, PROCESSED)];
      r := Success(outcome);
    }

    // -- reconcile.service.ts ------------------------------------------------

    /** Marks what the broker no longer reports as closed, with the broker's figures where it has them. */
    method CloseVanishedMappings(a: AccountId, now: int) returns (closed: nat)
      requires Knows(a)
      modifies this`members
      ensures members == old(members)[a := old(members)[a].(
                mappings := AfterVanished(provider.accounts[a], old(members)[a].mappings, now))]
      ensures closed == |VanishedKeys(old(members)[a], provider.accounts[a])|
    {
      var m, b := members[a], provider.accounts[a];
      var live := LivePositions(b);
      var vanished := set k | k in m.mappings && BelievedOpen(m.mappings[k]) && m.mappings[k].memberTicket !in live;
      assert vanished == VanishedKeys(m, b);
      closed := |vanished|;
      var todo := vanished;
      while todo != {}
        invariant todo <= vanished
        invariant a in members && members == old(members)[a := m.(mappings := members[a].mappings)]
        invariant members[a].mappings.Keys == m.mappings.Keys
        invariant forall k :: k in m.mappings ==>
                    members[a].mappings[k] == if k in todo then m.mappings[k] else CloseVanished(b, m.mappings[k], now)
        decreases todo
      {
        var k :| k in todo;
        todo := todo - {k};
        var mapping := members[a].mappings[k];
        var result := GetClosedPosition(b, mapping.memberTicket);
        var ended := mapping.(
          status := CLOSED,
          closedAt := if result.Some? then Some(result.value.closedAt) else Some(now),
          closePrice := if result.Some? then Some(result.value.closePrice) else None,
          profit := if result.Some? then Some(result.value.profit) else None,
          closeReason := if result.Some? then Some(result.value.reason) else None);
        members := members[a := members[a].(mappings := members[a].mappings[k := ended])];
      }
      assert members[a].mappings == AfterVanished(b, m.mappings, now);
    }

    /** Retries the results still missing, for the rows the query returned. */
    method BackfillResults(a: AccountId, batch: set<Ticket>)
      requires Knows(a) && batch <= members[a].mappings.Keys
      modifies this`members
      ensures members == old(members)[a := old(members)[a].(
                mappings := AfterBackfill(provider.accounts[a], old(members)[a].mappings, batch))]
    {
      var m, b := members[a], provider.accounts[a];
      var todo := batch;
      while todo != {}
        invariant todo <= batch
        invariant a in members && members == old(members)[a := m.(mappings := members[a].mappings)]
        invariant members[a].mappings.Keys == m.mappings.Keys
        invariant forall k :: k in m.mappings ==>
                    members[a].mappings[k] == if k in batch && k !in todo then Backfilled(b, m.mappings[k])
                        else m.mappings[k]
        decreases todo
      {
        var k :| k in todo;
        todo := todo - {k};
        var mapping := members[a].mappings[k];
        var result := GetClosedPosition(b, mapping.memberTicket);
        if result.Some? {
          var filled := mapping.(closePrice := Some(result.value.closePrice), profit := Some(result.value.profit),
                                 closeReason := Some(result.value.reason));
          members := members[a := members[a].(mappings := members[a].mappings[k := filled])];
        }
      }
      assert members[a].mappings == AfterBackfill(b, m.mappings, batch);
    }

    /**
     * Brings one account back in line with the broker; `None` when no session
     * can be had. `equity` is the broker's figure, and `batch` answers the query
     * for results to retry.
     */
    method ReconcileAccount(a: AccountId, equity: int, batch: set<Ticket>, now: int)
      returns (r: Option<ReconcileResult>)
      requires Knows(a) && Reachable(members[a]) ==>
                IsBatch(AfterVanished(provider.accounts[a], members[a].mappings, now), now, batch)
      modifies this`members
      ensures a !in old(members) || !Reachable(old(members)[a]) ==>
                members == old(members) && r == Some(ReconcileResult(0, 0, 0))
      ensures a in old(members) && Reachable(old(members)[a]) && a !in provider.accounts ==>
                members == old(members) && r.None?
      ensures a in old(members) && Reachable(old(members)[a]) && a in provider.accounts ==>
                && members == old(members)[a := Sweep(old(members)[a], provider.accounts[a], equity, batch, now)]
                && r == Some(ReconcileResult(|LivePositions(provider.accounts[a])|,
                                             |VanishedKeys(old(members)[a], provider.accounts[a])|, equity))
    {
      if a !in members || !Reachable(members[a]) {
        return Some(ReconcileResult(0, 0, 0));
      }
      if a !in provider.accounts {
        return None;
      }
      var live := LivePositions(provider.accounts[a]);
      var closed := CloseVanishedMappings(a, now);
      BackfillResults(a, batch);
      var m := members[a];
      members := members[a := m.(balance := provider.accounts[a].balance, equity := equity,
                                 peakEquity := Max(m.peakEquity, equity),
                                 openTrades := |live|, connection := CONNECTED)];
      r := Some(ReconcileResult(|live|, closed, equity));
    }
  }

  // ---- What the fan-out guarantees -----------------------------------------

  ghost predicate DistinctAccounts(subs: seq<Subscription>) {
    forall i, j :: 0 <= i < j < |subs| ==> subs[i].accountId != subs[j].accountId
  }

  /** An account follows a strategy at most once: the unique (accountId, strategyId) index. */
  ghost predicate UniqueSubscriptions(subs: seq<Subscription>) {
    forall i, j :: 0 <= i < j < |subs| ==>
      subs[i].accountId != subs[j].accountId || subs[i].strategyId != subs[j].strategyId
  }

  /**
   * So the eligible subscribers of one event are on different accounts, and are
   * exactly the ones that should get it.
   */
  lemma {:induction false} EligibleSubscribers(members: map<AccountId, Member>, subs: seq<Subscription>,
                                               strategy: StrategyId)
    requires UniqueSubscriptions(subs)
    ensures DistinctAccounts(Eligible(members, subs, strategy))
    ensures forall sub :: sub in Eligible(members, subs, strategy) <==>
              && sub in subs && sub.strategyId == strategy && sub.active
              && sub.accountId in members && members[sub.accountId].connection == CONNECTED
              && sub.id in members[sub.accountId].copying
  {
    if subs != [] {
      var before, last := subs[..|subs| - 1], subs[|subs| - 1];
      EligibleSubscribers(members, before, strategy);
      var e := Eligible(members, before, strategy);
      forall i | 0 <= i < |e|
        ensures IsEligible(members, last, strategy) ==> e[i].accountId != last.accountId
      {
        assert e[i] in before;
        var j :| 0 <= j < |before| && before[j] == e[i];
        assert subs[j] == e[i];
      }
    }
  }

  /** An account outside the fan-out is not touched; the counters add up. */
  lemma {:induction false} FanOutLeavesOthersAlone(w: World, subs: seq<Subscription>, event: TradeEvent,
                                                   aliases: map<(AccountId, Symbol), Symbol>, clock: Clock,
                                                       a: AccountId)
    requires forall i :: 0 <= i < |subs| ==> subs[i].accountId != a
    ensures var (w', outcome) := FanOut(w, subs, event, aliases, clock);
            && (a in w'.members <==> a in w.members) && (a in w.members ==> w'.members[a] == w.members[a])
            && (a in w'.brokers <==> a in w.brokers) && (a in w.brokers ==> w'.brokers[a] == w.brokers[a])
            && w'.nextRow >= w.nextRow
            && outcome.processed == |subs| == outcome.succeeded + outcome.failed + outcome.skipped
  {
    if subs != [] {
      FanOutLeavesOthersAlone(w, subs[..|subs| - 1], event, aliases, clock, a);
    }
  }

  lemma LastTouchesItsAccount(w: World, subs: seq<Subscription>, event: TradeEvent,
                              aliases: map<(AccountId, Symbol), Symbol>, clock: Clock, a: AccountId)
    requires subs != [] && subs[|subs| - 1].accountId != a
    ensures var w1, w2 := FanOut(w, subs[..|subs| - 1], event, aliases, clock).0,
              FanOut(w, subs, event, aliases, clock).0;
            && (a in w1.members <==> a in w2.members) && (a in w1.members ==> w2.members[a] == w1.members[a])
            && (a in w1.brokers <==> a in w2.brokers) && (a in w1.brokers ==> w2.brokers[a] == w1.brokers[a])
  {
  }

  lemma LastIsCopied(w: World, subs: seq<Subscription>, event: TradeEvent,
                     aliases: map<(AccountId, Symbol), Symbol>, clock: Clock)
    returns (row: RowId)
    requires DistinctAccounts(subs) && subs != []
    requires subs[|subs| - 1].accountId in w.members && subs[|subs| - 1].accountId in w.brokers
    ensures var last := subs[|subs| - 1];
            var a := last.accountId;
            var symbol := MemberSymbol(aliases, a, event.symbol);
            var step := MemberModel.CopyToMember(w.members[a], w.brokers[a], last, event, symbol, row,
                                                 clock.At(symbol));
            var w' := FanOut(w, subs, event, aliases, clock).0;
            && a in w'.members && w'.members[a] == step.member
            && a in w'.brokers && w'.brokers[a] == step.broker
            && w.nextRow <= row
  {
    var before := subs[..|subs| - 1];
    FanOutLeavesOthersAlone(w, before, event, aliases, clock, subs[|subs| - 1].accountId);
    row := FanOut(w, before, event, aliases, clock).0.nextRow;
  }

  /** Each subscriber ends exactly as if the event had been copied to it alone. */
  lemma {:induction false} FanOutIsPerAccount(w: World, subs: seq<Subscription>, event: TradeEvent,
                                              aliases: map<(AccountId, Symbol), Symbol>, clock: Clock, i: nat)
    returns (row: RowId)
    requires DistinctAccounts(subs) && i < |subs|
    requires subs[i].accountId in w.members && subs[i].accountId in w.brokers
    ensures var a := subs[i].accountId;
            var symbol := MemberSymbol(aliases, a, event.symbol);
            var step := MemberModel.CopyToMember(w.members[a], w.brokers[a], subs[i], event, symbol, row,
                                                 clock.At(symbol));
            var w' := FanOut(w, subs, event, aliases, clock).0;
            && a in w'.members && w'.members[a] == step.member
            && a in w'.brokers && w'.brokers[a] == step.broker
            && w.nextRow <= row
  {
    if i == |subs| - 1 {
      row := LastIsCopied(w, subs, event, aliases, clock);
    } else {
      row := FanOutIsPerAccount(w, subs[..|subs| - 1], event, aliases, clock, i);
      LastTouchesItsAccount(w, subs, event, aliases, clock, subs[i].accountId);
    }
  }

  lemma CopiedAgainIsIdle(w: World, sub: Subscription, event: TradeEvent, symbol: Symbol, at: Moment)
    requires sub.accountId in w.members && sub.accountId in w.brokers
    requires event.eventId in w.members[sub.accountId].rows
    ensures var (w', step) := CopyOne(w, sub, event, symbol, at);
            w' == w && step.Some? && step.value.outcome == SKIPPED
  {
    var a := sub.accountId;
    assert w.members[a := w.members[a]] == w.members;
    assert w.brokers[a := w.brokers[a]] == w.brokers;
  }

  /** Fanning an event out again, to accounts that already have its row, changes nothing and sends nothing. */
  lemma {:induction false} FanOutAgainIsIdle(w: World, subs: seq<Subscription>, event: TradeEvent,
                                             aliases: map<(AccountId, Symbol), Symbol>, clock: Clock)
    requires forall i :: 0 <= i < |subs| ==>
               var a := subs[i].accountId; a in w.members && a in w.brokers && event.eventId in w.members[a].rows
    ensures FanOut(w, subs, event, aliases, clock) == (w, CopyOutcome(|subs|, 0, 0, |subs|))
  {
    if subs != [] {
      var sub := subs[|subs| - 1];
      var symbol := MemberSymbol(aliases, sub.accountId, event.symbol);
      FanOutAgainIsIdle(w, subs[..|subs| - 1], event, aliases, clock);
      CopiedAgainIsIdle(w, sub, event, symbol, clock.At(symbol));
    }
  }

  /** After a fan-out every reached account has its row, so a retry of the whole job is idle. */
  lemma RetriedJobIsIdle(w: World, subs: seq<Subscription>, event: TradeEvent,
                         aliases: map<(AccountId, Symbol), Symbol>, clock: Clock, retry: Clock)
    requires DistinctAccounts(subs)
    requires forall i :: 0 <= i < |subs| ==> subs[i].accountId in w.members && subs[i].accountId in w.brokers
    ensures var w' := FanOut(w, subs, event, aliases, clock).0;
            FanOut(w', subs, event, aliases, retry) == (w', CopyOutcome(|subs|, 0, 0, |subs|))
  {
    var w' := FanOut(w, subs, event, aliases, clock).0;
    forall i | 0 <= i < |subs|
      ensures var a := subs[i].accountId; a in w'.members && a in w'.brokers && event.eventId in w'.members[a].rows
    {
      var row := FanOutIsPerAccount(w, subs, event, aliases, clock, i);
      var a := subs[i].accountId;
      var symbol := MemberSymbol(aliases, a, event.symbol);
      CopyLeavesRow(w.members[a], w.brokers[a], subs[i], event, symbol, row, clock.At(symbol));
    }
    FanOutAgainIsIdle(w', subs, event, aliases, retry);
  }

  lemma CopyLeavesRow(m: Member, b: Account, sub: Subscription, event: TradeEvent, symbol: Symbol, row: RowId,
                      at: Moment)
    ensures event.eventId in MemberModel.CopyToMember(m, b, sub, event, symbol, row, at).member.rows
  {
  }

  /**
   * A subscriber that had nothing on the master ticket and takes the OPEN ends
   * with a live position on the symbol its own account trades under, entered
   * at that symbol's price.
   */
  lemma SubscriberTradesOwnSymbol(w: World, subs: seq<Subscription>, event: TradeEvent,
                                  aliases: map<(AccountId, Symbol), Symbol>, clock: Clock, i: nat)
    requires DistinctAccounts(subs) && i < |subs| && MemberModel.Opens(event)
    requires subs[i].accountId in w.members && subs[i].accountId in w.brokers
    requires event.eventId !in w.members[subs[i].accountId].rows
    requires event.ticket !in w.members[subs[i].accountId].mappings
    requires !w.brokers[subs[i].accountId].netting && CommentsBelow(w.brokers[subs[i].accountId], w.nextRow)
    requires Ended(w, FanOut(w, subs, event, aliases, clock).0, subs[i], event.eventId) == SUCCESS
    ensures var a := subs[i].accountId;
            var symbol := if (a, event.symbol) in aliases then aliases[(a, event.symbol)] else event.symbol;
            var w' := FanOut(w, subs, event, aliases, clock).0;
            && a in w'.members && a in w'.brokers
            && E.Entered(w'.members[a], w'.brokers[a], event.ticket, subs[i], symbol,
                         if symbol in clock.prices then clock.prices[symbol] else 0, clock.now)
  {
    var row := FanOutIsPerAccount(w, subs, event, aliases, clock, i);
    var a := subs[i].accountId;
    var symbol := MemberSymbol(aliases, a, event.symbol);
    CopyEndsAsItsRow(w.members[a], w.brokers[a], subs[i], event, symbol, row, clock.At(symbol));
    E.OpenEnters(w.members[a], w.brokers[a], subs[i], event, symbol, row, clock.At(symbol));
  }

  /** No order at any broker carries a row id that is still to be created. */
  ghost predicate RowsFresh(w: World) {
    forall a :: a in w.brokers ==> CommentsBelow(w.brokers[a], w.nextRow)
  }

  lemma CopyKeepsRowsFresh(w: World, sub: Subscription, event: TradeEvent, symbol: Symbol, at: Moment)
    requires RowsFresh(w)
    ensures RowsFresh(CopyOne(w, sub, event, symbol, at).0)
  {
    var a := sub.accountId;
    if a in w.members && a in w.brokers {
      CopyComments(w.members[a], w.brokers[a], sub, event, symbol, w.nextRow, at);
      if event.eventId in w.members[a].rows {
        CopiedAgainIsIdle(w, sub, event, symbol, at);
      }
    }
  }

  /** Over a whole fan-out each new order carries its own row id, below every id still to come. */
  lemma {:induction false} FanOutKeepsRowsFresh(w: World, subs: seq<Subscription>, event: TradeEvent,
                                                aliases: map<(AccountId, Symbol), Symbol>, clock: Clock)
    requires RowsFresh(w)
    ensures RowsFresh(FanOut(w, subs, event, aliases, clock).0)
  {
    if subs != [] {
      var sub := subs[|subs| - 1];
      var symbol := MemberSymbol(aliases, sub.accountId, event.symbol);
      FanOutKeepsRowsFresh(w, subs[..|subs| - 1], event, aliases, clock);
      CopyKeepsRowsFresh(FanOut(w, subs[..|subs| - 1], event, aliases, clock).0, sub, event, symbol, clock.At(symbol));
    }
  }

  // ---- What the counters say -----------------------------------------------

  /**
   * How the fan-out ended for one subscriber, read off the stored rows: failed
   * without an account or a session, skipped if the event had been there
   * before, and otherwise what its new row says.
   */
  ghost function Ended(w: World, w': World, sub: Subscription, e: EventId): CopyStatus {
    var a := sub.accountId;
    if a !in w.members || a !in w.brokers then FAILED
    else if e in w.members[a].rows then SKIPPED
    else if a in w'.members && e in w'.members[a].rows then w'.members[a].rows[e].status
    else UNFINISHED
  }

  ghost function EndedAs(w: World, w': World, subs: seq<Subscription>, e: EventId, status: CopyStatus): set<int> {
    set i | 0 <= i < |subs| && Ended(w, w', subs[i], e) == status
  }

  lemma CopyEndsAsItsRow(m: Member, b: Account, sub: Subscription, event: TradeEvent, symbol: Symbol, row: RowId,
                         at: Moment)
    ensures var step := MemberModel.CopyToMember(m, b, sub, event, symbol, row, at);
            && event.eventId in step.member.rows && step.outcome in {SUCCESS, FAILED, SKIPPED}
            && (event.eventId in m.rows ==> step.outcome == SKIPPED)
            && (event.eventId !in m.rows ==> step.outcome == step.member.rows[event.eventId].status)
  {
  }

  lemma EndedStays(w: World, subs: seq<Subscription>, event: TradeEvent,
                   aliases: map<(AccountId, Symbol), Symbol>, clock: Clock, i: nat)
    requires DistinctAccounts(subs) && i < |subs| - 1
    ensures var w1, w2 := FanOut(w, subs[..|subs| - 1], event, aliases, clock).0,
              FanOut(w, subs, event, aliases, clock).0;
            Ended(w, w2, subs[i], event.eventId) == Ended(w, w1, subs[i], event.eventId)
  {
    LastTouchesItsAccount(w, subs, event, aliases, clock, subs[i].accountId);
  }

  lemma LastEnds(w: World, subs: seq<Subscription>, event: TradeEvent,
                 aliases: map<(AccountId, Symbol), Symbol>, clock: Clock)
    requires DistinctAccounts(subs) && subs != []
    ensures var (w1, before) := FanOut(w, subs[..|subs| - 1], event, aliases, clock);
            var (w2, after) := FanOut(w, subs, event, aliases, clock);
            var ended := Ended(w, w2, subs[|subs| - 1], event.eventId);
            && ended in {SUCCESS, FAILED, SKIPPED}
            && after.succeeded == before.succeeded + (if ended == SUCCESS then 1 else 0)
            && after.failed == before.failed + (if ended == FAILED then 1 else 0)
            && after.skipped == before.skipped + (if ended == SKIPPED then 1 else 0)
  {
    var last := subs[|subs| - 1];
    var a, symbol := last.accountId, MemberSymbol(aliases, last.accountId, event.symbol);
    FanOutLeavesOthersAlone(w, subs[..|subs| - 1], event, aliases, clock, a);
    var w1 := FanOut(w, subs[..|subs| - 1], event, aliases, clock).0;
    if a in w1.members && a in w1.brokers {
      CopyEndsAsItsRow(w1.members[a], w1.brokers[a], last, event, symbol, w1.nextRow, clock.At(symbol));
    }
  }

  lemma EndedGrows(w: World, w1: World, w2: World, subs: seq<Subscription>, e: EventId, status: CopyStatus)
    requires subs != []
    requires forall i :: 0 <= i < |subs| - 1 ==> Ended(w, w2, subs[i], e) == Ended(w, w1, subs[i], e)
    ensures |EndedAs(w, w2, subs, e, status)|
            == |EndedAs(w, w1, subs[..|subs| - 1], e, status)|
               + (if Ended(w, w2, subs[|subs| - 1], e) == status then 1 else 0)
  {
    var n := |subs| - 1;
    var last := if Ended(w, w2, subs[n], e) == status then {n} else {};
    assert EndedAs(w, w2, subs, e, status) == EndedAs(w, w1, subs[..n], e, status) + last;
  }

  /** The counters of a fan-out are the numbers of subscribers for whom it ended that way. */
  lemma {:induction false} FanOutCounts(w: World, subs: seq<Subscription>, event: TradeEvent,
                                        aliases: map<(AccountId, Symbol), Symbol>, clock: Clock)
    requires DistinctAccounts(subs)
    ensures var (w', outcome) := FanOut(w, subs, event, aliases, clock);
            && outcome.succeeded == |EndedAs(w, w', subs, event.eventId, SUCCESS)|
            && outcome.failed == |EndedAs(w, w', subs, event.eventId, FAILED)|
            && outcome.skipped == |EndedAs(w, w', subs, event.eventId, SKIPPED)|
            && outcome.processed == |subs|
  {
    if subs != [] {
      FanOutCounts(w, subs[..|subs| - 1], event, aliases, clock);
      LastEnds(w, subs, event, aliases, clock);
      var w1 := FanOut(w, subs[..|subs| - 1], event, aliases, clock).0;
      var w2 := FanOut(w, subs, event, aliases, clock).0;
      forall i | 0 <= i < |subs| - 1
        ensures Ended(w, w2, subs[i], event.eventId) == Ended(w, w1, subs[i], event.eventId)
      {
        EndedStays(w, subs, event, aliases, clock, i);
      }
      EndedGrows(w, w1, w2, subs, event.eventId, SUCCESS);
      EndedGrows(w, w1, w2, subs, event.eventId, FAILED);
      EndedGrows(w, w1, w2, subs, event.eventId, SKIPPED);
    }
  }
}
