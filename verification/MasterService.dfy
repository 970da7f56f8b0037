/**
 * Ingest and account watching as the stateful services they are
 * (src/services/master-event.service.ts, src/services/master-watch.service.ts):
 * each method writes the store step by step, and is tied to `FeedModel` and
 * `WatchModel`.
 */
module MasterService {
  import opened Common
  import opened TradeTypes
  import opened FeedModel
  import opened WatchModel
  import T = WatchTheorems
  import E = WatchEvents

  class MasterStrategy {
    const strategy: StrategyId
    var active: bool
    var watching: bool
    var trades: map<Ticket, MasterTrade>
    var events: seq<TradeEvent>
    var nonces: set<EventId>
    var jobs: set<EventId>

    constructor (strategy: StrategyId)
      ensures this.strategy == strategy && active && !watching
      ensures View() == Feed(strategy, map[], [], {}, {})
    {
      this.strategy := strategy;
      active, watching := true, false;
      trades, events, nonces, jobs := map[], [], {}, {};
    }

    function View(): Feed
      reads this
    {
      Feed(strategy, trades, events, nonces, jobs)
    }

    /** Single use: true the first time, and always when the nonce store is down. */
    method ClaimNonce(id: EventId, nonceUp: bool) returns (claimed: bool)
      modifies this`nonces
      ensures claimed == (!nonceUp || id !in old(nonces))
      ensures nonces == if nonceUp then old(nonces) + {id} else old(nonces)
    {
      if !nonceUp {
        return true;
      }
      claimed := id !in nonces;
      nonces := nonces + {id};
    }

    method StoreEvent(input: MasterInput) returns (inserted: bool)
      modifies this`trades, this`events
      ensures (View(), inserted) == FeedModel.StoreEvent(old(View()), input)
    {
      var closeFraction: Option<nat> := None;
      var remainingVolume: Option<nat> := None;
      var t := input.ticket;
      if input.eventType == PARTIAL_CLOSE && t in trades {
        var openVolume := trades[t].volume;
        if openVolume > 0 {
          closeFraction := Some(CloseFraction(openVolume, input.volume));
          remainingVolume := Some(Max(openVolume - input.volume, 0));
        }
      }
      if t in trades {
        var volume := if input.eventType == PARTIAL_CLOSE then remainingVolume.GetOr(input.volume) else input.volume;
        var trade := trades[t].(volume := volume, sl := input.sl, tp := input.tp);
        if input.eventType == CLOSE {
          trade := trade.(status := CLOSED, closePrice := Some(input.price));
          if input.profit.Some? {
            trade := trade.(profit := input.profit);
          }
        }
        if input.eventType == PARTIAL_CLOSE {
          trade := trade.(status := PARTIALLY_CLOSED);
        }
        trades := trades[t := trade];
      } else {
        var status := if input.eventType == PENDING_ORDER then PENDING else OPENED;
        trades := trades[t := MasterTrade(input.symbol, input.orderType, input.volume, input.price, input.sl, input.tp,
                                          status, None, None)];
      }
      if HasEvent(events, input.eventId) {
        return false;
      }
      events := events + [TradeEvent(input.eventId, strategy, input.eventType, t, input.symbol, input.orderType,
                                     input.volume, input.price, input.sl, input.tp, input.masterBalance,
                                         closeFraction)];
      inserted := true;
    }

    method IngestMasterEvent(input: MasterInput, nonceUp: bool) returns (status: IngestStatus)
      modifies this`trades, this`events, this`nonces, this`jobs
      ensures (View(), status) == Ingest(old(View()), active, input, nonceUp)
    {
      var claimed := ClaimNonce(input.eventId, nonceUp);
      if !claimed {
        assert nonces == old(nonces);
        return DUPLICATE;
      }
      assert View() == (if nonceUp then old(View()).(nonces := old(nonces) + {input.eventId}) else old(View()));
      var inserted := StoreEvent(input);
      if !active {
        return if inserted then IGNORED else THROWN;
      }
      if !inserted {
        return DUPLICATE;
      }
      jobs := jobs + {input.eventId};
      status := QUEUED;
    }

    method PublishChange(context: PollContext, change: Change, nonceUp: bool) returns (published: bool)
      requires context.active == active
      modifies this`trades, this`events, this`nonces, this`jobs
      ensures (View(), published) == Publish(old(View()), context, change, nonceUp)
    {
      var status := IngestMasterEvent(InputFor(change, context.balance), nonceUp);
      published := status == QUEUED;
    }

    method RecordBaseline(positions: seq<LivePosition>)
      modifies this`trades
      ensures View() == Baseline(old(View()), positions)
    {
      for i := 0 to |positions|
        invariant View() == Baseline(old(View()), positions[..i])
      {
        assert positions[..i + 1][..i] == positions[..i];
        var p := positions[i];
        if p.ticket !in trades {
          trades := trades[p.ticket :=
                           MasterTrade(p.symbol, p.orderType, p.volume, p.openPrice, p.sl, p.tp, OPENED, None, None)];
        }
      }
      assert positions[..|positions|] == positions;
    }

    method WatchPosition(result: WatchResult, known: map<Ticket, MasterTrade>, p: LivePosition, context: PollContext,
                         nonceUp: bool)
      returns (r: WatchResult)
      requires context.active == active
      modifies this`trades, this`events, this`nonces, this`jobs
      ensures (View(), r) == PollPosition(old(View()), result, known, p, context, nonceUp)
    {
      r := result;
      if p.ticket !in known {
        var published := PublishChange(context, Change(OPEN, p.ticket, p.symbol, p.orderType, p.volume, p.openPrice,
                                                       p.sl, p.tp, None, OpenedAt(p.volume, p.openPrice)), nonceUp);
        return r.(opens := r.opens + if published then 1 else 0);
      }
      var previous := known[p.ticket];
      if previous.volume > p.volume {
        var published := PublishChange(context, Change(PARTIAL_CLOSE, p.ticket, p.symbol, p.orderType,
                                                       previous.volume - p.volume, p.currentPrice, p.sl, p.tp, None,
                                                       VolumeChange(previous.volume, p.volume)), nonceUp);
        return r.(partiallyClosed := r.partiallyClosed + if published then 1 else 0);
      }
      if p.volume > previous.volume {
        return r.(skipped := r.skipped + 1);
      }
      var slChanged := Abs(previous.sl.GetOr(0) - p.sl.GetOr(0)) > PRICE_EPSILON;
      var tpChanged := Abs(previous.tp.GetOr(0) - p.tp.GetOr(0)) > PRICE_EPSILON;
      if slChanged || tpChanged {
        var published := PublishChange(context,
                                       Change(MODIFY, p.ticket, p.symbol, p.orderType, p.volume, p.currentPrice,
                                                       p.sl, p.tp, None, Stops(p.sl.GetOr(0), p.tp.GetOr(0))), nonceUp);
        return r.(modified := r.modified + if published then 1 else 0);
      }
    }

    /** Publishes a close for every known trade the broker no longer reports. */
    method WatchVanished(result: WatchResult, known: map<Ticket, MasterTrade>, order: seq<Ticket>, live: set<Ticket>,
                         context: PollContext, nonceUp: bool) returns (r: WatchResult)
      requires context.active == active
      requires forall t :: t in order ==> t in known
      modifies this`trades, this`events, this`nonces, this`jobs
      ensures (View(), r) == PollVanished(old(View()), result, known, order, live, context, nonceUp)
    {
      r := result;
      for i := 0 to |order|
        invariant (View(), r) == PollVanished(old(View()), result, known, order[..i], live, context, nonceUp)
      {
        assert order[..i + 1][..i] == order[..i];
        var t := order[i];
        if t !in live {
          var record := if t in context.closes then Some(context.closes[t]) else None;
          var published := PublishChange(context, CloseChange(t, known[t], record), nonceUp);
          if published {
            r := r.(closed := r.closed + 1);
          }
        }
      }
      assert order[..|order|] == order;
    }

    /**
     * One poll. `positions` is the broker's snapshot, `None` when the account
     * cannot be reached; `order` is the answer to the query for open trades.
     */
    method PollMasterAccount(positions: Option<seq<LivePosition>>, order: seq<Ticket>, context: PollContext,
                             nonceUp: bool)
      returns (r: WatchResult)
      requires context.active == active && Lists(order, KnownPositions(View()))
      modifies this`watching, this`trades, this`events, this`nonces, this`jobs
      ensures positions.None? ==> View() == old(View()) && watching == old(watching) && r == EMPTY
      ensures positions.Some? && !old(watching) ==>
                View() == Baseline(old(View()), positions.value) && watching && r == EMPTY.(baseline := true)
      ensures positions.Some? && old(watching) ==>
                (View(), r) == Poll(old(View()), positions.value, order, context, nonceUp) && watching
      ensures positions.Some? && old(watching) && nonceUp && T.EventsClaimed(old(View()))
              && DistinctPositions(positions.value) ==>
                E.OpensAnnounced(old(View()), View(), positions.value, context)
    {
      if positions.None? {
        return EMPTY;
      }
      if !watching {
        RecordBaseline(positions.value);
        watching := true;
        return EMPTY.(baseline := true);
      }
      var known := KnownPositions(View());
      var live := LiveTickets(positions.value);
      r := EMPTY;
      for i := 0 to |positions.value|
        invariant watching
        invariant (View(), r) == PollLive(old(View()), known, positions.value[..i], context, nonceUp)
      {
        assert positions.value[..i + 1][..i] == positions.value[..i];
        r := WatchPosition(r, known, positions.value[i], context, nonceUp);
      }
      assert positions.value[..|positions.value|] == positions.value;
      r := WatchVanished(r, known, order, live, context, nonceUp);
      if nonceUp && T.EventsClaimed(old(View())) && DistinctPositions(positions.value) {
        E.PollAnnouncesOpens(old(View()), positions.value, order, context);
      }
    }
  }
}
