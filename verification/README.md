# Copy trading, verified

A Dafny model of the path from a change on a master's trading account to a
position on a member's account: the account watcher, the recording of master
events, position sizing and risk, the copy engine, the simulated broker, the
reconcile sweep, the trade history page and the marketplace figures.
`dafny verify dfyconfig.toml` checks all of it.

## How it is modelled

Services that write tables and brokers that change accounts are classes
(`CopyPlatform`, `MasterStrategy`, `MockTradingProvider`) whose methods update
fields step by step, loops included. Each is proved equal to a function on
values, and the theorems are about those functions: over single steps, over
whole runs, over concurrent interleavings, and from the master's snapshots to
the member's positions.

- Volumes are hundredths of a lot, prices 1e-5, money cents, percentages 1e-4,
  close fractions millionths, sizing limits 1e-4 lot; the size before rounding
  and the equity curve are exact reals. `toFixed` is rounding to the nearest
  unit.
- Tickets and row ids are numbers, handed out upwards. The hash in a derived
  event id is injective.
- A table with a unique index is a map; inserting is test-and-set. The mapping
  table is unique per (account, master ticket), so one account holds a map from
  master tickets; a copy row is unique per (event, account).
- Prices, the clock, the trading day, the broker's equity figure, the rows a
  query with a limit returns and their order are inputs of each step, unrestricted
  except for what the query itself promises.

| file | content |
|---|---|
| `Common`, `TradeTypes` | stock types, rounding, the platform's vocabulary |
| `LotCalculator`, `RiskEngine`, `OrderSizing` | sizing, the pre-trade decision, and that what they let through can be filled |
| `CopyDecisions` | which OPEN events are sent and with what volume, on the fields of settings, limits, account and event |
| `MockBroker`, `BrokerLedger`, `MT5Ledger`, `EarnedProfit`, `ClosingProfit` | the simulated broker, conservation of volume and money over its runs, and what a close earns |
| `MemberModel`, `MemberAgreement`, `CopyEffects` | one event copied to one account: what it does, and that store and broker stay in agreement |
| `ReconcileModel`, `MemberRuns`, `SweepRaces` | the sweep, everything that holds over sequential runs, and a sweep racing with copies |
| `CopyService` | the copy engine and the sweep as stateful services |
| `CopyLedger` | the broker's books over copying runs, and what a mapping's profit is worth |
| `CopyWorkers`, `CopyTightness` | concurrent workers, one atomic step per database or broker call, and bounds that are reached |
| `FeedModel`, `Tracking` | recording master events, and how the member's volume follows the master's |
| `WatchModel`, `WatchTheorems`, `WatchEvents`, `WatchRuns`, `MasterService` | the account watcher: one poll, what it publishes, many polls, and the services |
| `MasterToMember`, `FollowThrough` | watcher and copy engine together, and whether holdings follow the master's |
| `StrategyStats` | the equity curve and its drawdown |
| `NewestFirst`, `DealHistory`, `TradeContents`, `TradeHistory` | stable sorting, trades from deals, what they say, the history page |

## What the code does not do

Each of these is a lemma here, together with the condition that decides it.

- A crash after the row insert loses the copy for good: the lookup meant to
  recover it searches for a row id created in the same call
  (`CrashAfterInsertLosesTheCopy`, `RecoveryNeverFires`).
- Exposure limits hold exactly only with one copy in flight per account; the
  worker runs five, and every excess the bound allows is reached
  (`ExposureBound`, `TradesBoundReached`, `VolumeBoundReached`).
- A CLOSE copied ahead of its OPEN is skipped for good, and the member keeps a
  position the master no longer has (`HoldingsFollowMaster`).
- An OPEN on a master ticket whose position is still held orphans that position
  (`OpenKeepsAgreementIff`). One watched master cannot cause it
  (`MasterToMember`), but two strategies followed by one account can, because
  mappings are keyed by master ticket without the strategy.
- A partial close by the member's own hand breaks the agreement on both
  platforms, and no sweep repairs it (`OutsideCloseTrackedIff`,
  `SweepRestoresSyncIff`).
- A sweep asks the broker first and the store later; a position opened or split
  in between is marked closed while live (`RacedSweepIff`). A write delayed past
  a re-OPEN does the same (`CloseWriteTrackedIff`, `HarmlessUnlessReopened`).
- A mapping whose partial close takes all its volume stays PARTIALLY_CLOSED, with
  no volume and no live position, until a sweep; a CLOSE before that fails
  (`PartialCloseFollows`, `AdjustOutcome`, `SweepRestoresSyncIff`).
- The profit written to a mapping is that of the last close alone; it is what
  the position earned exactly when the earlier closes net to nothing
  (`CloseBooksTheResult`, `ProfitIsWhatWasEarnedIff`). On MT5 the record of an
  earlier partial close is overwritten, and with it volume and profit are lost
  (`MT5ConservationIff`, `BalanceIsOnRecordIff`, `FirstProfitIsLost`).
- An MT5 position still open after a partial close shows as finished on the
  history page, and on both platforms so does one whose mapping was closed and
  re-opened, because the old close time stays (`OpenRowIff`,
  `MT4LivePositionsShowOpenIff`). Such a re-OPEN also drops the former current
  ticket from every chain, so its row names no strategy (`ReopeningDropsTicket`).
- The deal history sees a window of the deals and drops those without a symbol;
  the lookup of one position counts all of them (`ProfitAgreesIff`,
  `EntryBeforeWindow`, `DirectionSurvivesWindowIff`).
- A reached loss limit pauses nothing while a trade limit is also reached
  (`DecisionMeaning`).
- Without the nonce store a redelivered event is written over the recorded trade
  again: a partial close shrinks it twice, an OPEN after a partial close restores
  its full size (`RedeliveryWithoutNonceIff`, `RedeliveredOpenRestoresVolume`).
- A stop change is announced exactly when the volume is as recorded and its id is
  unused (`StopsAnnouncedIff`). One back to an earlier pair reuses an id and is
  dropped (`ReturningStopsAreDropped`, `OnlyStopChangesCanBeDropped`,
  `PollPatchesIff`); one seen with a partial close is recorded but not published
  (`PartialCloseHidesStops`); and while a position holds more than is recorded,
  nothing about it is published at all (`RisenStaysSilent`).
- `roundToStep` rounds toward less exposure, as its comment says, only for a
  positive step (`RoundsDownIffStep`); the engine never passes another
  (`EngineRoundsDown`).
- Minimum-lot rounding exceeds the member's maximum exactly when the broker's
  minimum does (`AcceptedWithinMemberMaximumIff`); either minimum can break the
  risk-percent bound (`RiskPercentLossBoundIff`, with an input in
  `MemberMinimumBreaksLossBound`).
- On an equity curve that goes below zero the drawdown passes 100 percent and
  need not be the deepest fall (`WithinHundredIff`, `DrawdownIsDeepestIff`, with
  such a curve in `NegativeCurveBreaksTheMeaning`).

## Model

| member | source | states |
|---|---|---|
| `MasterToMember.MasterToMember` | `src/services/master-watch.service.ts:120-276` | Whatever the watcher publishes over any run of polls, with the nonce store up, down or forgetting, copied to a hedging account in any order and with repetitions, between sweeps, restarts and closes of whole positions at the broker, never orphans a position, claims one twice or mistakes a volume; and unless something was closed at the broker itself since the last sweep, the mappings holding volume are exactly the live positions |
| `MasterToMember.WatcherOpensOnce` | `src/services/master-watch.service.ts:166-185` | Over every run of polls at a broker that never reuses tickets, with the nonce store up, down or forgetting, no two published events open the same master ticket |
| `FollowThrough.HoldingsFollowMaster` | `src/services/copy-engine.service.ts:374-382` | A watched position opened and closed by the master, its OPEN executed and both events copied, in a run with any other copies, sweeps and whole closes: the member holds nothing of it if the close was copied after the OPEN; and if nothing else ended the position, only then |
| `FollowThrough.HoldingsFollowIff` | `src/services/copy-engine.service.ts:374-382` | The same of any events that open and close a master ticket once |
| `MasterToMember.CopiesAreSafe` | `src/services/copy-engine.service.ts:137-217` | Copying events that open each ticket once, in any order and any number of times, never meets an OPEN whose master ticket is still held |
| `MemberRuns.RunsStayInAgreement` | `src/services/copy-engine.service.ts:137-550` | Over every sequential run of copies, sweeps, closes of whole positions at the broker and restarts on a hedging account in which no new OPEN reuses a master ticket still held: no live position is orphaned or claimed twice and volumes agree; full agreement whenever nothing closed at the broker since the last sweep |
| `MemberRuns.RunsFromScratchAgree` | `src/services/copy-engine.service.ts:137-550` | The same from an account nobody has copied to or traded on |
| `MemberAgreement.OutsideCloseTrackedIff` | `src/services/reconcile.service.ts:15-23` | A close at the broker itself keeps the agreement if and only if it closes the whole position or nothing: a partial one leaves an unclaimed remainder on MT4 and a wrong volume on MT5 |
| `MemberRuns.TicketChains` | `src/services/copy-engine.service.ts:427-438` | On every run, each mapping's former tickets and its current one are pairwise different, all former ones are closed at the broker, and no ticket belongs to two mappings |
| `MemberModel.ExecutesIff` | `src/services/copy-engine.service.ts:220-364` | An OPEN not seen before succeeds if and only if, before the copy, settings exist, the symbol is traded, sizing accepts, the risk check allows and the volume is inside the symbol's limits (or its order is found already placed) |
| `CopyDecisions.OpenIsSentIff` | `src/services/copy-engine.service.ts:228-322` | An OPEN not seen before is sent with volume v if and only if: the settings size it at v; the account was not stopped today; copyBuy holds for the three buy kinds, copySell for the three sell kinds, copyPendingOrders for pending ones; the symbol is allowed; one more live position, v, and v on top of the live volume are within the trade limits; and equity has not lost the daily amount, the daily percentage (since today's start) or the drawdown (since the peak). When only the loss limits are in its way, the subscription is paused if the profile says so |
| `CopyDecisions.SkippedOpenSaysWhy` | `src/services/copy-engine.service.ts:228-311` | The row of an OPEN that is not sent carries the reason: none without settings, INVALID_SYMBOL, INVALID_VOLUME when the settings size nothing, SKIPPED_BY_SETTINGS when the member does not want it, RISK_LIMIT_REACHED otherwise |
| `CopyDecisions.SizedMeaning` | `src/services/copy-engine.service.ts:249-280` | In every mode, the engine's sizing accepts exactly the lot that the asked size comes to between the limits: the fixed lot; volume times multiplier; size / master balance = volume * balance * ratio; or the size whose loss at the master's stop is the chosen share of member equity |
| `CopyDecisions.FixedLotIsSized` | `src/services/copy-engine.service.ts:251-277` | With a fixed lot the master's volume does not matter: the fixed lot clamped to all limits, down to whole steps, or the broker's minimum where the member allows rounding |
| `MemberRuns.CopyKeepsResultIff` | `src/services/copy-engine.service.ts:509-526` | A copy leaves a recorded result alone if and only if it is not an unseen OPEN of the same master ticket that settings, symbol, sizing and risk let through |
| `MemberRuns.ResultsArePermanent` | `src/services/reconcile.service.ts:42-114` | Across any sequence of copies and sweeps a realised profit is never changed or erased and its mapping never reopens, as long as its master ticket is not opened again |
| `MemberRuns.BreachLock` | `src/services/copy-engine.service.ts:282-311` | After a breach, whatever runs, no OPEN or pending order of any subscription reaches the broker for the rest of that trading day, even if the member restarts copying; on hedging and netting accounts |
| `MemberRuns.OnlyAnotherDayUnlocks` | `src/services/copy-engine.service.ts:578-596` | The lock is lifted by nothing but an OPEN copied on another trading day |
| `MemberRuns.BreachLocks` | `src/services/copy-engine.service.ts:306-311` | When a copy takes a subscription out of copying, the whole account is locked for that day and no order went out |
| `MemberRuns.DayStartIsKept` | `src/services/copy-engine.service.ts:565-603` | Within one trading day, over every run, every loss check measures from the same starting equity, and a recorded breach stays recorded |
| `MemberRuns.DayStartsFromEquity` | `src/services/copy-engine.service.ts:568-596` | A new trading day starts from the account's equity at its first checked OPEN |
| `MemberAgreement.InSyncMeaning` | `src/services/copy-engine.service.ts:508-526` | What agreement means: live positions are exactly the current tickets of the mappings holding volume, one mapping each, equal volumes |
| `MemberAgreement.CopyTracked` | `src/services/copy-engine.service.ts:137-217` | Copying any event keeps store and broker in agreement, unless a new OPEN reuses a master ticket still held |
| `MemberAgreement.OpenKeepsAgreementIff` | `src/services/copy-engine.service.ts:509-526` | An unseen OPEN leaves an agreeing state if and only if its master ticket held nothing, or settings, symbol, sizing or risk stop it: otherwise the earlier position is orphaned |
| `MemberAgreement.AdjustTracked` | `src/services/copy-engine.service.ts:367-484` | MODIFY, PARTIAL_CLOSE, CLOSE and DELETE_PENDING keep the agreement, on MT4 and MT5, whether the broker executes or refuses |
| `MemberAgreement.SplitTracked` | `src/services/copy-engine.service.ts:427-438` | The MT4 remap follows the remainder to its new ticket and keeps the superseded one in the history |
| `MemberAgreement.ShrinkTracked` | `src/services/copy-engine.service.ts:445-452` | The MT5 partial close keeps the ticket and reduces both volumes alike |
| `MemberAgreement.FullCloseTracked` | `src/services/copy-engine.service.ts:453-471` | A close of the whole position leaves no live position behind a mapping that holds nothing |
| `MemberAgreement.RecoveryNeverFires` | `src/services/copy-engine.service.ts:232-249` | The lookup for an order that already landed never finds one: no earlier order can carry the row id created in the same call |
| `MemberAgreement.OpenReduces` | `src/services/copy-engine.service.ts:220-364` | An OPEN either reaches the broker once, under its row id, from unchanged mappings, or changes neither |
| `MemberAgreement.CopyComments` | `src/services/copy-engine.service.ts:313-323` | Row ids on broker positions stay below every row id still to be created |
| `CopyEffects.RowTellsOutcome` | `src/services/copy-engine.service.ts:137-217` | A copy always ends with its row telling the outcome, touches no other row or mapping, and a failed or skipped one has changed nothing at the broker and no mapping |
| `CopyEffects.OpenMirrorsMaster` | `src/services/copy-engine.service.ts:313-363` | A copied OPEN leaves one new live position of the master's kind, carrying exactly the stops the member copies, and a mapping and row with its ticket and volume |
| `CopyEffects.OpenFillsItsRow` | `src/services/copy-engine.service.ts:313-364` | The row of an OPEN: one attempt and the sent volume if an order went out, with its ticket or the broker's reason; otherwise skipped with no attempt, ticket or volume |
| `CopyEffects.AdjustmentFillsItsRow` | `src/services/copy-engine.service.ts:367-486` | The row of an adjustment: skipped without an open mapping; otherwise one attempt on the mapping's ticket with the closed volume, or the reason it failed |
| `CopyEffects.LandedOrderIsRecorded` | `src/services/copy-engine.service.ts:233-247` | If a live position carries the row id, the copy is recorded as filled by it and nothing is sent |
| `CopyEffects.ModifyMirrorsMaster` | `src/services/copy-engine.service.ts:386-392` | A copied MODIFY moves exactly the stops the member copies and the master has set, and nothing else |
| `CopyEffects.AdjustOutcome` | `src/services/copy-engine.service.ts:374-425` | An adjustment is skipped exactly without an open mapping, fails exactly when that mapping's ticket is no longer live (also after a partial close emptied it), and succeeds otherwise |
| `CopyEffects.CloseBooksTheResult` | `src/services/copy-engine.service.ts:453-476` | A copied CLOSE ends the whole position, and the mapping's profit is what that one close moved the balance by |
| `CopyEffects.ReopeningDropsTicket` | `src/services/copy-engine.service.ts:509-512` | An OPEN executed over a mapping that holds nothing keeps its close time and profit, and drops its former current ticket from every chain |
| `CopyLedger.ProfitIsWhatWasEarnedIff` | `src/services/copy-engine.service.ts:453-471` | Over every run from a fresh hedging account, a closed mapping's profit is what its whole chain of tickets earned if and only if the earlier closes, of former tickets and of overwritten records, net to nothing |
| `CopyLedger.MT4ProfitIsWhatWasEarnedIff` | `src/services/copy-engine.service.ts:427-471` | On MT4: the profit is the sum of the records along the chain if and only if those of the former tickets net to nothing |
| `CopyLedger.RunOnRecord` | `src/services/reconcile.service.ts:59-113` | Over every run, whether a copy or a sweep closed it, a closed mapping's profit is the one on record for its last ticket |
| `CopyLedger.RunIsOrders` | `src/services/copy-engine.service.ts:137-484` | Every copying run is a run of orders at the broker, so the ledger theorems hold of it |
| `CopyLedger.RunBalanceIsOnRecordIff` | `src/providers/trading/MockTradingProvider.ts:270-289` | Over every copying run on a fresh account, the balance is the initial one plus the profits on record if and only if the overwritten profits net to nothing |
| `CopyLedger.FirstProfitIsLost` | `src/providers/trading/MockTradingProvider.ts:276-318` | Two closes of one MT5 ticket: it earned 10 and 6 stays on record |
| `CopyEffects.PartialCloseFollows` | `src/services/copy-engine.service.ts:394-452` | A partial close takes the same volume off position and mapping; on MT4 the mapping moves to the remainder's ticket with its whole chain in the history |
| `CopyService.CopyPlatform.ProcessTradeEvent` | `src/services/copy-engine.service.ts:43-120` | Unknown event, already processed, or every eligible subscriber copied once in order and the event marked processed |
| `CopyService.CopyPlatform.CopyToSubscribers` | `src/services/copy-engine.service.ts:69-105` | The loop: every subscriber is copied once, in order, and counted |
| `CopyService.CopyPlatform.CopyToMember` | `src/services/copy-engine.service.ts:137-217` | The row is inserted first; an existing row stops the copy |
| `CopyService.EligibleSubscribers` | `src/services/copy-engine.service.ts:58-67` | The eligible subscribers are exactly the active, copying ones on connected accounts, on pairwise different accounts |
| `CopyService.FanOutIsPerAccount` | `src/services/copy-engine.service.ts:72-105` | Each subscriber ends exactly as if the event had been copied to it alone |
| `CopyService.SubscriberTradesOwnSymbol` | `src/services/copy-engine.service.ts:137-145` | A subscriber that had nothing on the master ticket and takes the OPEN ends with a live position on the symbol its own account trades under, at that symbol's price, and a mapping that says so |
| `CopyService.FanOutCounts` | `src/services/copy-engine.service.ts:72-98` | The counters are the numbers of subscribers whose stored row ends SUCCESS, FAILED or SKIPPED, an event already there counting as skipped and a missing account or session as failed |
| `CopyService.FanOutKeepsRowsFresh` | `src/services/copy-engine.service.ts:150-176` | Over a whole fan-out every order carries a row id below all those still to be created, at every broker |
| `CopyService.FanOutLeavesOthersAlone` | `src/services/copy-engine.service.ts:72-105` | Accounts outside the fan-out are untouched, and processed equals succeeded plus failed plus skipped |
| `CopyService.RetriedJobIsIdle` | `src/services/copy-engine.service.ts:147-179` | A retry of the whole job changes nothing, sends nothing and counts every subscriber as skipped |
| `CopyService.CopyPlatform.CloseVanishedMappings` | `src/services/reconcile.service.ts:44-73` | The loop over vanished mappings: exactly they are closed, with the broker's figures where it has them, and counted |
| `CopyService.CopyPlatform.BackfillResults` | `src/services/reconcile.service.ts:84-114` | The retry loop fills exactly the returned rows the broker knows |
| `CopyService.CopyPlatform.ReconcileAccount` | `src/services/reconcile.service.ts:24-159` | One sweep: unreachable accounts are left alone, otherwise vanished, backfill and account figures |
| `ReconcileModel.SweepClosesExactlyVanished` | `src/services/reconcile.service.ts:42-73` | A sweep closes exactly the open mappings whose ticket is not live and never reopens one |
| `ReconcileModel.SecondSweepOnlyFillsLeftovers` | `src/services/reconcile.service.ts:42-114` | On an unchanged broker a second sweep closes none and writes at most results the first one's limit of 20 left out |
| `ReconcileModel.SweepKeepsResults` | `src/services/reconcile.service.ts:84-114` | A sweep never changes a realised result; what it closes takes time, price, profit and reason from the broker's record, or only the time of the sweep without one; a returned row the broker knows is filled and keeps its close time |
| `ReconcileModel.RetryWithinADay` | `src/services/reconcile.service.ts:84-114` | A closed mapping without a result gets one only within 24 hours of its close, and within them goes without only if the broker has none or 20 at least as recent ones were asked about instead |
| `ReconcileModel.SweepTakesBrokerFigures` | `src/services/reconcile.service.ts:120-140` | A sweep takes balance, equity and the number of live positions from the broker and never lowers the peak |
| `MemberRuns.PeakIsHighWaterMark` | `src/services/reconcile.service.ts:120-140` | Over every run the stored equity is the last one reported, and the peak is the highest ever reported or at the start |
| `ReconcileModel.SweepRestoresSyncIff` | `src/services/reconcile.service.ts:24-73` | A sweep restores full agreement if and only if no position is orphaned or claimed twice and every live volume is right; it cannot repair those |
| `SweepRaces.RacedSweepIff` | `src/services/reconcile.service.ts:37-73` | Whatever copies, sweeps and closes run between the broker's answer and the closing pass taken as one step, the pass keeps the agreement if and only if nothing issued in between is still live |
| `SweepRaces.StepsStayInAgreement` | `src/services/reconcile.service.ts:46-73` | With the pass spread over single writes among copies, closes and other sweeps' writes, agreement is kept as long as each write is harmless |
| `SweepRaces.CloseWriteTrackedIff` | `src/services/reconcile.service.ts:63-72` | One closing write keeps the agreement if and only if the row's current ticket is not live |
| `SweepRaces.HarmlessUnlessReopened` | `src/services/reconcile.service.ts:46-72` | Whatever runs between query and write, the write of a row whose ticket had gone by the query is harmless unless an OPEN of that master ticket was copied in between |
| `SweepRaces.CloseWriteKeepsResultIff` | `src/services/reconcile.service.ts:63-72` | A closing write over a result already there keeps it if and only if it is the one on record for the ticket asked about |
| `SweepRaces.LateSweepTrackedIff` | `src/services/reconcile.service.ts:42-73` | From any agreeing state, closing by an earlier answer keeps the agreement exactly when that answer holds every live ticket |
| `SweepRaces.RunIsLater` | `src/providers/trading/MockTradingProvider.ts:263-319` | Over every run a live ticket was live before or was issued since |
| `CopyWorkers.AtMostOneOrder` | `src/services/copy-engine.service.ts:147-187` | For any number of workers, retries, duplicate jobs and crashes between any two steps, at most one order per event and account, and no two with one client id |
| `CopyWorkers.CrashAfterInsertLosesTheCopy` | `src/services/copy-engine.service.ts:147-179` | At most once, not exactly once: after a crash anywhere between the insert and the order, no later step of any worker sends that copy |
| `CopyWorkers.ExposureBound` | `src/services/risk/risk-engine.ts:79-104` | With at most k copies in flight, any interleaving from within the caps keeps open trades within maxOpenTrades + k - 1 and open volume within maxTotalLot + (k - 1) * maxLotPerTrade; k = 1 gives the exact caps; hedging or netting |
| `CopyWorkers.AloneIsTheEngine` | `src/services/copy-engine.service.ts:228-322` | A copy that runs through a slot with nothing in between sends its order exactly when the engine's conditions hold, and does to the broker what that order does |
| `CopyWorkers.StepBounded` | `src/services/copy-engine.service.ts:232-323` | Every single step keeps what is open plus what may still be sent within the bound |
| `CopyTightness.TradesBoundReached` | `src/workers/copy.worker.ts:13-30` | For every k and every caps, from every account one trade short of its maximum, a schedule with k copies in flight ends at exactly maxOpenTrades + k - 1 |
| `CopyTightness.VolumeBoundReached` | `src/workers/copy.worker.ts:13-30` | And from every account one largest order short of its total, at exactly maxTotalLot + (k - 1) * maxLotPerTrade |
| `CopyTightness.BoundsAreReached` | `src/workers/copy.worker.ts:13-30` | For every k such an account and schedule exist |
| `CopyTightness.AllGetThrough` | `src/services/risk/risk-engine.ts:79-104` | Copies that all look before any trades all get through |
| `CopyWorkers.CloseShrinksExposure` | `src/providers/trading/MockTradingProvider.ts:263-319` | No close, full, MT4 or MT5, raises the number of open trades or the open volume |
| `OrderSizing.SentOrdersFill` | `src/services/copy-engine.service.ts:256-364` | An OPEN that passes sizing and risk is never rejected by the broker, given limits that leave something to trade |
| `OrderSizing.OrderVolumeIsExact` | `src/services/copy-engine.service.ts:267-269` | With the merged account and symbol limits, an accepted size is whole hundredths inside the broker's range |
| `LotCalculator.RoundToStepIsGreatest` | `src/services/risk/lot-calculator.ts:41-45` | Rounding to a step gives the greatest multiple not above the volume plus the 1e-9 nudge |
| `LotCalculator.RoundsDownIffStep` | `src/services/risk/lot-calculator.ts:37-45` | Every volume is rounded toward less exposure if and only if the step is positive; otherwise the code rounds to nearest, against its comment |
| `OrderSizing.EngineRoundsDown` | `src/services/copy-engine.service.ts:267-269` | The engine's merged step is positive for every symbol, so it never rounds up |
| `LotCalculator.BalanceRatioIsProportional` | `src/services/risk/lot-calculator.ts:66-76` | The member takes the master's share of balance, times the ratio |
| `LotCalculator.BoundedIsNearest` | `src/services/risk/lot-calculator.ts:105-106` | Clamping takes the allowed size nearest to the raw one; the maximum wins over the minimum |
| `LotCalculator.AcceptedLotIsExact` | `src/services/risk/lot-calculator.ts:105-147` | Whatever size the mode asks for, when the broker fills anything of it the accepted lot is the greatest step multiple not above that size clamped, and lies in [brokerMin, min(maxLot, brokerMax)] |
| `LotCalculator.AcceptedLotMeaning` | `src/services/risk/lot-calculator.ts:55-147` | In every mode, the accepted lot is exactly what the asked size, told by cross-multiplication, comes to: its greatest fillable step multiple, or the broker's minimum where rounding is allowed and nothing fills |
| `LotCalculator.FixedLot` | `src/services/risk/lot-calculator.ts:58-60` | FIXED mode in closed form: refused when not positive, otherwise the fixed lot, clamped and rounded down to whole steps, whatever the master traded, or the broker's minimum or a refusal below it |
| `LotCalculator.MultiplierLot` | `src/services/risk/lot-calculator.ts:62-64` | MULTIPLIER mode accepts exactly the lot that masterVolume * multiplier, clamped, comes to |
| `LotCalculator.AcceptedTellsAdjustment` | `src/services/risk/lot-calculator.ts:105-148` | The reported raw volume is the asked size to the nearest point, and the clamped flag says that the lot is not that size, or that only the minimum filled |
| `LotCalculator.RefusedMeaning` | `src/services/risk/lot-calculator.ts:66-140` | The refusal code says exactly whether the master balance or the stop is missing, a positive size has nothing to fill it, or no positive size is asked for |
| `LotCalculator.AcceptedIff` | `src/services/risk/lot-calculator.ts:101-140` | A trade is taken if and only if the size is positive and minimum-lot rounding is on or some step multiple is fillable |
| `LotCalculator.AcceptedWithinMemberMaximumIff` | `src/services/risk/lot-calculator.ts:111-140` | An accepted lot exceeds the member's own maximum exactly when the broker's minimum does |
| `LotCalculator.AcceptedLotIsFillable` | `src/services/risk/lot-calculator.ts:105-147` | Every accepted lot is in the broker's range and a whole number of the broker's units |
| `LotCalculator.RiskPercentLossBoundIff` | `src/services/risk/lot-calculator.ts:78-140` | An accepted risk-percent trade loses at its stop at most the configured share of equity, plus the nudge, if and only if neither minimum-lot rounding nor the member's minimum, clamped and rounded down, lifts it above its raw size |
| `LotCalculator.RiskPercentLossBound` | `src/services/risk/lot-calculator.ts:78-94` | In particular when the raw size reaches the member's minimum and minimum-lot rounding did not fire |
| `LotCalculator.LotMonotone` | `src/services/risk/lot-calculator.ts:54-147` | In MULTIPLIER and BALANCE_RATIO modes a larger master trade never turns an accepted copy into a refused or smaller one |
| `RiskEngine.DecisionMeaning` | `src/services/risk/risk-engine.ts:46-143` | An order is allowed exactly when settings, trade limits and percentage loss limits all permit it; copying pauses exactly when a loss limit is reached by an order nothing else forbids |
| `RiskEngine.LessRiskStaysAllowed` | `src/services/risk/risk-engine.ts:79-143` | An allowed order stays allowed when it is smaller or the account holds less or is worth more |
| `MockBroker.MockTradingProvider.Open` | `src/providers/trading/MockTradingProvider.ts:201-249` | Unknown symbol, size limits, netting merge or a new ticket; nothing else of any account changes |
| `BrokerLedger.OrderPlaced` | `src/providers/trading/MockTradingProvider.ts:201-251` | An order of an allowed size joins, on a netting account, the oldest live position on its symbol when that is of the same kind, growing its volume and keeping its value up to half a quoted digit per lot; otherwise it gets a new ticket at the current price with its own stops; nothing else changes, and the fill reports price and requested volume |
| `MockBroker.MockTradingProvider.Modify` | `src/providers/trading/MockTradingProvider.ts:251-261` | Present stops replace the old ones, absent ones keep them |
| `MockBroker.MockTradingProvider.Close` | `src/providers/trading/MockTradingProvider.ts:263-319` | Booking, full close, MT4 remainder ticket or MT5 reduction; the balance moves by what the closed volume earned in the position's direction, to the nearest cent |
| `ClosingProfit.CloseEarnsMove` | `src/providers/trading/MockTradingProvider.ts:263-288` | Every close of a live position, whole or partial, moves the balance by, and puts on record, the nearest cent to (price - openPrice) * closed volume * lot size for BUY, BUY_LIMIT and BUY_STOP and to (openPrice - price) * closed volume * lot size for the sell kinds, with each symbol's lot size; no other record changes |
| `ClosingProfit.RunsKeepKnownSymbols` | `src/providers/trading/MockTradingProvider.ts:185-232` | Over every run of orders all positions stay of the six symbols that have a lot size |
| `ClosingProfit.CopiedCloseEarnsMove` | `src/services/copy-engine.service.ts:453-476` | The profit a copied CLOSE writes to its mapping is what the whole position earned in its direction, to the cent, and the balance moved by it |
| `ClosingProfit.CopiedPartialCloseEarnsMove` | `src/services/copy-engine.service.ts:399-412` | A copied partial close books what the master's fraction of the mapping's volume, to the nearest hundredth and at least one, earned |
| `ClosingProfit.CopiedOpenHolds` | `src/services/copy-engine.service.ts:313-364` | A copied OPEN is held in the event's direction and symbol, with the volume on its row, from the price at which it was copied |
| `ClosingProfit.CloseOfHolding` | `src/services/copy-engine.service.ts:367-486` | The CLOSE of a held copy always executes and books the move from that entry price to the price at the close |
| `BrokerLedger.MergeKeepsValue` | `src/providers/trading/MockTradingProvider.ts:216-229` | A netting merge adds the volumes and keeps price times volume, up to half a quoted unit |
| `BrokerLedger.MT4Conservation` | `src/providers/trading/MockTradingProvider.ts:231-310` | Over every run on a fresh MT4 account: balance is the initial one plus every recorded profit, tickets are issued upwards, and opened volume equals live plus recorded closed volume along every chain exactly when no close asks for more than its ticket holds |
| `BrokerLedger.OrderBalances` | `src/providers/trading/MockTradingProvider.ts:201-319` | Every order keeps the books balanced, over-closing included as a booked excess |
| `BrokerLedger.CloseRecordsAreFinal` | `src/providers/trading/MockTradingProvider.ts:276-291` | Every MT4 ticket is closed at most once: its record, once written, never changes and it never lives again |
| `EarnedProfit.BalanceIsOnRecordIff` | `src/providers/trading/MockTradingProvider.ts:270-289` | Over every run on a fresh account, on either platform, hedging or netting: the balance is the initial one plus the recorded profits if and only if the overwritten profits net to nothing |
| `EarnedProfit.EarnedIsOnRecord` | `src/providers/trading/MockTradingProvider.ts:270-289` | Over every run, what a ticket earned is on record or was overwritten |
| `EarnedProfit.MT4LosesNothing` | `src/providers/trading/MockTradingProvider.ts:276-291` | On MT4 no profit is ever overwritten |
| `MT5Ledger.MT5ConservationIff` | `src/providers/trading/MockTradingProvider.ts:263-318` | Over every run on a fresh MT5 account that closes no more than a ticket holds, opened volume equals live plus recorded closed volume if and only if no executed close hit a ticket already having a close on record |
| `MT5Ledger.RunAccounts` | `src/providers/trading/MockTradingProvider.ts:201-319` | Over every MT5 run, over-closes included: live plus recorded volume is opened plus over-closed less overwritten |
| `MT5Ledger.CloseKeepsIff` | `src/providers/trading/MockTradingProvider.ts:276-318` | One MT5 close within the volume keeps live plus recorded volume exactly when nothing was on record yet |
| `FeedModel.CloseFraction` | `src/services/master-event.service.ts:170-176` | The stored fraction never exceeds one |
| `FeedModel.ReplayIsNoOp` | `src/services/master-event.service.ts:102-150` | While the nonce store answers, any delivery sequence with repetitions leaves exactly what the first deliveries leave: trades, events, nonces and jobs |
| `FeedModel.IngestReports` | `src/services/master-event.service.ts:107-149` | An event is stored if and only if its id is neither claimed (while the nonce store answers) nor stored; it is then one more event that says field by field what the master sent, with the closed share of the recorded volume for a partial close of one; the status says which case it was, and a job is queued exactly for a stored event of an active strategy |
| `FeedModel.IngestRecords` | `src/services/master-event.service.ts:180-211` | A new ticket is recorded as sent; a known one keeps what it was opened as and takes stops, volume, status and close figures from the event |
| `FeedModel.DeliveredIsClaimed` | `src/lib/rate-limit.ts:44-54` | Every delivered event id is claimed |
| `FeedModel.RedeliveryWithoutNonceIff` | `src/services/master-event.service.ts:160-237` | Without the nonce store, a redelivery at any later time adds no event and no job, and leaves the trades alone if and only if the record already says what it says: ticket known, same stops and volume, and for a partial close or close the status, price and profit it would write |
| `FeedModel.ImmediateRedeliveryIff` | `src/services/master-event.service.ts:160-237` | Straight after the first delivery that is every event but a partial close and the close of an unrecorded ticket |
| `FeedModel.RedeliveredOpenRestoresVolume` | `src/services/master-event.service.ts:182-186` | An OPEN delivered again after a partial close puts the recorded volume back to its full size |
| `Tracking.TrackingBound` | `src/services/copy-engine.service.ts:394-452` | After k in-order partial closes the member's share of its opening volume is within k hundredths of the master's, through the six-decimal fraction, two-decimal rounding and the 0.01 floor; it never goes negative |
| `Tracking.FollowStep` | `src/services/master-event.service.ts:167-184` | One partial close from ingest to the broker: the recorded and the mapped volume after it, still in agreement |
| `Tracking.CloseIsProportional` | `src/services/copy-engine.service.ts:399-402` | One proportional close is within a hundredth of the exact one |
| `MasterService.MasterStrategy.IngestMasterEvent` | `src/services/master-event.service.ts:102-150` | Duplicate, ignored, queued or failed, and what each leaves stored |
| `MasterService.MasterStrategy.PollMasterAccount` | `src/services/master-watch.service.ts:120-276` | One poll: unreachable, baseline, or the two passes over live and known positions with their counters; every new position of the snapshot is announced as an OPEN at its opening price |
| `WatchEvents.PollAnnouncesOpen` | `src/services/master-watch.service.ts:166-187` | A poll adds exactly one event for a position with no open record and an unclaimed id: OPEN with the position's symbol, kind, volume, opening price, stops and the master's balance; the new record says the same |
| `WatchEvents.PollAnnouncesPartialClose` | `src/services/master-watch.service.ts:192-212` | A smaller position adds one PARTIAL_CLOSE of the missing volume at the current price, with its share of the recorded volume, and the record shrinks to the position |
| `WatchEvents.PollAnnouncesModify` | `src/services/master-watch.service.ts:226-243` | Other stops at the recorded volume add one MODIFY with the position's symbol, kind, volume, current price and stops, and are recorded |
| `WatchEvents.PollAnnouncesClose` | `src/services/master-watch.service.ts:246-266` | A recorded trade that left adds one CLOSE with its recorded symbol, kind and volume at the broker's closing price (0 without a record), and is recorded closed with the broker's price and profit |
| `WatchEvents.PollIsSilent` | `src/services/master-watch.service.ts:214-227` | A position as recorded (stops within 1e-5), or a larger one, adds no event and leaves its record |
| `WatchEvents.PollCounts` | `src/services/master-watch.service.ts:166-267` | For an active strategy the counters of a poll are the numbers of events of each kind it added to the log, whether or not the nonce store answers |
| `WatchEvents.BaselineRecords` | `src/services/master-watch.service.ts:85-104` | The first poll records each position as it is, unless its ticket is on record, and changes nothing else |
| `WatchEvents.PollQueues` | `src/services/master-event.service.ts:122-125` | Every event a poll stores for an active strategy has a job, whether or not the nonce store answers |
| `MasterService.MasterStrategy.RecordBaseline` | `src/services/master-watch.service.ts:85-104` | The baseline loop records unseen positions and publishes nothing |
| `MasterService.MasterStrategy.WatchVanished` | `src/services/master-watch.service.ts:246-267` | The second pass over known trades that left the broker |
| `WatchTheorems.PollIsPointwise` | `src/services/master-watch.service.ts:155-267` | After a poll each ticket's record, claimed ids and log depend on its own state and position alone |
| `WatchTheorems.TicketMatchesIffPatchable` | `src/services/master-watch.service.ts:166-267` | A poll brings one ticket's record in line exactly when its volume did not rise, its derived id is unclaimed and it is not recorded as ended |
| `WatchTheorems.PollPatchesIff` | `src/services/master-watch.service.ts:155-267` | While the nonce store answers, a poll turns the recorded open trades into the live snapshot exactly when every ticket is patchable; a ticket whose volume rose stays as it was |
| `WatchTheorems.RisesAreCounted` | `src/services/master-watch.service.ts:211-224` | The skipped counter is exactly the number of positions whose volume rose |
| `WatchTheorems.VanishedIsRecorded` | `src/services/master-watch.service.ts:246-266` | A trade that left the broker is recorded closed with the broker's price and profit, and published as a full close |
| `WatchTheorems.ReturningStopsAreDropped` | `src/services/master-watch.service.ts:226-243` | Stops that move from one pair to another and back: the return reuses the first pair's id, is dropped, and the record keeps the second pair |
| `WatchTheorems.StopsAnnouncedIff` | `src/services/master-watch.service.ts:190-243` | A poll that finds other stops announces them if and only if the volume is as recorded and the pair's id is unused |
| `WatchTheorems.RisenStaysSilent` | `src/services/master-watch.service.ts:211-224` | As long as a position holds more than is recorded, no run of polls publishes or records anything of it, its stops and partial closes included |
| `WatchTheorems.PartialCloseHidesStops` | `src/services/master-watch.service.ts:190-209` | A stop change seen with a partial close is recorded, and as long as the position keeps those stops no run of later polls publishes it |
| `WatchTheorems.PollingAgainIsIdle` | `src/services/master-watch.service.ts:120-276` | From any state, while the nonce store answers, polling the same snapshot again publishes and changes nothing |
| `WatchRuns.PollPolls` | `src/services/master-watch.service.ts:155-267` | With the nonce store up, down or forgetting, a poll either absorbs a ticket's change, or, if its id was used, drops it or records it without publishing it again |
| `WatchRuns.TicketPollKeeps` | `src/services/master-watch.service.ts:166-267` | Every such poll keeps a ticket's log in the grammar, its volume accounted for and its recorded volume from rising |
| `WatchRuns.OnlyStopChangesCanBeDropped` | `src/services/master-watch.service.ts:66-69` | The only change a poll can find whose id was already used is a stop change |
| `WatchRuns.PublishedLogs` | `src/services/master-watch.service.ts:85-267` | Over every run, with the nonce store up, down or forgetting: no event before a ticket is seen, and a trade is closed only after it left the broker |
| `WatchRuns.GrammarAndConservation` | `src/services/master-watch.service.ts:166-267` | On every such run each ticket's log is a prefix of OPEN (MODIFY or PARTIAL_CLOSE)* CLOSE, without OPEN for baseline tickets; on a finished log the opened volume equals the partial closes plus the CLOSE |
| `WatchRuns.IdsAreUnique` | `src/services/master-watch.service.ts:66-69` | Over every run no two stored events share an id |
| `WatchRuns.BaselineIsSilent` | `src/services/master-watch.service.ts:145-153` | Trading already in flight is not replayed: after the baseline, polling the same positions publishes, counts and changes nothing |
| `StrategyStats.EquityCurve` | `src/services/reconcile.service.ts:245-253` | The one-pass loop computes the final equity and the deepest fall from the running peak |
| `StrategyStats.RecomputeStrategyStats` | `src/services/reconcile.service.ts:229-276` | Win rate, return and drawdown to two decimals, beside the two counts; zero for no trades |
| `StrategyStats.CountWins` | `src/services/reconcile.service.ts:240-241` | Wins are the trades with positive profit |
| `StrategyStats.DrawdownIsAFall` | `src/services/reconcile.service.ts:249-253` | The figure is always reached between two moments of the curve |
| `StrategyStats.DrawdownMeaning` | `src/services/reconcile.service.ts:245-261` | On a curve that never goes negative it is the deepest fall between any two moments, in [0, 100], and at least the loss |
| `StrategyStats.WithinHundredIff` | `src/services/reconcile.service.ts:249-253` | The figure stays within 100 percent if and only if the curve never goes negative |
| `StrategyStats.FallIsDeepestIff` | `src/services/reconcile.service.ts:249-253` | At each moment the fall from the running peak is the deepest one ending there if and only if the curve is not negative there or every positive point before it was at the peak |
| `StrategyStats.DrawdownIsDeepestIff` | `src/services/reconcile.service.ts:249-253` | The figure is the deepest fall between any two moments if and only if every negative low, measured from the lowest positive point before it, is no deeper than some fall from the peak |
| `DealHistory.GroupByPosition` | `src/providers/trading/MetaApiProvider.ts:762-769` | The grouping loop: positions in first-deal order, each with exactly its deals |
| `DealHistory.GroupDealsIntoTrades` | `src/providers/trading/MetaApiProvider.ts:761-800` | The newest-first prefix of one trade per closed position |
| `TradeContents.TradeSaysItsDeals` | `src/providers/trading/MetaApiProvider.ts:773-846` | For every trade, on the list of deals: SELL if and only if the position's first entry deal sells, or it has none and its last exit does not sell; symbol, open price and time are the first entry's (or only the last exit's symbol); close price, time and reason are the last exit's, the reason by a written-out table |
| `TradeContents.TradeAddsUpItsDeals` | `src/providers/trading/MetaApiProvider.ts:780-795` | Commission, swap and net profit are totals over exactly the position's deals, the volume over its exits |
| `DealHistory.GroupsPartitionDeals` | `src/providers/trading/MetaApiProvider.ts:762-769` | Every eligible deal lands in exactly one group, once for each time it was reported, and nothing else does |
| `DealHistory.GroupKeepsOrder` | `src/providers/trading/MetaApiProvider.ts:762-769` | A group is the position's deals in the order they were reported |
| `DealHistory.PlacesAreAll` | `src/providers/trading/MetaApiProvider.ts:764-768` | No deal of a position is missed by its group |
| `DealHistory.OneTradePerClosedPosition` | `src/providers/trading/MetaApiProvider.ts:773-797` | A position gives a trade, exactly one, if and only if it has an exit deal |
| `DealHistory.GroupingConservesMoney` | `src/providers/trading/MetaApiProvider.ts:779-792` | The trades' profits add up to the profit, commission and swap of the deals of closed positions, to the cent |
| `DealHistory.TradesAgreeWithClosedPosition` | `src/providers/trading/MetaApiProvider.ts:559-578` | Each trade's profit, price, volume, time and reason are what getClosedPosition computes from the position's grouped deals, a volume of 0 being none |
| `DealHistory.ProfitAgreesIff` | `src/providers/trading/MetaApiProvider.ts:540-579` | The history sees a window of the deals, the lookup of a position all of them: a trade's profit is what the lookup says if and only if the position's deals outside the window, and those in it without a symbol, net to nothing |
| `DealHistory.NothingUnseenAgrees` | `src/providers/trading/MetaApiProvider.ts:540-579` | With nothing left out, the lookup agrees on everything |
| `DealHistory.EntryBeforeWindow` | `src/providers/trading/MetaApiProvider.ts:600-609` | An entry before the window that cost 7 and an exit inside it that made 50: the trade says 50, the lookup 43 |
| `DealHistory.DirectionSurvivesWindowIff` | `src/providers/trading/MetaApiProvider.ts:808-811` | A trade whose entry lies before the window opposes its last exit, the whole position follows its entry: they agree if and only if entry and last exit are on opposite sides |
| `DealHistory.OutputIsNewestPrefix` | `src/providers/trading/MetaApiProvider.ts:799` | The output is a permutation sorted newest first, ties in order, and nothing cut is newer than anything kept |
| `NewestFirst.SortIsStable` | `src/services/trade-history.service.ts:141` | Sorted by time descending, with ties in their order |
| `TradeHistory.GetAccountTradeHistory` | `src/services/trade-history.service.ts:38-158` | The account lookup, the merge of broker and platform rows, the sort, the totals and the two caveats |
| `TradeHistory.IndexStrategies` | `src/services/trade-history.service.ts:73-80` | The nested loops that fill the ticket-to-strategy index |
| `TradeHistory.IndexComesFromMappings` | `src/services/trade-history.service.ts:73-80` | The index holds exactly the tickets of named mappings' chains |
| `TradeHistory.IndexIsRightIff` | `src/services/trade-history.service.ts:73-80` | Every ticket is attributed to its own mapping's strategy if and only if no two mappings of differently named strategies share one |
| `TradeHistory.IndexOfDisjointChains` | `src/services/trade-history.service.ts:73-80` | Disjoint chains, which every run keeps, suffice |
| `TradeHistory.EveryPositionOnce` | `src/services/trade-history.service.ts:100-127` | No position is shown twice, and none the broker or the platform knows is dropped |
| `TradeHistory.RecentPositionsAreShown` | `src/services/trade-history.service.ts:54-133` | A copied position that is open, or was closed within the window, has exactly one row under its current ticket |
| `TradeHistory.RowsNameTheirStrategy` | `src/services/trade-history.service.ts:100-127` | Rows of tickets in a mapping's chain carry its strategy, also superseded ones, and no other row is marked copied |
| `TradeHistory.HistoryAfterAnyRun` | `src/services/trade-history.service.ts:73-127` | On every run from a fresh account each copied position is on the page once, under its own strategy |
| `TradeHistory.OpenRowIff` | `src/services/trade-history.service.ts:100-127` | An open mapping's row shows as open if and only if the broker has no finished trade under its ticket and it was never closed before |
| `TradeHistory.MT4LivePositionsShowOpenIff` | `src/services/trade-history.service.ts:100-127` | On MT4 runs a live copied position shows as open if and only if its mapping was never closed before |
| `TradeHistory.OpenFirstThenNewest` | `src/services/trade-history.service.ts:129-141` | Open positions first, then newest closes, ties in order |
| `TradeHistory.TotalProfitIsComplete` | `src/services/trade-history.service.ts:143-152` | The total is the broker's results plus the recorded results of listed mappings it did not report; rows without a close time add nothing |
| `TradeHistory.CountResults` | `src/services/trade-history.service.ts:153-154` | Wins and losses are the finished rows with positive and negative profit |
| `TradeHistory.TotalsCountFinished` | `src/services/trade-history.service.ts:143-158` | On the page, wins and losses are the numbers of finished rows with positive and negative profit, each in its own slot, profit and volume are those of the rows with a close time, and the volume is the broker's plus that of finished mappings it did not report |
| `TradeHistory.RowsSayWhatIsKnown` | `src/services/trade-history.service.ts:98-132` | Every row shows, field by field, the broker's trade under its ticket where there is one, and otherwise a listed mapping whose unknown result counts as 0 |

## Left out

- MemberRuns.RunsStayInAgreement: hedging accounts only, because on a netting account two mappings can share one ticket and a CLOSE ends the whole net position; copies on one account do not overlap, because the mapping volume is read and written back; closes at the broker are of whole positions, which `MemberAgreement.OutsideCloseTrackedIff` shows is exactly what is needed.
- MasterToMember.MasterToMember: the events come from one watched strategy and one subscriber's account; a second strategy with the same ticket is the failing case of `MemberAgreement.OpenKeepsAgreementIff`.
- CopyWorkers.ExposureBound: limits do not change during the run and nobody trades on the account from outside.
- BrokerLedger.MT4Conservation: MT4 hedging accounts; for MT5 see `MT5Ledger.MT5ConservationIff`.
- FeedModel.ReplayIsNoOp: nonces do not expire, where the store keeps them for 24 hours; one strategy's events, where the nonce and event-id namespaces are shared.
- WatchTheorems.PollPatchesIff: while the nonce store answers and has forgotten nothing, as for `WatchTheorems.PollingAgainIsIdle`; what holds without that is `WatchRuns.PollPolls`.
- SweepRaces.RacedSweepIff: the closing pass is one step; `SweepRaces.StepsStayInAgreement` takes its writes one at a time.
- FollowThrough.HoldingsFollowMaster: hedging accounts, as for `MemberRuns.RunsStayInAgreement`.
- TradeHistory.TotalProfitIsComplete: a mapping that was closed and re-opened still counts its earlier result, because its close time stays.
- DealHistory.TradesAgreeWithClosedPosition: over the position's deals that name a symbol, which are those the grouping keeps; for all of them see `DealHistory.ProfitAgreesIff`.
- Float error beyond the explicit 1e-9 nudge and the two- and four-decimal rounding; exact ties in `toFixed` round away from zero; price differences of exactly one tolerance count as equal.
- Volumes finer than 0.01 lot in positions and events.
- MetaApi connections, order sending and error tables: foreign calls whose behaviour is not visible; the simulated broker stands in.
- Opening a simulated account, its margin figures and seeded prices: prices are inputs.
- Pending orders waiting for a price: the simulated broker fills them at once.
- Symbol aliases other than one per account, and upper-casing of symbols.
- Two platform accounts on one broker login.
- Exceptions thrown by the broker or the queue in the middle of a copy or ingest: their catch blocks only mark the row failed.
- The loops over all accounts, all masters and all strategies, and their error marking.
- The account-level copying flag, which neither a breach nor a disconnect maintains.
- Audit records, notifications, live updates, logs, latency and attempt texts.
- HTTP routes, sessions, encryption, signatures, rate-limit counters, plan limits and user interface.
