# Cresta back end: verified model of its state machines

Cresta is a trading back end whose services keep their state in database tables
that several workers write. This project models the tables as records in
sequences and maps and each service call as one atomic step, and proves what
those calls keep, over every run of them. Times are integers, amounts are reals
or integers scaled by 10^4, and payload hashes are taken to be injective.

`dafny verify dfyconfig.toml` checks the whole project.

## What is modelled

1. **Agent runs** (`AgentDag`, `AgentWorker`, `AgentProtocol`, `AgentLaws`,
   `AgentStore`).
   Workers claim the eight stages of a run under a lease, an attempt count and a
   fencing token. Proved over every interleaving: fencing (only the latest claim
   stores, once), edge order, finalization exactly once and with the stated
   meaning, at most 22 stage transitions per run, deadlock freedom, and that no run
   starves under repeated claims.
2. **Broker account** (`BrokerOrders`, `FillLedger`, `ManagedReplay`,
   `OwnFills`, `Positions`, `Reconciliation`, `AccountProjection`,
   `BrokerLaws`, `AccountStore`). A broker snapshot is written over orders, fills and positions
   in several passes and then compared with them. Proved: conservation of quantities, exact multiset deduplication of
   fills over any run of polls, the clamped average-cost replay over the stored
   own fills, the fixed point of the whole account, and exactly what the
   comparison can still report and when trading halts.
3. **Order desk** (`OrderCreation`, `Guards`, `StopTriggers`, `StopPolicy`,
   `Approvals`, `DeskLaws`, `OrderDesk`, `OrderDeskStore`, `OrderDeskRuns`). Stop triggers,
   routed decisions and approvals create orders through one idempotent service. Proved over every run: exactly
   once per source, covered sales, one active sale per symbol, the life cycles of
   triggers, risk events and approvals, and the bounds on what entries spend.
4. **Desk and broker** (`BrokerDesk`, `BrokerDeskStore`, `BrokerDeskRuns`). The desk, the order
   sender and the account projection over one set of tables. Proved over every
   run: each source is sent at most once, order rows and broker orders agree, one
   active sale per symbol unless the broker takes something back, and exactly
   when a stop sells shares that are not the account's own.
5. **Quote streams** (`MinuteBars`, `Watch`, `WatchStore`). A stream with sticky
   gaps, late events and recoveries feeds minute bars. Proved over every run: the
   order of applied events, bars equal to the batch view, volumes that telescope,
   and the bound on the average price.
6. **Policies and the scheduler lease** (`PolicyVersions`, `PolicyStore`,
   `SchedulerLease`). Proved over every run: at most one activation per base, one
   base-linked chain of active versions, and fencing of the lease.

For code that changes rows in place there is a class whose methods are proved
against the step functions and relations; the properties of runs are proved
about those. `AgentLaws`, `BrokerLaws` and `DeskLaws` say once more, without these
functions, what a call leaves of every field, and the in-place methods promise
that too.

## What the proofs show about the code

- A confirmed cancel of a partly filled order is reopened as RECONCILING when
  the broker repeats the snapshot, which then halts trading:
  `BrokerOrders.OrdersReachFixedPoint` and
  `Reconciliation.CleanStaysCleanUnlessReopened` give the exact conditions.
- "FULFILLED if and only if an order carries the trigger's key" is false: the
  user supplies the key of an approval's order, which may be the trigger's
  (`OrderDeskRuns.KeyAloneIsNotFulfilment`). It holds exactly if the order under the
  key is also the trigger's own (`OrderDesk.FulfilledMeansOrdered`), hence in
  every run in which nobody else uses such keys (`OrderDesk.KeyMeansFulfilled`);
  a foreign order there blocks that stop for good
  (`OrderDesk.ForeignKeyBlocksStop`).
- An own fill counts for a position one projection late, because the replay reads
  what the database held before the call: an own BUY can show as an external
  holding first (`AccountProjection.OwnBuyIsManagedOneProjectionLate`).
  `AccountProjection.AccountReachesFixedPoint` says exactly when a second
  projection of one snapshot still changes anything.
- The same delay lets a stop sell too much: a projection that reports an own sale
  mostly still counts the sold shares as own, so the stop after it can sell shares
  that never were. `BrokerDesk.StopOversellsExactly` says when and how many, for
  every snapshot; a position whose row comes after an imported one is spared
  (`BrokerDesk.FlushedStopSellsOwnShares`).
  `BrokerDeskRuns.SecondStopSellsForeignShares` is a run.
- A broker that takes a report back can leave two active own sales of one symbol
  (`BrokerDeskRuns.TakenBackLeavesTwoSales`); nothing else can
  (`BrokerDesk.OneSaleUnlessTakenBack`).
- A stop looks its risk policy up under the account alias
  (`backend/app/stop_trigger.py:373`), and versions are only ever drafted under
  user identifiers (`backend/app/risk_policy.py:90`). So a stop always uses the
  default loss of 2% and the default staleness, never what a user activated
  (`StopPolicy.StopsNeverUseUserPolicies`), its triggers name no policy, and the
  unique constraint on position version and policy version never refuses one
  (`StopPolicy.NoStopNamesAPolicy`). `StopTriggers.RefusedExactly` says when it
  would, given a policy row under the account alias.
- Without a policy row nothing ties a position version to one stop. After a
  fulfilled one the unchanged position gets a new trigger whenever the bid is at
  the stop and no live trigger watches the version, and a second order exactly if
  there is a trigger to look at and nothing keeps it from selling. The price does
  not: a live trigger, once raised, sells at any positive bid, in a tick and in the
  recovery (`StopTriggers.SecondOrderExactly`,
  `StopTriggers.SecondOrderByRecoveryExactly`; runs:
  `OrderDeskRuns.SecondStopOrderOfOneVersion`,
  `OrderDeskRuns.SecondStopOrderAboveStop`).
  The docstrings of `backend/app/stop_trigger.py:368-372` and `676-692` say that
  no order is ever created there; the code creates one when the stage allows it,
  and the model follows the code.
- An approval that has expired takes its execution along exactly if a sweep finds
  it first; an attempt to approve it leaves the execution APPROVAL_PENDING for
  good (`OrderDesk.LapsesExactly`).

## Model

| member | source | states |
|---|---|---|
| AgentDag.FreshRunInv | backend/app/agents/runtime.py:82-110 | a new run satisfies the run invariant (edges respected, token equal to attempt count, at most the allowed attempts) and carries 22 units of remaining work |
| AgentDag.FinalizeKeepsInv | backend/app/agents/worker.py:94-126 | finalization decides a run exactly at the moment its last stage is terminal, with the verdict its stages and bundle call for, and touches no stage |
| AgentDag.CoreIsLast | backend/app/agents/runtime.py:82-110 | once CORE is no longer PENDING every other stage is terminal, and a run is finished exactly when CORE is terminal |
| AgentDag.ActKeepsInv | backend/app/agents/worker.py:219-275 | whatever the claim loop does to a PENDING stage (start, cascade failure, stale timeout) keeps the run invariant, undoes nothing, moves only that stage and strictly lowers the measure |
| AgentDag.ExecuteKeepsInv | backend/app/agents/worker.py:1220-1269 | storing an outcome, an exception or a timeout under a held claim does the same and leaves the stage terminal |
| AgentDag.RecoverKeepsInv | backend/app/agents/worker.py:143-191 | a recovery sweep of a run keeps its invariant, for every set of expired stages |
| AgentDag.RecoverAdvances | backend/app/agents/worker.py:143-191 | a sweep never touches a terminal stage, lowers no token and changes no finished run |
| AgentDag.RecoverLosesWeight | backend/app/agents/worker.py:154-170 | every stage a sweep resets or times out costs the run at least one unit of its measure |
| AgentDag.SomeStageActs | backend/app/agents/worker.py:219-256 | deadlock freedom: an unfinished run without a running stage, none of whose PENDING stages is still to become available, has a stage that a claim call acts on |
| AgentDag.FailedMeans | backend/app/agents/worker.py:109-113 | FAILED if and only if all stages are terminal and CORE did not succeed or some stage failed, timed out or was invalid |
| AgentDag.SucceededMeans | backend/app/agents/worker.py:114-124 | SUCCEEDED if and only if every stage is SUCCEEDED or NOT_APPLICABLE and the bundle is VERIFIED |
| AgentLaws.NeedsSpelledOut | backend/app/agents/runtime.py:82-110 | the edges, as the set of stages each stage waits for |
| AgentLaws.SweepMeans | backend/app/agents/worker.py:143-191 | what a sweep leaves of every row: given back while attempts are left and nothing was invoked, timed out otherwise, untouched while its lease runs; and of the run, with the verdict spelled out |
| AgentLaws.ReadyIsDecided | backend/app/agents/worker.py:215-247 | which stages the claim loop acts on: PENDING, available, in an undecided run, with all dependencies good, or one of them bad and (for the auditor and CORE) all of them over |
| AgentLaws.ActMeans | backend/app/agents/worker.py:229-274 | what it makes of them: FAILED over a bad dependency unless the stage may reduce, otherwise TIMED_OUT after the run's time, otherwise RUNNING with lease, token, attempt and timeout |
| AgentLaws.ClaimMeans | backend/app/agents/worker.py:208-276 | a claim call sweeps and then does that to the first such stage in queue order, or to none if there is none |
| AgentLaws.ExecuteMeans | backend/app/agents/worker.py:1240-1266 | what an execution leaves: the outcome's own status if in time, TIMED_OUT if late or by a timeout, FAILED by any other exception, with error, lease, bundle and verdict |
| AgentWorker.NextKeeps | backend/app/agents/worker.py:143-276 | every service call, whoever makes it, keeps every run legal and undoes nothing |
| AgentWorker.ClaimMovesOneStage | backend/app/agents/worker.py:208-276 | a claim call sweeps and then moves at most one stage; the claim it returns is on exactly that stage, with the new token, lease and timeout |
| AgentWorker.TraceKeepsInv | backend/app/agents/worker.py:143-276 | every database reachable by any interleaving of calls satisfies the invariant |
| AgentWorker.TraceAdvances | backend/app/agents/worker.py:143-276 | between any two moments of a run of calls terminal stages, finished runs and used tokens stay |
| AgentWorker.FinalizedOnceByCore | backend/app/agents/worker.py:94-126 | a run is decided exactly when CORE is, CORE waits for all other stages, and a decided run and its rows never change again |
| AgentWorker.VerdictMeaning | backend/app/agents/worker.py:109-124 | the meaning of FAILED, SUCCEEDED and PARTIAL in every reachable database, each as an equivalence |
| AgentProtocol.DeadClaimNeverStores | backend/app/agents/worker.py:1227-1239 | once a stage moved past a claim, no later execution under it stores anything or changes the database |
| AgentProtocol.RunningWasGranted | backend/app/agents/worker.py:257-274 | every running stage is held by the worker some earlier claim call gave its current token to |
| AgentProtocol.TokensIncrease | backend/app/agents/worker.py:257-274 | each claim of a stage has a strictly larger token than every claim of it before |
| AgentProtocol.OnlyLatestClaimStores | backend/app/agents/worker.py:1227-1239 | a stored result comes from the worker of the latest claim of that stage, and nobody else claimed it in between |
| AgentProtocol.StoredOnce | backend/app/agents/worker.py:1220-1269 | the result of a stage is stored at most once in every run of calls |
| AgentLaws.BroughtExactly | backend/app/agents/worker.py:1220-1269 | in every run of calls a stage is SUCCEEDED, NOT_APPLICABLE, INSUFFICIENT_DATA, CONFLICTED or INVALID_OUTPUT under a token if and only if the execution under that claim brought this status in time |
| AgentLaws.BundleBroughtExactly | backend/app/agents/worker.py:94-124 | and its run has exactly the bundle that a verification in time brought |
| AgentLaws.SuccessIsBrought | backend/app/agents/worker.py:109-124 | so a run is SUCCEEDED if and only if executions in time brought SUCCEEDED for CORE, SUCCEEDED or NOT_APPLICABLE for every stage, and a VERIFIED bundle |
| AgentLaws.StartedOnGoodResults | backend/app/agents/worker.py:229-245 | in every run of calls a stage that was ever started had only good dependencies, unless it is the auditor or CORE, and only ended ones in any case; a stage failed for its dependencies was never started and has a bad one |
| AgentProtocol.WorkSpendsBudget | backend/app/agents/worker.py:143-276 | one call spends as much of the measure as it makes stage transitions |
| AgentProtocol.AtMost22Transitions | backend/app/agents/worker.py:143-276 | no run ever makes more than 22 stage transitions, whatever the workers do |
| AgentProtocol.RipeClaimAdvances | backend/app/agents/worker.py:208-276 | a claim call made when all leases on the first c runs ran out and all their stages are available moves one of them, unless all of them are finished |
| AgentProtocol.ClaimActsEarly | backend/app/agents/worker.py:208-216 | if a stage of some run can be acted on, a claim call acts on that run or an earlier one |
| AgentProtocol.IdleClaimMeansWaiting | backend/app/agents/worker.py:208-276 | a claim call that only swept hands out nothing, and every unfinished run then has a stage running under a lease that has not run out, or a PENDING stage not yet available |
| AgentProtocol.EveryRunFinishes | backend/app/agents/worker.py:208-276 | no run starves: for any c, as many claim calls that come late enough for the first c runs as these have work left finish all of them, whatever is created, claimed, executed or recovered in between |
| AgentStore.AgentTables.CreateDiagnosticRun | backend/app/agents/runtime.py:1135-1146 | appends the run with eight fresh PENDING stages, two attempts for the three server roles and one for the others, in sequence order |
| AgentStore.AgentTables.RecoverExpiredStages | backend/app/agents/worker.py:143-191 | the row-by-row sweep, which finalizes runs as it goes, equals sweeping every run at once and returns the number of expired rows |
| AgentStore.AgentTables.ClaimNextStage | backend/app/agents/worker.py:208-276 | the claim loop does to the first ready stage of the swept tables what is spelled out for it, and to nothing else |
| AgentStore.AgentTables.ExecuteClaimedStage | backend/app/agents/worker.py:1220-1269 | stores if and only if the row runs for this worker under this token, and then leaves row, bundle and run as spelled out for the outcome; every other run is untouched |
| BrokerOrders.ProjectionConserves | backend/app/account_projection.py:96-159 | requested = filled + cancelled + remaining with no negative part survives all three passes on every order |
| BrokerOrders.ProjectTwice | backend/app/account_projection.py:96-159 | per order: a third projection changes nothing, a second one exactly if the first confirmed the cancel of a partly filled order, which it reopens as RECONCILING |
| BrokerOrders.OrdersReachFixedPoint | backend/app/account_projection.py:96-159 | projecting one snapshot repeatedly is stable after two applications, and after one if and only if no order is reopened |
| BrokerLaws.ProjectionMeans | backend/app/account_projection.py:96-159 | one order after all passes, field by field: what the open row says, or the confirmed cancel, the full fill or the partial fill, with its version |
| BrokerLaws.ValidRowsAddUp | backend/app/account_projection.py:185-190 | which open rows are refused: those whose numbers do not fit together |
| FillLedger.RecordingTakesMaximum | backend/app/account_projection.py:73-94 | recording a snapshot raises what the ledger holds of each fill identity to that snapshot's number of occurrences, never further, and loses nothing |
| FillLedger.RecordIsRecorded | backend/app/account_projection.py:73-94 | recording in the order of the report keeps keys unique and adds, for every due fill, exactly its occurrences not yet held |
| FillLedger.RecordedOnce | backend/app/account_projection.py:73-94 | recording the same snapshot again over orders that ask for the same fills adds nothing |
| FillLedger.LedgerHoldsMaximum | backend/app/account_projection.py:65-94 | over any run of polls the ledger holds each key once and each identity as often as the poll that reported it most while its order was known and not overfilled |
| FillLedger.TotalsAgree | backend/app/account_projection.py:461-474 | a ledger holding each reported fill once per occurrence adds up to the broker's reported total |
| FillLedger.GrowingListCountedOnce | backend/app/account_projection.py:65-94 | re-polling a growing fill list never counts a fill twice: the recorded total equals the last reported one |
| ManagedReplay.ReplayManagedPosition | backend/app/account_projection.py:331-365 | the loop over local accumulators computes the replay, and nothing when there are no own fills |
| OwnFills.SortedByTime | backend/app/account_projection.py:338-349 | the replay reads the own fills of a symbol each once, by time filled and then by row identifier |
| OwnFills.SameOwnTrades | backend/app/account_projection.py:338-349 | what the replay reads depends on the orders only through which of them are own, and the symbol and side of those |
| OwnFills.ForeignFillsIgnored | backend/app/account_projection.py:338-349 | further fills of orders that are not own change nothing the replay reads, whatever their times |
| ManagedReplay.LowestNetIsLowest | backend/app/account_projection.py:355-364 | the running minimum used below is the least net of all prefixes and is attained |
| ManagedReplay.ReplayReflectsNet | backend/app/account_projection.py:355-364 | the replayed quantity is the net signed sum minus its running minimum (at most zero) |
| ManagedReplay.ReplayIsNetUnlessOversold | backend/app/account_projection.py:355-364 | it equals buys minus sells if and only if no prefix ever oversold |
| ManagedReplay.FlatForgets | backend/app/account_projection.py:361-364 | once sold out, all earlier fills are without effect |
| ManagedReplay.AverageWithinBuys | backend/app/account_projection.py:355-364 | while something is held the average cost lies between the bounds of all BUY prices replayed |
| ManagedReplay.AverageWithinRecentBuys | backend/app/account_projection.py:355-364 | and between the bounds of the BUY prices since the last sell-out |
| ManagedReplay.AverageIsCostPerShare | backend/app/account_projection.py:356-360 | for a run of buys average times quantity is the whole cost and the quantity is all shares |
| Positions.ProjectionKeepsAttribution | backend/app/account_projection.py:273-328 | 0 <= managed <= quantity, 0 <= available <= quantity and the origin label of open positions hold after every projection; a position is open exactly if the snapshot reports it |
| Positions.ManagedPartIsExplained | backend/app/account_projection.py:368-386 | with own fills the managed part is their reflected net capped by the broker quantity; without them it never grows |
| Positions.PositionsStableOverSameHistories | backend/app/account_projection.py:262-328 | over unchanged histories a second projection of a snapshot changes no position row |
| BrokerLaws.HoldingMeans | backend/app/account_projection.py:283-310 | a reported position has the broker's quantity, available quantity and average, its managed part and the average that goes with it, its origin, and a version that counts the changes |
| BrokerLaws.GoneMeans | backend/app/account_projection.py:312-327 | a position that is not reported is closed with everything at zero, once |
| AccountProjection.FillsRecordedOnce | backend/app/account_projection.py:65-94 | projecting a snapshot again leaves the recorded fills and their times as they are |
| AccountProjection.KnownRowsReadStored | backend/app/account_projection.py:276-297 | once all reported orders and positions have rows, nothing is flushed on the way and every replay reads exactly the fills earlier calls stored |
| AccountProjection.PositionsChangeExactly | backend/app/account_projection.py:262-328 | a second projection of a snapshot changes the positions if and only if some reported position has another managed part under the fills stored after the first than under those its replay saw |
| AccountProjection.AccountReachesFixedPoint | backend/app/account_projection.py:37-165 | orders, recorded fills, their times and positions are stable after two projections of a snapshot, and after one if and only if no order is reopened and no managed part changes with the recorded fills |
| AccountProjection.OnceIsEnoughExactly | backend/app/account_projection.py:52-165 | for a snapshot that brings no unrecorded due fill of an own order and calls each own order by its stored symbol and side: one projection is stable if and only if it reopens no order |
| AccountProjection.OwnBuyIsManagedOneProjectionLate | backend/app/account_projection.py:276-297 | a concrete account whose own filled BUY the first projection takes for an external holding and the second for a managed one |
| AccountProjection.TimesAreKept | backend/app/account_projection.py:450-458 | a fill gets its order's time of day on the date of the snapshot that first reported it, and keeps it |
| AccountProjection.EarlierDaysFirst | backend/app/account_projection.py:338-349 | so fills first reported on an earlier day come before those of a later day in every replay |
| Reconciliation.OpenRowsAgree | backend/app/reconciliation.py:196-218 | right after the projection no open broker row is missing or different |
| Reconciliation.PositionsAgree | backend/app/reconciliation.py:255-284 | nor is any reported position unknown, or different in quantity or average price |
| Reconciliation.FillsDisagreeExactly | backend/app/reconciliation.py:231-247 | a fill total differs after the projection exactly for a known order that is open with a different filled quantity, or not open with a total above the requested quantity |
| Reconciliation.VisibleIsAtBroker | backend/app/reconciliation.py:22-31 | the statuses in which the broker is expected to know an order, listed |
| BrokerLaws.ReportsMean | backend/app/reconciliation.py:174-296 | a comparison reports each kind of mismatch for a symbol if and only if ledger and snapshot differ in that way, spelled out |
| Reconciliation.ReportsAfterProjection | backend/app/reconciliation.py:174-296 | after projecting a well-formed snapshot the comparison reports INTERNAL_ORDER_MISSING_BROKER and FILL_QUANTITY_MISMATCH in exactly the stated cases and no other code |
| Reconciliation.HaltsExactly | backend/app/reconciliation.py:132-150 | trading halts if and only if, before the projection, an order without a number was in a status at the broker (spelled out), or one with a number was overfilled, filled in part without a cancel, at the broker but gone, or open with other fills |
| Reconciliation.CleanStaysCleanUnlessReopened | backend/app/reconciliation.py:132-150 | repeating a snapshot that compared clean halts trading if and only if it had confirmed the cancel of a partly filled order |
| AccountStore.BrokerAccount.ProjectOpenRows | backend/app/account_projection.py:48-63 | the pass over the open rows applies each row to its order, fails exactly if some row does not add up, and returns the orders as the last inserted order flushed them |
| AccountStore.BrokerAccount.RecordFills | backend/app/account_projection.py:65-94 | the loop with its overfilled set and occurrence counters records the due fills with their times, and fails exactly if a fill to be recorded has no readable time |
| AccountStore.BrokerAccount.ProjectFillTotals | backend/app/account_projection.py:96-128 | the pass over the fill totals |
| AccountStore.BrokerAccount.ProjectCancels | backend/app/account_projection.py:130-159 | the pass over the pending cancels completes the projection of every order |
| AccountStore.BrokerAccount.ApplyHoldings | backend/app/account_projection.py:273-314 | the loop over broker rows applies each to its position, replaying the fills stored before the call until an inserted position flushes this call's |
| AccountStore.BrokerAccount.CloseOthers | backend/app/account_projection.py:316-328 | the loop over the remaining open positions closes them |
| AccountStore.BrokerAccount.ProjectPositions | backend/app/account_projection.py:262-328 | both loops together compute the projected position table over the histories that the replays see |
| AccountStore.BrokerAccount.ApplyBrokerAccountProjection | backend/app/account_projection.py:37-165 | all passes in place equal the projected account, which says of every order, reported position and closed position what is spelled out; it fails exactly on an unprojectable snapshot |
| AccountStore.BrokerAccount.CompareSnapshot | backend/app/reconciliation.py:174-296 | the list holds exactly the mismatches there are, of each kind as spelled out |
| AccountStore.BrokerAccount.ResolvePreviousMismatches | backend/app/reconciliation.py:299-319 | an open earlier finding is resolved exactly if its code and symbol are no longer found |
| AccountStore.BrokerAccount.SettleRun | backend/app/reconciliation.py:116-150 | findings, run state and gate are settled by what the comparison reports |
| AccountStore.BrokerAccount.RunReconciliation | backend/app/reconciliation.py:77-171 | a failed run leaves orders, fills, positions and findings as they were and the gate DEGRADED; a good one leaves the projected account, the gate HALTED exactly if the halting condition held before, and open findings exactly for what was found |
| AccountStore.OpenFindingsAreCurrent | backend/app/reconciliation.py:117-130 | what is open after resolving and raising is what the comparison found |
| OrderCreation.CreateKeepsKeysDistinct | backend/app/order_creation.py:137-224 | creation keeps idempotency keys unique and never rewrites a row's key or payload |
| OrderCreation.PlacedOnceForAll | backend/app/order_creation.py:140-146 | after an order was placed every later request with its key is answered by that row if the payload is equal and refused otherwise |
| Guards.StopSaleIsCovered | backend/app/stop_trigger.py:122-245 | a stop that passes its rules sells between 1 and the managed and available quantity less what is reserved, with no other active order on the symbol |
| Guards.DecisionSaleIsCovered | backend/app/decision_execution.py:201-349 | the same for a decision's sale, whether its quantity was planned now or captured by an approval |
| Guards.EntrySpendsAtMostAmount | backend/app/decision_execution.py:547-553 | quantity times price of a whole-share entry is at most the entry amount |
| Guards.EntryStaysWithinLimits | backend/app/decision_execution.py:137-173 | so exposure plus what is spent stays within the symbol and the total limit |
| Guards.DeviatedEntryIsBounded | backend/app/approvals.py:214-222 | at a price within the tolerated deviation the entry costs at most the amount times (1 + deviation/100) |
| DeskLaws.StopGoesMeans | backend/app/stop_trigger.py:122-245 | the rules of a stop let it sell if and only if every single condition holds, spelled out |
| DeskLaws.SaleMeans | backend/app/decision_execution.py:201-349 | the same for the sale of a decision or an approval |
| DeskLaws.PlanMeans | backend/app/decision_execution.py:190-273 | a full sale plans all that is managed and available, a partial one its ratio of it, in whole shares |
| DeskLaws.EntryMeans | backend/app/decision_execution.py:108-198 | the same for an entry, with the spread rounded to 0.0001, halves to even |
| DeskLaws.BuyMeans | backend/app/decision_execution.py:547-553 | an entry buys the whole shares its amount pays for |
| DeskLaws.StopBlockedByFirst | backend/app/stop_trigger.py:122-245 | the code recorded for a blocked stop is that of the first of its rules, in their order, that does not hold |
| DeskLaws.SaleBlockedByFirst | backend/app/decision_execution.py:276-349 | the same for a sale |
| DeskLaws.EntryBlockedByFirst | backend/app/decision_execution.py:108-187 | the same for an entry |
| StopTriggers.JudgeKeepsOrders | backend/app/stop_trigger.py:514-673 | a live trigger's evaluation creates at most one order, under the trigger's own key, exactly when the trigger becomes FULFILLED |
| StopTriggers.JudgeKeepsEvents | backend/app/stop_trigger.py:588-673 | every ACTIVE risk event keeps belonging to a trigger that is EXIT_PENDING |
| StopTriggers.SupersedeStaleKeeps | backend/app/stop_trigger.py:331-357 | superseding leaves no live trigger of the position and policy, and keeps the rest of the board |
| StopTriggers.EvaluateKeeps | backend/app/stop_trigger.py:360-501 | an evaluation keeps one live trigger per position and policy, none PENDING, one row per position and policy version, and never rewrites a superseded or fulfilled trigger |
| StopTriggers.RecoverKeeps | backend/app/stop_trigger.py:718-778 | so does looking at a pending exit again after recovery |
| StopTriggers.EndedTriggerRefusesItsVersion | backend/app/models.py:883-888 | conditional on a policy row under the account alias: after a trigger with that policy version ended, evaluating the same position version fails on the unique constraint if and only if the bid is at the stop |
| StopTriggers.FiresExactlyAtStop | backend/app/stop_trigger.py:108-112 | otherwise a new trigger row appears exactly when the bid is positive and at or below the stop price, whose value is pinned below |
| DeskLaws.StopPriceMeans | backend/app/stop_trigger.py:97-112 | a bid is at the stop if and only if it is at most the cost times (100 + percentage)/100 rounded to the nearest 0.0001, halves away from zero; the cost is the managed average if anything is managed, else the broker's |
| DeskLaws.StopScales | backend/app/stop_trigger.py:97-112 | cost and bid scaled alike are judged alike, up to one unit of 0.0001 |
| DeskLaws.JudgeMeans | backend/app/stop_trigger.py:443-501 | what judging a trigger leaves of it and of the orders, spelled out: blocked, recorded without selling, without a usable bid, or the order of the whole managed part at the bid |
| DeskLaws.EvaluatePositionMeans | backend/app/stop_trigger.py:360-501 | an evaluation does that to the trigger that watches this version, or to a new one raised exactly if the bid is at the stop |
| StopTriggers.RefusedExactly | backend/app/models.py:883-888 | an evaluation fails if and only if there is a policy row under the account alias, the position version has an ended trigger under the policy version and no live one, and the bid is at its stop |
| StopTriggers.EvaluateOnlySymbol | backend/app/stop_trigger.py:360-501 | an evaluation writes only triggers of the symbol it evaluates |
| StopTriggers.OthersRefusedAlike | backend/app/stop_trigger.py:676-715 | so it does not decide whether the evaluation of another symbol fails |
| StopTriggers.EvaluationSellsExactly | backend/app/stop_trigger.py:408-501 | without a policy row: a new row appears if and only if no live trigger watches the position version and the bid is at the stop; an order appears if and only if a live trigger watches it or the bid is at the stop, no order of the symbol is active, the managed part is positive and available, the quote fresh with a positive bid, the gate READY, the session open, the stop automatic and the key of that trigger free |
| StopTriggers.SecondOrderExactly | backend/app/stop_trigger.py:408-501 | so after a fulfilled stop an evaluation gives the unchanged position version a second order exactly under that condition; with a live trigger of the version the price does not matter |
| StopTriggers.ReEvaluationSellsExactly | backend/app/stop_trigger.py:612-673 | looking at a trigger again sells exactly if it watches this position version and nothing keeps it from selling; beyond a positive bid the price does not matter |
| StopTriggers.SecondOrderByRecoveryExactly | backend/app/stop_trigger.py:718-778 | and so does the recovery of a pending exit of that version, under any policy |
| StopPolicy.LookUpMeans | backend/app/risk_policy.py:49-57 | the look-up of a stop finds the active risk policy of the account alias with its terms, or nothing if there is none |
| StopPolicy.StopsNeverUseUserPolicies | backend/app/stop_trigger.py:373-375 | the policy of a stop is looked up under the account alias; in every run in which versions are drafted for users it is the default (-2%, 2 seconds) and no row, whatever users activate |
| StopPolicy.NoStopNamesAPolicy | backend/app/risk_policy.py:88-99 | so in every run of policy calls and the desk together no trigger names a policy and no evaluation is refused by the constraint |
| StopPolicy.SystemRunsAreDeskRuns | backend/app/stop_trigger.py:373-375 | every such run is a run of the desk under the settings the look-up finds |
| Approvals.RouteKeeps | backend/app/decision_execution.py:352-544 | routing a decision keeps approvals, executions and orders linked and creates at most the one order it decided on |
| Approvals.ApprovalMakesItsOwnOrder | backend/app/approvals.py:391-427 | an awaiting approval never ends up with an order that existed before, whatever key the user supplied |
| Approvals.ApproveKeeps | backend/app/approvals.py:302-467 | an approval attempt, however it ends, keeps approvals and orders one to one and never rewrites an ended approval |
| Approvals.RejectKeeps | backend/app/approvals.py:470-507 | so does a rejection, which creates no order |
| Approvals.ExpireKeeps | backend/app/approvals.py:510-535 | expiring leaves no awaiting approval past its time among those looked at and touches no other |
| Approvals.RoutedSaleIsCovered | backend/app/decision_execution.py:619-678 | every sale an automatic decision creates is covered at that moment |
| Approvals.ApprovedSaleIsCovered | backend/app/approvals.py:259-277 | every sale an approval creates is covered at the moment of the approval |
| Approvals.RoutedEntryIsBounded | backend/app/decision_execution.py:556-616 | an automatic entry spends at most the entry amount and keeps both exposures within their limits |
| DeskLaws.RoutingMeans | backend/app/decision_execution.py:352-678 | a decision leads to an order if and only if it is still to be routed, automatic, free to go, of a size, at a known venue and its key unused, and to an approval if and only if it is to be asked for; the order and the approval are spelled out, and so is the execution's state |
| Approvals.ApprovedEntryIsBounded | backend/app/approvals.py:214-299 | an entry approved at any later moment spends at most the amount captured when it was asked for plus the tolerated deviation |
| DeskLaws.ApprovingMeans | backend/app/approvals.py:302-467 | an approval attempt creates an order if and only if the approval awaits, has not run out, is free to go as asked for, the price is near the one asked about and the key unused; the order and what becomes of approval and execution are spelled out |
| Approvals.ExpireEndsBoth | backend/app/approvals.py:510-535 | a sweep that finds an approval run out ends its execution with it |
| Approvals.LateApprovalLeavesPending | backend/app/approvals.py:326-331 | an attempt to approve it first leaves the execution APPROVAL_PENDING |
| OrderDesk.StepCreates | backend/app/order_creation.py:120-224 | every step of the desk creates at most one order, and a sale only if it is covered by the position it sells |
| OrderDesk.StepKeeps | backend/app/stop_trigger.py:360-778 | every step of stop evaluation, routing, approving or the outside keeps the invariants of all tables together |
| OrderDesk.RunKeeps | backend/app/order_creation.py:120-224 | the same over every run, with ended rows, keys and payloads unchanged |
| OrderDesk.FulfilledMeansOrdered | backend/app/stop_trigger.py:539-585 | in every run a trigger is FULFILLED if and only if the order under its key is its own |
| OrderDeskRuns.KeyAloneIsNotFulfilment | backend/app/approvals.py:391-427 | a concrete run in which an approval took a trigger's key and the trigger is not FULFILLED |
| OrderDesk.KeyMeansFulfilled | backend/app/stop_trigger.py:539-585 | in every run in which neither approvals nor outside orders use a trigger's key, FULFILLED if and only if an order carries the key |
| OrderDesk.ForeignKeyBlocksStop | backend/app/stop_trigger.py:570-581 | an order of somebody else under a trigger's key keeps that trigger from ever being fulfilled |
| OrderDesk.NoneLeftPending | backend/app/stop_trigger.py:433-501 | in every run no trigger is left PENDING |
| OrderDesk.TriggersInOrder | backend/app/stop_trigger.py:309-357 | in every run at most one live trigger watches a position under a policy, and a position version has one row per policy version |
| OrderDeskRuns.SecondStopOrderOfOneVersion | backend/app/stop_trigger.py:422-501 | a concrete run in which a stop order is rejected and the unchanged position version is sold a second time |
| OrderDeskRuns.SecondStopOrderAboveStop | backend/app/stop_trigger.py:408-422 | concrete runs in which a second trigger of the version waits for the first order, that order is rejected, and the tick or the recovery sells again far above the stop |
| OrderDesk.LapsesExactly | backend/app/approvals.py:326-331 | in every run an awaiting approval lapses exactly at a late sweep or a late attempt to approve it; its execution is EXPIRED exactly after the sweep and APPROVAL_PENDING exactly after the attempt, for good |
| OrderDesk.EndedPairsNeverChange | backend/app/approvals.py:322-331 | in every run an ended approval and its execution never change again |
| OrderDeskRuns.ExpiredApprovalWithPendingExecution | backend/app/approvals.py:326-331 | a concrete run to an expired approval whose execution is APPROVAL_PENDING |
| OrderDesk.ActiveEventMeansPendingExit | backend/app/risk_events.py:62-77 | in every run an ACTIVE fixed-stop event has an EXIT_PENDING owner |
| OrderDesk.EndedRowsStay | backend/app/stop_trigger.py:326-328 | in every run SUPERSEDED and FULFILLED triggers and ended approvals are never written again |
| OrderDesk.ExactlyOncePerSource | backend/app/order_creation.py:140-146 | in every run each trigger, each approval and each automatic decision with its action has at most one order |
| OrderDesk.ApprovalsShareNoOrder | backend/app/approvals.py:437-439 | in every run no two APPROVED approvals share an order |
| OrderDesk.OneActiveSalePerSymbol | backend/app/decision_execution.py:222-232 | in every run in which nothing outside makes an own order an active sale that it was not, or one of another symbol (reviving, and rewriting symbol or side, included), no symbol has two active sales of the account's own |
| OrderDesk.EverySaleIsCovered | backend/app/decision_execution.py:201-219 | in every run every created sale fits in the managed, available and unreserved part of its position |
| BrokerDesk.ReachedIsDeskRun | backend/app/broker/order_sender.py:302-411 | with sending, cancelling, test orders and projections spelled out, every run of all of them is a run of the desk, and each numbered order row agrees with the one order that the projection knows |
| BrokerDesk.SentOncePerSource | backend/app/broker/order_sender.py:146-181 | in every run each trigger, each approval and each automatic decision with its action has at most one order handed to the broker, and that order is handed over once |
| BrokerDesk.CancellableIsKnown | backend/app/broker/order_sender.py:218-223 | every order that may be cancelled has a broker number, so the branch for a missing one is never taken |
| BrokerDesk.EndedRevivedExactly | backend/app/account_projection.py:96-117 | an order that ended is active again after a projection if and only if it is reported open, or its reported fills are positive and fewer than asked for |
| BrokerDesk.FirstSaleFitsAvailable | backend/app/account_projection.py:283-310 | the first sale of a symbol after a projection is at most what the snapshot says is available, whoever creates it |
| BrokerDesk.AtBrokerIsSentAndActive | backend/app/reconciliation.py:22-31 | an order is expected at the broker if and only if it is active and neither CREATED nor VALIDATING |
| BrokerDesk.UnaccountedHalts | backend/app/reconciliation.py:174-218 | an order being sent, or whose answer was lost, halts trading with every snapshot that lists neither it nor a fill of it |
| BrokerDesk.LostAnswerHaltsForGood | backend/app/reconciliation.py:132-150 | in every run, once the answer to sending an order was lost, every later comparison halts trading |
| BrokerDesk.UnnumberedSaysRow | backend/app/reconciliation.py:360-368 | a comparison sees an order without a number as its row says |
| BrokerDesk.AgainRevivesExactly | backend/app/account_projection.py:133-147 | projecting the same snapshot again revives an order that it ended exactly if it confirmed the cancel of a partly filled one; that is never a sale |
| BrokerDesk.ProjectionSettlesExactly | backend/app/account_projection.py:238-259 | a projection makes an own order an active sale that it was not, or one of another symbol, if and only if the broker takes something back: a filled sale listed as open or with fewer fills, or another symbol or side |
| BrokerDesk.OneSaleUnlessTakenBack | backend/app/decision_execution.py:222-232 | in every run of desk, sender and projections without such a snapshot no symbol has two active sales of the account's own |
| BrokerDesk.StopOversellsExactly | backend/app/account_projection.py:274-310 | for every projected snapshot and reported position: the stop after it sells what the replay saw as own (without own fills the part attributed before), capped by the holding; that is more than the own shares now stored if and only if the fills just recorded took some and the broker holds more than the rest, and it says how many |
| BrokerDesk.ManagedPartIsSeen | backend/app/account_projection.py:368-386 | the managed part after any projection is what the replay saw as own, or without own fills the part attributed before, capped by the holding |
| BrokerDesk.KnownRowsSeeBefore | backend/app/account_projection.py:331-365 | once every reported order and position has a row, the replay sees what was own before the snapshot |
| BrokerDesk.FlushedStopSellsOwnShares | backend/app/account_projection.py:296-298 | a position reported after one that the snapshot imports is never sold beyond its own shares |
| BrokerDesk.OwnSaleIsSoldAgainExactly | backend/app/account_projection.py:331-365 | if the projection stores one own sale that the replay did not see, too much is managed exactly if the replay saw anything as own and more than the rest is still held |
| BrokerDesk.QuietStopSellsOwnShares | backend/app/account_projection.py:331-365 | without news of own orders the managed part is own, whatever the snapshot imports |
| BrokerDeskStore.SenderTables.SendNextCreatedOrder | backend/app/broker/order_sender.py:168-181 | picks the oldest order still CREATED, and no other, and starts sending it; none exactly if there is none or the worker is not ready |
| BrokerDeskStore.SenderTables.SendLockedOrder | backend/app/broker/order_sender.py:302-316 | the first half of sending in place: a CREATED row becomes SUBMITTING before anything leaves |
| BrokerDeskStore.SenderTables.FinishSend | backend/app/broker/order_sender.py:361-411 | the second half in place: the answer is stored exactly if the lease is current, the row still SUBMITTING and the broker number new |
| BrokerDeskStore.SenderTables.CancelExpiredBuy | backend/app/broker/order_sender.py:212-241 | marking a given buy CANCEL_PENDING in place, exactly if it may be cancelled; which one is due is decided before |
| BrokerDeskStore.SenderTables.CancelNextExpiredBuy | backend/app/broker/order_sender.py:184-241 | of the cancellable buys whose deadline has passed the one with the earliest deadline, and among equal ones the oldest, is marked CANCEL_PENDING, and no other; none exactly if none is due or the worker is not ready |
| BrokerDeskStore.SenderTables.FinishCancel | backend/app/broker/order_sender.py:414-459 | storing the answer to a cancel in place |
| BrokerDeskRuns.SecondStopSellsForeignShares | backend/app/account_projection.py:274-310 | a concrete run from empty tables: of 150 shares 100 are own, a stop sells those, and the next stop sells the other 50 |
| BrokerDeskRuns.TakenBackLeavesTwoSales | backend/app/account_projection.py:113-117 | a concrete run in which a later snapshot reports fewer fills of the first sale, which leaves two active own sales of the symbol |
| OrderDeskStore.TradingDesk.CreateOrder | backend/app/order_creation.py:120-224 | the service appends exactly the requested row, returns the existing one, or refuses with the right code |
| OrderDeskStore.TradingDesk.ResolveRiskEvent | backend/app/risk_events.py:62-77 | resolving is idempotent and touches one row |
| OrderDeskStore.TradingDesk.SupersedeStaleTriggers | backend/app/stop_trigger.py:331-357 | the loop supersedes every live trigger of the position and policy and resolves their events |
| OrderDeskStore.TradingDesk.EmitFixedStopOrder | backend/app/stop_trigger.py:514-585 | the emission in place, with its failure paths |
| OrderDeskStore.TradingDesk.JudgeTrigger | backend/app/stop_trigger.py:588-673 | one evaluation of a trigger in place |
| OrderDeskStore.TradingDesk.EvaluateOne | backend/app/stop_trigger.py:360-501 | one position's evaluation in place, as spelled out for it; false exactly when the database refuses the trigger row |
| OrderDeskStore.TradingDesk.RunFixedStopTriggers | backend/app/stop_trigger.py:676-715 | a tick looks the policy up once and succeeds if and only if no open position is refused by the tables as they were before, hence always when versions are drafted for users; it then evaluates every open position once against its own quote and equals that run of the desk, and otherwise is rolled back entirely |
| OrderDeskStore.TradingDesk.RecoverOne | backend/app/stop_trigger.py:750-776 | one pending exit in place |
| OrderDeskStore.TradingDesk.RecoverExitPending | backend/app/stop_trigger.py:718-778 | with the gate READY every pending exit is looked at once against the quote of its symbol, otherwise none |
| OrderDeskStore.TradingDesk.RouteTradingDecision | backend/app/decision_execution.py:352-544 | routing in place does what is spelled out, and keeps nothing exactly when nothing could be bought |
| OrderDeskStore.TradingDesk.ApproveOrder | backend/app/approvals.py:302-467 | approving in place does what is spelled out; true exactly if the approval is APPROVED afterwards |
| OrderDeskStore.TradingDesk.RejectOrder | backend/app/approvals.py:470-507 | rejecting in place is the rejection step |
| OrderDeskStore.TradingDesk.ExpireStaleApprovals | backend/app/approvals.py:510-535 | the expiry loop is the expiry step |
| MinuteBars.UpsertRefines | backend/app/indicators.py:46-84 | one in-place bar upsert keeps the bar table equal to the batch view of all applied events |
| MinuteBars.SummaryMeans | backend/app/indicators.py:58-83 | a batch bar opens with the first, closes with the last, and has the extreme prices of exactly the trade events of its minute |
| MinuteBars.SummaryAdds | backend/app/indicators.py:58-83 | a batch bar counts exactly the trade events of its minute and adds up the shares and the money they bring |
| MinuteBars.TradedTelescopes | backend/app/indicators.py:41-45 | on a day that is steady from its first to its last event the added volumes telescope to last minus first cumulative volume |
| MinuteBars.UpsertAddsDelta | backend/app/indicators.py:41-83 | an upsert adds the event's volume to its own day and to no other |
| MinuteBars.VwapWithinDay | backend/app/indicators.py:98-102 | with positive volume the half-even rounded average price lies between the lowest low and highest high of the day |
| MinuteBars.VwapIsNearest | backend/app/indicators.py:98-102 | it is the day's money over its shares to the nearest unit, halves to even |
| MinuteBars.DayStartsAtKoreanMidnight | backend/app/indicators.py:41-45 | the trading date changes at midnight in Korea and only then |
| MinuteBars.BucketIsMinute | backend/app/indicators.py:36-46 | a bar is a minute of the clock |
| Watch.IngestKeeps | backend/app/watch.py:139-289 | every ingest keeps the head on the last applied snapshot, the applied events in order, identities unique and the bars equal to the batch view |
| Watch.AppliedExactly | backend/app/watch.py:166-202 | in every run a new valid event is NORMAL if and only if it is a recovery, the first one, or follows the last applied event with no gap seen since; LATE if and only if it is not newer; GAP_DETECTED otherwise |
| Watch.AnsweredExactly | backend/app/watch.py:139-165 | an event is stored, a duplicate or a conflict exactly by its identity and contents |
| Watch.RefusedExactly | backend/app/watch.py:103-136 | an event is refused exactly if one of its names, times, prices or quantities cannot be |
| Watch.DuplicateChangesNothing | backend/app/watch.py:142-154 | an event once stored is answered as DUPLICATE of its snapshot ever after and changes nothing |
| Watch.GapIsSticky | backend/app/watch.py:197-202 | with a gap no snapshot is NORMAL and neither head nor bars move until a recovery |
| Watch.BetweenRecoveries | backend/app/watch.py:166-202 | between recoveries applied events have one source, non-decreasing times and non-decreasing volume within a KST day |
| Watch.StreamInOrder | backend/app/watch.py:139-289 | the same in every run, with consecutive sequence numbers where two successive applied events carry them |
| Watch.BarsRefineBatch | backend/app/indicators.py:36-84 | after any run of ingests each bar is the fold of the applied trade events of its minute, with a turnover between low and high times its volume |
| Watch.DayVolumeIsTraded | backend/app/indicators.py:41-83 | after any run a day's bars add up to what its applied trade events brought |
| Watch.DayVolumeTelescopes | backend/app/indicators.py:41-45 | a day's bars add up to last minus first cumulative volume if that day's applied events are steady, whatever happens on other days |
| Watch.SteadyBetweenRecoveries | backend/app/watch.py:166-202 | a stretch without recoveries is steady if and only if only trade events move the volume within a day |
| Watch.VwapWithinRange | backend/app/indicators.py:98-102 | the bound on the average price in every run |
| WatchStore.QuoteFeed.UpsertBar | backend/app/indicators.py:36-84 | the field-by-field bar update is the upsert |
| WatchStore.QuoteFeed.AveragePrice | backend/app/indicators.py:86-102 | the sums over the day's bars give the average price |
| WatchStore.QuoteFeed.IngestQuote | backend/app/watch.py:139-289 | the service in place is the ingest step and records the average of every applied snapshot |
| PolicyVersions.ActivateKeeps | backend/app/risk_policy.py:124-171 | an activation keeps one active version per user and category, distinct bases of all activated versions, and the base links |
| PolicyVersions.DraftKeeps | backend/app/risk_policy.py:66-103 | a draft gets a larger sequence number than all of its line and the version active now as its base |
| PolicyVersions.StripsEndsOnly | backend/app/risk_policy.py:73-75 | the stored reason is the given one without the white space at its ends, and nothing else is removed |
| PolicyVersions.SpaceIsListed | backend/app/risk_policy.py:73-75 | the characters that count as white space |
| PolicyVersions.ValidateKeeps | backend/app/execution_policy.py:96-109 | a validation touches no version that was ever active |
| PolicyVersions.OneActivationPerBase | backend/app/execution_policy.py:112-159 | in every run of calls at most one version drafted from a base is ever activated, at most one is ACTIVE, and sequence numbers rise |
| PolicyVersions.SupersededNeverReturns | backend/app/risk_policy.py:147-152 | in every run a SUPERSEDED version stays so and an ACTIVE one only becomes SUPERSEDED |
| PolicyVersions.ActiveDescendsFromAll | backend/app/risk_policy.py:144-152 | following successors from any version that was ever active leads to the active one |
| PolicyVersions.LineageFalls | backend/app/risk_policy.py:76-99 | along the base links sequence numbers strictly fall, within one line |
| PolicyVersions.ActivationsFormOneChain | backend/app/risk_policy.py:124-171 | in every run the versions of a line that were ever active are exactly the base-linked lineage of the active one |
| PolicyStore.ConfigurationTable.CreateDraftVersion | backend/app/risk_policy.py:66-103 | drafting in place: the reason is stripped of white space at both ends and stored so, and refused exactly if nothing is left |
| PolicyStore.ConfigurationTable.ValidateVersion | backend/app/risk_policy.py:106-121 | validating in place, with its errors |
| PolicyStore.ConfigurationTable.ActivateVersion | backend/app/risk_policy.py:124-171 | activating in place, with its errors; afterwards that version is the active one |
| SchedulerLease.StepKeeps | backend/app/analysis_scheduler_state.py:63-215 | an acquisition raises the token by exactly one and nothing else changes it; the state token never falls nor passes the lease token |
| SchedulerLease.TokensRise | backend/app/analysis_scheduler_state.py:63-96 | in every run each acquisition gets a strictly larger token than all before it |
| SchedulerLease.OldTokenIsPowerless | backend/app/analysis_scheduler_state.py:112-119 | an older identity can never again renew, write or release |
| SchedulerLease.ForeignTokenIsPowerless | backend/app/analysis_scheduler_state.py:200-205 | nor can an identity that names a token granted to another owner |
| SchedulerLease.HolderIsUndisturbed | backend/app/analysis_scheduler_state.py:63-215 | until the lease expires no call of others changes the lease or the state row |
| SchedulerLease.OthersWaitExactly | backend/app/analysis_scheduler_state.py:63-128 | a lease acquired or renewed for some seconds keeps every other owner out until they are over and not longer, whatever others call meanwhile |
| SchedulerLease.HolderWorksExactly | backend/app/analysis_scheduler_state.py:99-187 | until then, and not longer, its holder renews and writes |
| SchedulerLease.ReleasedAtOnce | backend/app/analysis_scheduler_state.py:190-215 | a released lease goes to whoever asks next |
| SchedulerLease.WriteIsRead | backend/app/analysis_scheduler_state.py:131-187 | what a write leaves in the state row, field by field |
| SchedulerLease.WritersTakeTurns | backend/app/analysis_scheduler_state.py:131-187 | writes of different identities never interleave |
| SchedulerLease.StateTokenFollows | backend/app/analysis_scheduler_state.py:160-172 | in every run the recorded state token never decreases nor exceeds the lease token |
| SchedulerLease.SchedulerTables.AcquireSchedulerLease | backend/app/analysis_scheduler_state.py:63-96 | acquiring in place |
| SchedulerLease.SchedulerTables.RenewSchedulerLease | backend/app/analysis_scheduler_state.py:99-128 | renewing in place |
| SchedulerLease.SchedulerTables.UpdateSchedulerState | backend/app/analysis_scheduler_state.py:131-187 | writing the state row in place |
| SchedulerLease.SchedulerTables.ReleaseSchedulerLease | backend/app/analysis_scheduler_state.py:190-215 | releasing in place |

## Left out

- SQL locking, flush timing and races on unique constraints: each service call is one atomic step. Where a call processes rows that the database returns in no stated order, the in-place methods use some order (`RunFixedStopTriggers`: any; `RecoverExitPending`, `SupersedeStaleTriggers`, `ClaimNextStage`: row order; `ApplyBrokerAccountProjection`: any), and the properties of runs hold for every order of steps.
- Agent DAG versions before v4, multi-source evidence, run creation with its idempotency key, advisory fusion and the work inside a stage: a stage's outcome is any terminal result or exception; the verifier's bundle is part of it. A stage's timeout is given at creation instead of read from its route when it is claimed.
- Event rows, audit rows, invocation rows, guard-evaluation rows and counters that are only reported (`ProjectionResult`, run summaries): they are written and never read by the modelled code.
- Broker and market REST and WebSocket clients: a snapshot or quote is a record; what the adapter guarantees of a snapshot (unique identifiers and symbols, positive fill and position quantities) is a precondition of the projection.
- Rounding to the decimal places of the columns, decimal text forms in fill identities and payloads, and the 28-digit precision of divisions: values are compared as numbers.
- How row identifiers of fills compare is a parameter, because they are partly random; it only orders fills of the same second. What an order time means as a time of day is a parameter as well.
- Order fields without effect on the properties: unfilled policy and timeout, replacement sequence, trading date, order group.
- `Guards.EntryBlocked`: the exposures, the watch list, the emergency stop, the limits on positions, entries and losses, and the rules after the spread are inputs, because they come from read-only calculations over other tables; the market session and the quote's being the stream head are inputs too.
- POSITION_ID_MATCH of the sell rules: a position row is identified by its symbol, which is unique and never deleted, so the rule cannot fail.
- Exceptions of `WatchError` are one outcome for an invalid event; symbol, market and trading-status texts, the venue row of NXT quotes, and indicators other than the average price are not modelled.
- Streams of different markets and symbols share no rows: one stream is modelled.
- Policy payload contents and their schema: a stored payload always parses; the two policy services are one model with two categories.
- In `BrokerDesk` the worker's lease and readiness, and the gate that a lost answer sets to RECONCILING, are inputs. A buy waits for its fills exactly if it has a deadline, which is only set under the policy to cancel the rest. A snapshot that breaks the adapter's guarantees is taken as refused there.
- Release of a lease uses the caller's clock; clocks of different workers are unrelated in all theorems about the lease.
- Authentication, routers, the console, settings, migrations, the market calendar, venue selection and language-model profiles: not part of this model.
