# Verified models of the Zatiti control plane

This project models the parts of Zatiti whose correctness depends on what happens across many calls, crashes and
concurrent callers, and proves what those parts promise.

* **Accounting** (`Int64`, `AccountingModel`, `Limits`, `LevelMeaning`, `Positions`, `Ledger*`, `BudgetChanges`). A reservation charges an
  amount and a concurrency slot at a chain of shared positions and later settles, is released or becomes unknown. The
  position rows are incrementally kept aggregates in 64-bit arithmetic. `Ledger` is the specification of one transaction
  as a function on the tables; `LedgerService` is the service that updates its tables in place and rolls back; the other
  modules prove what every run of reserves and settles keeps, and `LedgerExamples` holds runs outside those conditions.
* **Durable commands** (`Evidence`, `Commands`, `Command*`). Public mutations share a command identity. Ordinary mutations
  commit effects and disposition together; local IO mutations use two transactions around an outside call. Callers are
  interleaved transaction by transaction and may crash between any two.
* **Dispatch** (`Dispatch`). The gate on nested internal calls and the call trees it allows for arbitrary handlers.
* **Release installer** (`Versions`, `VersionOrder`, `InstallPlan`, `InstallPlanner`, `PlanAgreement`, `FileSystem`,
  `Installer`, `InstallContainment`, `ReleaseTree`, `Upgrade*`, `Uninstallation`, `VersionHistory`, `InstallerService`,
  `InstallModes`, `ApplyOutcomes`, `CalmInstall`, `InstallExamples`). Version order, plans, the check on plans, and their application to a filesystem whose every
  intermediate state is a possible crash point.
* **Credential helper** (`HelperProtocol`, `HelperSafety`, `HelperPasses`, `HelperVault`, `HelperLive`, `HelperService`). A
  durable intent, a secret store and a remote controller whose replies may be lost, with a crash possible after any step.

Pure decision code is modelled by functions; code that changes tables, files or records step by step is a class whose
methods are proved equal to those functions, and the properties over whole runs are lemmas about the functions.

## Conventions

* Canonical JSON columns are the values they encode, digests are injective tags of what they cover, and identifiers are
  strings. Clocks, identity generators, peers, gates, handlers, storage faults, the service manager and the operating
  system answer as they please: their answers are parameters of the call or step and are never restricted, except that
  new identities are new and that the helper's controller does not revive a challenge that has ended.
* A transaction works on the tables in place and restores the saved ones on error. Tables are sequences of rows or maps by
  key; uniqueness is proved where the code enforces it, not assumed.
* 64-bit wrap-around is explicit where the code adds unchecked; versions and timestamps are unbounded integers.
* A zero child count or depth declared by a caller binds as a real zero, as `internal/accounting/limits.go:85-90` does,
  although the comment at `internal/accounting/limits.go:347-350` reads otherwise.
* The budget table may change arbitrarily between calls of a run; a cap theorem says which caps the calls of the run name.
* A path is a sequence of components; a relative path is one whose first component is not clean. An absolute source root
  stands for its cleaned form, as joining and comparing paths clean it. A filesystem is a map from paths to nodes. A step yields
  every state between its system calls, so a crash inside a step is covered.

## Results that differ from what the code intends

* A link swap whose rename succeeds and whose directory sync then fails is reported as failed without the installer knowing
  that the link moved, so a recovery that reports success leaves the new release active beside the old launchers
  (`packaging/apply.go:85-96`, `packaging/apply.go:401-417`). `RecoveredExactly` shows this is the only such case,
  `LateSwapRecovered` that it always ends so once the launchers come back, and `LateSwapCounterexample` gives an upgrade.
* The planner refuses a source tree inside the state directory but not a state directory inside the source tree; such a plan
  is built and then refused before it runs (`packaging/plan.go:167-169`, `packaging/apply.go:221-223`).
* The planner accepts a relative source root, since the test for one path inside another answers no when the two cannot be
  related (`packaging/service.go:322-331`); a plan that copies anything from it is refused before it runs
  (`packaging/apply.go:221-223`).
* Prerelease numbers beyond 64 bits compare as text (`packaging/plan.go:400-412`); `SemVerExactly` says for which pairs of
  versions that matters.
* Nothing bounds a report by the reserved amount: ledger conservation holds exactly for in-bound reports, the spend cap over
  whole runs is proved for them, and every out-of-bound report raises exposure (`internal/accounting/settle_ops.go:139-142`).
  `OverspendExceedsCap` and `OverspendBreaksConservation` are runs where each fails.
* A reservation booked without a currency may report an amount in it. If a position it charged is still unconfigured by then,
  that position is not pinned while it holds the amount and admits every currency (`internal/accounting/store.go:96-103`):
  `CurrenciesMix` is a run that ends with paid work of one installation in two currencies. If all of them have been pinned meanwhile, the
  report does no such harm (`DisciplineExact`).

## Model

| member | source | states |
|---|---|---|
| `Int64.AddCheckedExact` | internal/accounting/money.go:13-19 | The wrap-around test of a checked addition refuses exactly the sums outside the int64 range and otherwise returns the true sum. |
| `Int64.SubCheckedExact` | internal/accounting/money.go:23-29 | The same for a checked subtraction. |
| `Int64.NegativeTestExact` | internal/accounting/store.go:109-112 | For a non-negative counter the test that the wrapped sum is negative is exact: it fires exactly when the true sum is below zero or above the int64 maximum. |
| `Limits.EffectiveLimits` | internal/accounting/limits.go:370-413 | The loop that narrows one accumulator level by level returns the narrowing of the whole chain, with the deadline fallback where none was declared. |
| `Limits.NarrowMeaning` | internal/accounting/limits.go:65-139 | Narrowing a chain gives, for every field, the minimum over the levels that declare it, and fails exactly when two declared currencies differ. |
| `Limits.NarrowOrderIndependent` | internal/accounting/limits.go:370-413 | Any permutation of the levels narrows to the same result, failures included. |
| `Limits.NarrowOnlyTightens` | internal/accounting/limits.go:102-123 | Adding a level anywhere in the chain never raises a field that was already declared. |
| `LevelMeaning.ChainExact` | internal/accounting/limits.go:203-318 | A request has a chain if and only if what its scope names exists and the documents of no level disagree on the currency. The chain charges exactly installation, organizations from the root down, project, worker and root, and each level carries, field by field, the least value declared by its own snapshot limits and the active budget stored under its own identity, or the shipped default where neither declares one. |
| `LevelMeaning.BudgetBindsSpend` | internal/accounting/limits.go:238-254 | A newly admitted positive amount leaves no charged installation, organization, project or worker above the spend of the active budget stored under its own identity. |
| `LevelMeaning.BudgetHoldsSpend` | internal/accounting/limits.go:11-19 | Over any run with in-bound reports, an identity whose budget stays active within a bound never stands above that bound. |
| `LevelMeaning.BudgetHoldsSlots` | internal/accounting/limits.go:11-19 | Over any run, whatever is reported, an identity whose budget stays active within a concurrency never has more live slots. |
| `LevelMeaning.SealedExactly` | internal/accounting/limits.go:370-413 | What is sealed into a reservation is, field by field, the least value any level of its chain carries, or the shipped default where none does. |
| `LevelMeaning.SealedCurrency` | internal/accounting/limits.go:376-380 | The sealed currency is the one the levels name, unconfigured when they name none. |
| `PositionRows.ApplyAllExact` | internal/accounting/settle_ops.go:83-105 | The delta loop over the charged list succeeds exactly when every charged row exists and its true final counters lie in the int64 range and are not negative; then each row moves by its multiplicity in the list and no other row moves. |
| `PositionRows.AdmitAtMeaning` | internal/accounting/reserve_ops.go:263-298 | An admitted level adds the amount and one slot, keeps the row's currency, matches it unless unconfigured, and ends within the level's spend and concurrency caps. |
| `PositionRows.ChargeAllAdds` | internal/accounting/reserve_ops.go:148-154 | Charging a chain adds one admission per occurrence of a reference, duplicates counted. |
| `PositionRows.ChargeAllRows` | internal/accounting/store.go:81-104 | Charging a chain creates the rows it names, and rows it does not name are untouched. |
| `PositionRows.ChargeAllSpendCapped` | internal/accounting/reserve_ops.go:272-292 | After a positive amount is charged along a chain, no charged row stands above the spend cap the chain names for it. |
| `PositionRows.ChargeAllSlotsCapped` | internal/accounting/reserve_ops.go:293-297 | After a chain is charged, no charged row holds more slots than the concurrency cap the chain names for it. |
| `LedgerInvariant.TransitionBooks` | internal/accounting/settle_ops.go:129-308 | Every settlement branch's deltas are the difference between what the row booked before and what it books afterwards. |
| `LedgerInvariant.RecountUpdate` | internal/accounting/settle_ops.go:83-105 | Replacing one reservation by its successor moves the recount of each position by the successor's deltas, once per charge. |
| `LedgerInvariant.RecountCovers` | internal/accounting/store.go:109-119 | What a stored reservation booked is still contained in the recount of every position it charged, so it can be given back. |
| `LedgerInvariant.ReserveInv` | internal/accounting/reserve_ops.go:80-236 | A reserve call, accepted, replayed or refused, keeps the whole invariant: positions equal the recount, rows are well formed, ids and operation ids are unique. |
| `LedgerInvariant.SettleInv` | internal/accounting/settle_ops.go:21-78 | A settle call, accepted, replayed or refused, keeps the whole invariant. |
| `LedgerInvariant.AdmittedWithinSealedSpend` | internal/accounting/reserve_ops.go:139-158 | Every admitted amount is at most the effective spend sealed into its reservation. |
| `LedgerRuns.ReachableTallies` | internal/accounting/settle_ops.go:83-308 | In every reachable state the five counters of every position equal a recomputation over the reservation table with multiplicity in the charged list. |
| `LedgerRuns.SlotsAreLive` | internal/accounting/settle_ops.go:208-212 | The concurrency counter is the number of charges of reserved and unknown reservations: an unknown outcome keeps its slot. |
| `LedgerRuns.SettleExact` | internal/accounting/settle_ops.go:92-103 | A well-formed settle of a live reservation is refused by the delta step exactly when some true sum leaves the int64 range. |
| `LedgerRuns.NonexecutionNeverStuck` | internal/accounting/settle_ops.go:184-202 | In every state satisfying the invariant an authoritative nonexecution of a live reservation succeeds at every charged position and releases it. |
| `LedgerRuns.ExposureMoves` | internal/accounting/settle_ops.go:129-285 | A settlement leaves spent plus reserved plus unknown unraised exactly when its report stays within what the reservation holds; it never takes a slot. |
| `LedgerRuns.SettleMoves` | internal/accounting/settle_ops.go:21-78 | What one settle does to one position: nothing when it is refused or replayed, otherwise its deltas once per charge. |
| `LedgerRuns.SpendCapHolds` | internal/accounting/reserve_ops.go:263-298 | With caps that never exceed a bound and reports within what was held, spent plus reserved plus unknown never exceeds the bound at any point of any run. |
| `LedgerRuns.SlotsCapHolds` | internal/accounting/reserve_ops.go:293-297 | With caps that never exceed a bound, live slots never exceed it at any point of any run, whatever is reported. |
| `LedgerRuns.AdmissionWithinCap` | internal/accounting/reserve_ops.go:285-291 | A newly admitted positive amount ends within the cap, with no assumption on earlier reports. |
| `LedgerRuns.OutOfBoundRaisesExposure` | internal/accounting/settle_ops.go:139-142 | A committed report beyond what was held strictly raises the exposure of every position it charges, since nothing bounds spent by amount. |
| `LedgerExamples.OverspendExceedsCap` | internal/accounting/settle_ops.go:129-142 | A run where the whole-run cap fails: from empty tables, reserve any amount within a cap of one hundred and report any cost above it; the installation ends above its declared cap. |
| `LedgerExamples.OverspendBreaksConservation` | internal/accounting/settle_ops.go:145-169 | A run where conservation fails: whenever the reported cost exceeds the reserved amount, the entries record both in full and nothing released. |
| `LedgerRuns.RunExtends` | internal/accounting/store.go:226-246 | Over any run reservations are never deleted, keep what they were created with, and move only reserved to settled, released or unknown and unknown to settled or released. |
| `LedgerRuns.ReserveReplays` | internal/accounting/reserve_ops.go:91-108 | Once an operation is admitted, an identical request in any later state books nothing and returns the row as it now stands; a changed one conflicts and books nothing. |
| `LedgerRuns.TerminalSettleReplays` | internal/accounting/settle_ops.go:33-41 | A terminal settle repeated with the same usage is a no-op in every later state; different usage conflicts. |
| `LedgerOutcomes.ReserveDecides` | internal/accounting/reserve_ops.go:80-236 | An unseen request is admitted if and only if it is payable, what its scope names exists, the documents of each level and the levels among themselves agree on the currency of the amount, every level takes the amount, and its id is new; a refusal changes nothing. |
| `LedgerOutcomes.ReserveRefuses` | internal/accounting/reserve_ops.go:82-90 | A request without an installation or with a negative amount fails on its input, one for another installation on permission. |
| `LedgerOutcomes.ReserveLeaves` | internal/accounting/reserve_ops.go:160-236 | An admitted request leaves one row with its own fields at version one, charged at exactly the references of its chain, and one opening entry. |
| `LedgerOutcomes.ReservedScope` | internal/accounting/reserve_ops.go:197-211 | The row names the nearest organization of its chain and the project and worker its scope names. |
| `LedgerOutcomes.ChargeAllExactly` | internal/accounting/reserve_ops.go:148-154 | A chain is charged if and only if every level takes the amount on top of what the levels before it charged. |
| `LedgerOutcomes.AdmitExactly` | internal/accounting/reserve_ops.go:263-298 | A level admits an amount if and only if currency, spend, slot and counters all fit, and reports a full budget exactly when only spend or slot do not. |
| `LedgerOutcomes.SettleDecides` | internal/accounting/settle_ops.go:42-60 | A report on a live reservation is accepted if and only if it is made against the stored version, holds nothing back, reports nonexecution only without amounts, is in the reservation's currency if it has amounts, and leaves every recounted position in the int64 range; it is stale if and only if it names another version. |
| `LedgerOutcomes.SettleLeaves` | internal/accounting/settle_ops.go:61-78 | An accepted report replaces its row by the reported one, one version up and released, unknown or settled as the report says, and every position then holds the recount; a refused one changes nothing. |
| `LedgerOutcomes.SettleOtherwise` | internal/accounting/settle_ops.go:21-41 | A malformed report, one on no reservation and one on a closed reservation change nothing and answer invalid input, not found, and the row or a conflict. |
| `LedgerEntries.ReachableEntries` | internal/accounting/settle_ops.go:108-123 | In every reachable state the ledger entries of each reservation account for the amounts its row holds, in every state a reservation can reach. |
| `LedgerEntries.Conservation` | internal/accounting/settle_ops.go:145-169 | For a terminal reservation of any reachable state the reserved entry equals the spent plus released entries if and only if its reports stayed within what was held and no positive amount was settled directly by an advisory report, on the direct path or through unknown. |
| `LedgerCurrency.PinNeverChanges` | internal/accounting/store.go:81-104 | Over any run a position pinned to a real currency keeps it. |
| `LedgerCurrency.DisciplineExact` | internal/accounting/settle_ops.go:21-78 | A committed settle keeps unconfigured positions free of amounts if and only if it reports no amount for a reservation booked without a currency, or every position that reservation charged has been pinned to a real currency meanwhile; then the whole discipline goes on. |
| `LedgerCurrency.DisciplineHolds` | internal/accounting/reserve_ops.go:111-146 | If every settle of a run meets that condition, the currency discipline holds at every point of the run. |
| `LedgerCurrency.OneCurrency` | internal/accounting/reserve_ops.go:268-271 | Under that condition all positive reservations an installation ever made share one configured currency. |
| `LedgerExamples.CurrenciesMix` | internal/accounting/store.go:96-103 | A run where the condition fails: a reservation booked without a currency reports a cost, the budget then selects one currency and later another, and for any two currencies the run ends with a priced reservation of the installation in each. |
| `LedgerService.Service.EnsurePosition` | internal/accounting/store.go:81-104 | Inserts a missing row or pins the currency of an unconfigured row without amounts, and returns the row that is stored. |
| `LedgerService.Service.ApplyPositionDeltas` | internal/accounting/store.go:109-119 | The five wrapped additions with their negative tests store the true sums, or refuse and leave every position as it was. |
| `LedgerService.Service.CheckSpend` | internal/accounting/reserve_ops.go:272-292 | The chained checked additions against a level's cap decide as the exact sums do. |
| `LedgerService.Service.ChargeLevel` | internal/accounting/reserve_ops.go:263-298 | One level charged in place agrees with the level's specification, row by row. |
| `LedgerService.Service.LevelsForScope` | internal/accounting/limits.go:203-305 | Builds the chain of levels a scope is charged at, or the fault that stops it, with the references and caps that ChainExact describes. |
| `LedgerService.Service.ChargeChain` | internal/accounting/reserve_ops.go:148-154 | The loop over the chain stores what charging the whole chain gives or stops with its fault. |
| `LedgerService.Service.HandleReserve` | internal/accounting/reserve_ops.go:80-236 | One reserve transaction: the reply and the stored tables are those of the specification, which ReserveDecides and ReserveLeaves describe, and a refusal at any level leaves every table as it was. |
| `LedgerService.Service.SettleDeltas` | internal/accounting/settle_ops.go:83-105 | The loop over charged references stores what applying the deltas to all of them gives or stops with its fault. |
| `LedgerService.Service.AppendEntries` | internal/accounting/settle_ops.go:108-123 | Appends exactly the entries of a transition, in order, and changes nothing else. |
| `LedgerService.Service.HandleSettle` | internal/accounting/settle_ops.go:21-78 | One settle transaction: the reply and the stored tables are those of the specification, which SettleDecides and SettleLeaves describe, and an error leaves every table as it was. |
| `BudgetChanges.ApplyChangeMeaning` | internal/accounting/budget_ops.go:73-146 | A change is applied exactly when validation finds nothing wrong with it; it touches only its own row, raises its stored version by one from the prior row, one on first creation, and returns a reference to what is stored. |
| `BudgetChanges.AppliesExactly` | internal/accounting/budget_ops.go:21-146 | Validation and activation accept a change if and only if it is a budget definition whose positive spend has a currency, created at version zero where nothing is active or replacing the active version it expects; a change is stale if and only if it expects another version. |
| `BudgetChanges.DiagnosesExactly` | internal/accounting/budget_ops.go:150-162 | A diagnostic names a change if and only if that change cannot be applied to the current state. |
| `BudgetChanges.ActivationKeepsPaid` | internal/accounting/budget_ops.go:86-88 | No activation, however long, ever stores a budget with something to spend and no currency. |
| `BudgetChanges.ValidationAgrees` | internal/accounting/budget_ops.go:150-177 | For a candidate with distinct ids the diagnostics are empty exactly when sequential activation succeeds. |
| `BudgetChanges.CleanCandidateActivatesIffDistinct` | internal/accounting/budget_ops.go:167-177 | Of a candidate without diagnostics, activation succeeds exactly when no id is named twice. |
| `BudgetChanges.ActivatedRow` | internal/accounting/budget_ops.go:73-146 | After an activation with distinct ids each named row holds that change's limits and activity at one version above its prior row, and the returned reference names it. |
| `BudgetChanges.ActivateFrame` | internal/accounting/budget_ops.go:167-177 | Activation leaves rows it does not name as they were. |
| `BudgetChanges.BudgetStore.HandleValidate` | internal/accounting/budget_ops.go:150-162 | Reports one diagnostic per failing change, in order, and changes nothing. |
| `BudgetChanges.BudgetStore.HandleActivate` | internal/accounting/budget_ops.go:167-177 | Applies all changes or, on the first failure, none. |
| `CommandInvariant.FirstFinish` | internal/evidence/handlers.go:105-165 | Finishing a command reserved in the same transaction adds exactly one record with its first disposition under a free identity and id. |
| `CommandInvariant.SecondFinish` | internal/evidence/store.go:169-184 | Finishing a committed command replaces a pending accepted disposition and nothing else. |
| `CommandInvariant.AdmitMutationMoves` | internal/application/compose.go:26-64 | The transaction of an ordinary mutation either commits nothing, delivering at most the retained envelope of the identical request, or commits the handler's effects together with their disposition under a free identity, acknowledged or not. |
| `CommandInvariant.AdmitIOMoves` | internal/application/localio.go:50-98 | The first transaction of a local IO mutation commits nothing or commits the preparation with an accepted disposition, and only then may the caller perform. |
| `CommandInvariant.RecordRefusalMoves` | internal/application/compose.go:241-287 | Recording a refusal commits nothing or retains the failed envelope without any effect. |
| `CommandInvariant.FinishIOMoves` | internal/application/localio.go:103-145 | The completion transaction commits nothing or replaces the pending disposition; an acknowledged reply equals what is retained up to kept-back data. |
| `CommandInvariant.RecordFinishRefusalMoves` | internal/application/localio.go:152-178 | Refusing a completion commits nothing or replaces the pending disposition by that refusal. |
| `CommandOutcomes.MutationExactly` | internal/application/compose.go:26-64 | An ordinary mutation commits if and only if the gates are open, its identity is free and its id new, the handler's result succeeded without an error, and the commit is not rejected; it adds exactly that result and its effects, and an acknowledged caller receives exactly that result. |
| `CommandOutcomes.PreparationExactly` | internal/application/localio.go:50-98 | A local IO mutation commits its preparation under the same conditions; only a caller that committed it, was acknowledged and got a plan performs. |
| `CommandOutcomes.RefusalExactly` | internal/application/compose.go:241-287 | A refusal is retained if and only if the identity is free, the id new and the commit not rejected; it carries the fault and nothing else. |
| `CommandOutcomes.GateStops` | internal/application/compose.go:64-80 | A closed gate stops a call with its own fault, retained exactly for the nine codes an identical call would meet again. |
| `CommandOutcomes.HandlerStops` | internal/application/compose.go:46-64 | So does a handler or preparation that fails on a free identity, and a handler that reports a failure. |
| `CommandOutcomes.StorageStops` | internal/application/compose.go:64-80 | So does a rejected commit. |
| `CommandOutcomes.FailedIOExactly` | internal/application/localio.go:116-125 | Completing local IO that failed makes the record failed with the local IO's own data and fault, whatever the finish step answers, and an acknowledged caller receives exactly that envelope. |
| `CommandOutcomes.FinishedIOExactly` | internal/application/localio.go:126-145 | Completing local IO that succeeded replies with the finish step's result and retains it, with the data to retain in place of its data when the local IO gives any. |
| `CommandOutcomes.UnfinishedIOExactly` | internal/application/localio.go:103-145 | A closed gate, a failed finish step, a failed or unusable result and a rejected commit complete nothing, and stop the call with their own fault. |
| `CommandOutcomes.FinishRefusalExactly` | internal/application/localio.go:152-178 | A refused completion replaces the record by the refusal exactly when the record is still pending and the commit not rejected. |
| `CommandRuns.StepInv` | internal/application/localio.go:29-145 | Every step of any caller, crashes included, keeps the protocol invariant over records, effects and callers in flight. |
| `CommandSafety.AtMostOnce` | internal/application/localio.go:18-28 | Under every interleaving, every crash and every lost commit acknowledgement, the handler's effects, the preparation, the local IO and the completion of an identity happen at most once each, local IO only under its committed preparation, and never beside an ordinary handler. |
| `CommandSafety.EffectsMatchRecord` | internal/application/compose.go:26-64 | In every reachable state an identity has committed effects exactly when its record exists and is not a bare refusal. |
| `CommandSafety.EveryReplyIsBacked` | internal/application/localio.go:132-139 | Every envelope any caller ever received belongs to the retained command of its identity and digest: it is the retained one, exactly the first one that was replaced, or differs from the retained one in kept-back data only. |
| `CommandSafety.RunExtends` | internal/evidence/store.go:42-57 | Over any run records are only added, a pending one is replaced at most once, no other record changes, and effects are only appended. |
| `CommandSafety.TerminalForever` | internal/evidence/store.go:42-57 | A disposition that is not pending never changes in any run. |
| `CommandSafety.LaterCall` | internal/application/gates.go:241-256 | A later call on a taken identity, admitted or refused, changes neither records nor effects, and delivers the retained envelope only to the same request. |
| `CommandSafety.ReplayExact` | internal/application/submission.go:95-129 | Past the gates, a call on a taken identity receives the retained envelope if its digest is the bound one and a submission conflict otherwise. |
| `CommandSafety.TerminalReplaysForever` | internal/application/compose.go:41-46 | Once terminal, every later identical call past the gates receives that very envelope, whatever ran in between. |
| `CommandSafety.RefusedCallKeepsRecord` | internal/application/compose.go:241-293 | Recording a refusal on a taken identity leaves the record; the caller gets its own fault, or the retained envelope when that is this very refusal. |
| `CommandSafety.AbandonedForever` | internal/application/localio.go:24-28 | A record no running caller owns, such as one left by a crash after Prepare, is never performed, completed or touched again by any run. |
| `CommandSafety.CrashLeavesAccepted` | internal/application/localio.go:61-68 | After a crash between the two transactions an identical call, whatever ran in between, receives what was retained at the crash and nothing is performed again; that is the accepted disposition, unless the caller was refusing a completion whose commit was not acknowledged. |
| `CommandOutcomes.FailedIOReplaysForever` | internal/application/localio.go:116-125 | Once failed local IO is completed, every later identical call past the gates receives that failure, whatever the finish step said and whatever ran in between. |
| `CommandOutcomes.FaultRetainedExactly` | internal/application/compose.go:241-287 | A fault at the gates is retained under a free identity if and only if its code is one of the nine an identical call would meet again; otherwise the identity stays free. |
| `CommandService.Application.CommandBegin` | internal/application/gates.go:219-257 | Joins the retained command of the identical request, reserves a free identity, or refuses and changes nothing. |
| `CommandService.Application.CommandFinish` | internal/application/gates.go:263-283 | Writes the first disposition of a reserved command or the one replacement of a pending one, or refuses and changes nothing. |
| `CommandService.Application.AdmitOrdinary` | internal/application/compose.go:26-64 | The write transaction of an ordinary mutation, rolled back on error, commits what the protocol step commits. |
| `CommandService.Application.AdmitLocalIO` | internal/application/localio.go:50-98 | The admission transaction of a local IO mutation, rolled back on error, commits what the protocol step commits. |
| `CommandService.Application.RetainRefusal` | internal/application/compose.go:241-287 | The short refusal write commits and answers as the protocol step does. |
| `CommandService.Application.CompleteLocalIO` | internal/application/localio.go:103-145 | The completion transaction, rolled back on error, commits and answers as the protocol step does, which FailedIOExactly, FinishedIOExactly and UnfinishedIOExactly describe. |
| `CommandService.Application.RetainFinishRefusal` | internal/application/localio.go:152-178 | The short completion refusal commits and answers as the protocol step does. |
| `CommandService.Application.InvokeMutation` | internal/application/compose.go:12-80 | A whole ordinary invocation goes through exactly the protocol's admission and refusal steps of an uninterrupted caller and answers what they end with. |
| `CommandService.Application.InvokeLocalIO` | internal/application/localio.go:29-145 | A whole local IO invocation goes through exactly the protocol's five steps, skipping those that do not apply, and answers what they end with. |
| `Dispatch.Gate` | internal/application/dispatch.go:279-321 | The gate, scanning the chain and the allowlist, admits a nested call exactly when all its checks pass and then extends the chain by that operation. |
| `Dispatch.CallerAllowed` | internal/application/dispatch.go:252-259 | The scan answers exactly whether the caller is listed. |
| `Dispatch.EveryHandlerBound` | internal/application/dispatch.go:279-342 | Whatever handlers and resolvers attempt, every chain has distinct operations and at most 32, everything runs in the root's transaction and installation, and no mutation runs beneath a read snapshot. |
| `Dispatch.TreePinned` | internal/application/effect_subject.go:25-51 | Every frame but the root was called by another frame of the tree that its operation lists as a caller at its version, on that frame's unit, or on that same unit under the subject its owner resolved; a handler runs under a subject only while its authority holds. |
| `Dispatch.UnlistedNeverNested` | internal/application/dispatch.go:296-303 | Public operations and operations that list no caller never run nested, whatever handlers attempt. |
| `Dispatch.EffectsNeedSubject` | internal/application/dispatch.go:329-341 | The effect operations are never handled nested except under a resolved subject, effect preparation included when only execution may call it. |
| `Dispatch.EveryListedRuns` | internal/application/dispatch.go:279-342 | Every call of every frame that is listed, joins the frame's unit, repeats no operation of the chain, stays within the depth and does not mutate under a snapshot does run, or has its subject resolved first. |
| `Versions.MatchesIsAccepted` | packaging/manifest.go:183 | The test on a version string accepts exactly the strings built from three plain decimals and optional dotted alphanumeric identifiers. |
| `Versions.RenderParse` | packaging/plan.go:381-384 | Cutting and splitting an accepted version loses nothing: rendering its parts gives the string back. |
| `VersionOrder.CompareNumericIsValue` | packaging/plan.go:422-427 | Core components of any length compare as the numbers they denote. |
| `VersionOrder.ComparesParts` | packaging/plan.go:381-418 | Comparing two accepted strings compares their parts in order, a release above its prereleases. |
| `VersionOrder.CompareTotal` | packaging/plan.go:381-418 | On accepted versions swapping the arguments negates the answer, and a version ties with itself. |
| `VersionOrder.CompareTransitive` | packaging/plan.go:381-418 | The comparison is transitive on accepted versions, strictly so unless both steps tie. |
| `VersionOrder.CompareTies` | packaging/plan.go:400-413 | Two accepted versions tie exactly when they differ in nothing but leading zeros of 64-bit prerelease numbers. |
| `VersionOrder.FollowsSemVer` | packaging/plan.go:379-418 | Where prerelease numbers fit 64 bits the comparison is the precedence of section 11 of SemVer 2.0.0. |
| `VersionOrder.IdentifierPrecedence` | packaging/plan.go:398-412 | On single identifiers the comparison agrees with SemVer exactly where no number beyond 64 bits is ranked as text against its value. |
| `VersionOrder.SemVerExactly` | packaging/plan.go:381-418 | The comparison agrees with SemVer precedence both ways round if and only if the cores differ or the first identifiers it tells apart are not such a pair, one oversized number spelled with different leading zeros counting only if the rest disagrees. |
| `VersionOrder.OversizedMisorders` | packaging/plan.go:400-412 | Every pair of versions with one core whose prereleases first differ in a number beyond 64 bits against a word that precedes it as text is ordered against SemVer, whatever follows. |
| `VersionOrder.OversizedCounterexample` | packaging/plan.go:400-412 | A concrete pair of versions for which that happens. |
| `VersionOrder.Compare` | packaging/plan.go:381-418 | The comparison with its two loops computes the specified order on all strings. |
| `InstallPlan.StateContained` | packaging/apply.go:157-229 | No step of a checked plan, hand-built ones included, touches a path in the state directory, siblings and created ancestors counted, except the removal of exactly that directory by an uninstall flagged to remove state. |
| `InstallPlan.TouchedRegion` | packaging/layout.go:100-135 | Every other step of a checked plan touches only the distribution and launcher directories, what lies in them, and their ancestors. |
| `InstallPlanner.CollectDirs` | packaging/plan.go:230-236 | The walk up from each file, stopping at a directory already seen, collects exactly the directories between the staging directory and the files. |
| `InstallPlanner.PlanRelease` | packaging/plan.go:209-261 | Plans a release exactly when nothing is installed or the version is higher, as an install or an upgrade, with the staging, directory, copy, manifest and publish steps in order. |
| `InstallPlanner.PlanInstallation` | packaging/plan.go:150-203 | Plans if and only if layout, release, host and services are acceptable, the source tree lies outside the distribution and state directories, and the version is new, higher, or the intact active one; the last plans nothing, every other plan has the planned shape. |
| `InstallPlanner.PlanUninstallation` | packaging/plan.go:322-361 | Plans if and only if layout and services are valid and the confirmation is given exactly for the removal of state and names the exact state directory; the plan removes launchers, link and distribution in order, and the state directory last. |
| `PlanAgreement.PlannedPassesCheck` | packaging/apply.go:221-223 | A planned install or upgrade passes the check before it runs if and only if no listed file's source lies in the state directory and, when anything is listed, the source root is a clean absolute path. |
| `PlanAgreement.StateInsideSource` | packaging/plan.go:167-169 | Every otherwise acceptable input whose state directory lies beneath the source tree is planned, and every such plan is refused by the check once a listed file lies in that directory. |
| `PlanAgreement.RelativeSource` | packaging/service.go:322-331 | Every otherwise acceptable input whose source root is relative is planned, and every such plan with a listed file is refused by the check. |
| `PlanAgreement.UninstallPassesCheck` | packaging/plan.go:322-361 | A planned uninstall always passes the check before it runs. |
| `PlanAgreement.LinksContained` | packaging/apply.go:200-211 | Every link a checked plan makes, hand-built ones included, leads to a clean path inside the distribution. |
| `PlanAgreement.ServicesContained` | packaging/apply.go:173-183 | Every service action of a checked plan names the launcher of its own service in the launcher directory. |
| `PlanAgreement.LaunchersBracketed` | packaging/plan.go:185-195 | Every launcher a planned upgrade rewrites has its service unloaded before and loaded after; an install only loads. |
| `InstallExamples.StateInsideSourceExample` | packaging/plan.go:167-169 | A concrete release unpacked in the home directory that is planned and then refused. |
| `InstallExamples.RelativeSourceExample` | packaging/service.go:322-331 | A concrete release unpacked under a relative path that is planned and then refused. |
| `FileSystem.RunStepFrame` | packaging/apply.go:231-275 | Every state a step goes through, crashes between its system calls included, differs only on paths the step may touch. |
| `FileSystem.UnsyncedFails` | packaging/apply.go:374-417 | A step whose last directory sync fails is never reported as done. |
| `FileSystem.PlantedLinkStops` | packaging/apply.go:277-319 | A link planted on the way from a layout directory down to a step's path stops the step before it touches anything. |
| `FileSystem.StrayStepStops` | packaging/apply.go:231-240 | A cancelled step, or one outside the layout directories, does nothing. |
| `InstallContainment.StateUntouched` | packaging/apply.go:30-145 | Applying any plan not flagged to remove state leaves everything in the state directory as it was in every state on disk, recovery included. |
| `InstallContainment.ApplyKeeps` | packaging/apply.go:30-145 | A path that no step touches, outside the link and the launcher directory, stays as it was through the whole application and its recovery. |
| `InstallModes.NothingOpened` | packaging/apply.go:224-226 | In every state of a checked plan's application, recovery included, every file or directory that others may write, or with a special bit, was on the disk before. |
| `ApplyOutcomes.SucceedsExactly` | packaging/apply.go:30-106 | An application that is not a repeat succeeds if and only if the plan passes its check over the still active release with its manager there, every preparation step runs, an upgrade finds its launchers, every service is unloaded, every step runs, and every service is loaded. |
| `ApplyOutcomes.RecoversExactly` | packaging/apply.go:85-145 | An upgrade whose steps or loads fail after its unloads is reported as recovered if and only if the link, when a swap completed, the saved launchers and the services come back, and as not recovered otherwise. |
| `ApplyOutcomes.UnloadFailsExactly` | packaging/apply.go:75-84 | If an unload fails, what was unloaded before it is brought back; if the first one fails the application fails with nothing to bring back. |
| `ApplyOutcomes.FailsExactly` | packaging/apply.go:30-106 | It fails outright exactly when it does not reach its switch, its first unload fails, or an install or uninstall fails in its steps or loads. |
| `ApplyOutcomes.NoopExactly` | packaging/apply.go:40-42 | A repeat of the active release touches nothing and succeeds exactly when the release verifies. |
| `CalmInstall.CalmInstallSucceeds` | packaging/apply.go:30-106 | A planned install or upgrade from a clean source outside the state directory succeeds whenever nothing outside it fails, the listed files are in place, the ways to the distribution and launchers are free, and the release it was planned over is active. |
| `CalmInstall.CalmUninstallSucceeds` | packaging/plan.go:322-361 | A planned uninstall succeeds whenever nothing outside it fails and what it removes is of the expected kind. |
| `ReleaseTree.ManifestTreeContents` | packaging/manifest.go:302-343 | The tree of a valid manifest holds its files with digest and mode, its own text, the directories between as directories of the standard mode, and nothing else. |
| `ReleaseTree.PreparedRelease` | packaging/plan.go:220-260 | If a planned preparation succeeds the release directory holds exactly the manifest's tree, whatever an interrupted run left there or in the staging directory. |
| `ReleaseTree.RenameMovesTree` | packaging/apply.go:250-253 | Publishing moves exactly the staged tree to the free release name. |
| `UpgradeSafety.OtherReleasesKept` | packaging/plan.go:144-149 | Every other release on disk, the previous one among them, stays as it was in every state of an install or upgrade and its recovery. |
| `UpgradeSafety.CrashConsistent` | packaging/apply.go:54-145 | In every state of a planned install or upgrade, whether it crashes, fails or is recovered, the active link is as it was found or names the new release with exactly its tree published. |
| `UpgradeRecovery.RecoveredExactly` | packaging/apply.go:123-145 | When an upgrade fails after services were unloaded and recovery succeeds, every rewritten launcher is as before, and the link is as before if and only if the link swap did not fail in its final directory sync. |
| `UpgradeRecovery.FailedSwap` | packaging/apply.go:401-417 | A failed link swap leaves the old link unless only its final sync failed, and then the new link is in place. |
| `UpgradeRecovery.LateSwapUnnoticed` | packaging/apply.go:85-96 | Whenever the swap of an upgrade fails in its final sync, the switch is reported as recovered if and only if the saved launchers are rewritten and reloaded, and then the new link stays. |
| `UpgradeRecovery.LateSwapRecovered` | packaging/apply.go:54-106 | Every planned upgrade that prepared, unloaded its services and then failed in that sync ends reported as recovered with the new release active, once the launchers come back. |
| `InstallExamples.LateSwapCounterexample` | packaging/apply.go:401-417 | A concrete plannable upgrade with one launcher, a disk and a sync failure for which the application reports recovery and the link has moved to the new release. |
| `UpgradeRecovery.SuccessInstalls` | packaging/apply.go:85-105 | A successful application ends with the link on the new release, exactly its tree published, and every launcher as planned. |
| `Uninstallation.UninstallRemoves` | packaging/plan.go:322-361 | A successful uninstall leaves no launcher, link or file of the distribution; the state directory is gone if its removal was confirmed and otherwise untouched. |
| `VersionHistory.VersionNeverFalls` | packaging/plan.go:209-219 | Over any sequence of planned installs and upgrades, each interrupted anywhere, the active version never ranks below the one at the start. |
| `VersionHistory.InspectExactly` | packaging/plan.go:98-129 | Inspection finds a release exactly when the active link names an accepted version, none exactly when there is no link, and fails otherwise. |
| `InstallerService.Disk.EnsureDirectory` | packaging/apply.go:324-332 | Creates missing ancestors and pins the mode of an owned directory, state by state as specified. |
| `InstallerService.Disk.RemoveDirectory` | packaging/apply.go:433-445 | Removes a whole directory tree, part of it when interrupted, and refuses anything that is not a directory. |
| `InstallerService.Disk.CopyVerified` | packaging/apply.go:337-372 | Copies a file only onto a free path and keeps it only if size and digest are the planned ones. |
| `InstallerService.Disk.WriteAtomic` | packaging/apply.go:374-397 | Writes beside and renames into place; a failed sync reports an error after the file changed. |
| `InstallerService.Disk.SwapLinkTo` | packaging/apply.go:401-417 | Builds the link beside and renames it into place; refuses to replace anything but a link. |
| `InstallerService.Disk.Perform` | packaging/apply.go:231-275 | Runs one step as specified, or refuses it when cancelled or redirected by a link. |
| `InstallerService.Disk.PerformAll` | packaging/apply.go:86-96 | Runs steps up to the first failure and knows exactly whether a completed one swapped a link. |
| `InstallerService.Disk.SaveLaunchers` | packaging/apply.go:59-74 | Saves every launcher an upgrade will rewrite, or fails if one is missing or not a regular file. |
| `InstallerService.Disk.RestoreUpgrade` | packaging/apply.go:123-145 | Puts the link back if it moved, rewrites the saved launchers and reloads, as specified. |
| `InstallerService.Disk.ApplyPlan` | packaging/apply.go:30-106 | Applies a plan with the specified outcome, which SucceedsExactly, RecoversExactly, UnloadFailsExactly and FailsExactly describe, passing through exactly the specified states. |
| `HelperSafety.StepInv` | cmd/zatiti/helper_engine.go:18-140 | Every step of the helper, every crash and every change at an honest controller keeps the invariant, and moves the durable intent only as its stages allow. |
| `HelperSafety.WrittenOnce` | cmd/zatiti/helper_engine.go:36-58 | Across any number of crashes, lost replies and resumes, no intent's credential is effectively written twice. |
| `HelperSafety.OneRequestPerKey` | cmd/zatiti/helper_engine.go:86-94 | Everything ever submitted under one key is one and the same request. |
| `HelperSafety.AlwaysValid` | cmd/zatiti/helper_intent.go:59-78 | The durable intent is valid in every reachable state. |
| `HelperSafety.OnlyForward` | cmd/zatiti/helper_prepare.go:47-90 | Every reachable step fills in the intent's fields at most once each and removes it only when its challenge completed with its credential effective, or ended. |
| `HelperSafety.PendingAdvances` | cmd/zatiti/helper_intent.go:27-42 | While an intent is pending, over any run, what it is bound to stays and filled-in fields keep their values. |
| `HelperSafety.OverForever` | cmd/zatiti/helper_engine.go:220-238 | What justified a removal is never taken back. |
| `HelperVault.DiscardExactly` | cmd/zatiti/helper_engine.go:220-238 | A discard lets its intent go if and only if it knows the captured reference and that one is empty, effective, or deleted and confirmed. |
| `HelperVault.DiscardCleans` | cmd/zatiti/helper_engine.go:229-238 | A discard that lets its intent go leaves no entry holding the captured reference, unless that reference is the effective one. |
| `HelperVault.LostOnlyDiscarded` | cmd/zatiti/helper_engine.go:220-238 | At every point of every history an entry is lost or changed only by a discard, only if it holds the reference the ended setup captured, and never if it holds the effective reference read for that discard. |
| `HelperVault.AppearsOnlyPut` | cmd/zatiti/helper_engine.go:47-57 | An entry appears only by writing the pending setup's credential under its own name. |
| `HelperVault.CarriedWasRead` | cmd/zatiti/helper_prepare.go:24-27 | The reference a discard spares is the connection's credential as this pass read it from the controller. |
| `HelperVault.NeverOrphaned` | cmd/zatiti/helper_engine.go:220-238 | In every reachable state every credential ever written is the pending setup's, is gone, has been effective, or carries no reference. |
| `HelperVault.SessionsLeaveNoOrphans` | cmd/zatiti/helper_engine.go:220-238 | However many passes are made and wherever each is killed, no unused credential is left behind without its intent. |
| `HelperVault.SessionsLoseOnlyDiscarded` | cmd/zatiti/helper_engine.go:220-238 | And no pass loses an entry but the captured reference of an ended setup, never the one it read as effective. |
| `HelperLive.SubmitsOnlyReady` | cmd/zatiti/helper_engine.go:117-123 | Only the intent's own begin and completion requests are ever submitted, each from its own point. |
| `HelperLive.CompletesLive` | cmd/zatiti/helper_engine.go:95-123 | A completion is submitted only after the controller was seen not to retain it and its challenge still to await it at the recorded version and expiry. |
| `HelperLive.WritesLive` | cmd/zatiti/helper_engine.go:36-57 | A credential is written only after its name was found empty, and before that its challenge was seen to await it on a connection that had not changed. |
| `HelperLive.BeginsUnretained` | cmd/zatiti/helper_prepare.go:40-58 | setup.begin is submitted only for an unchanged connection and after the controller was seen not to retain it. |
| `HelperLive.OwnInstallation` | cmd/zatiti/helper_prepare.go:17-23 | Whatever is on disk, a pass only ever works on an intent of the installation it was started for. |
| `HelperLive.CooperativePass` | cmd/zatiti/helper_engine.go:18-140 | If everyone cooperates, one pass from an untouched connection captures the credential, completes the setup with it and comes to removing its intent. |
| `HelperService.Helper.Store` | cmd/zatiti/helper_intent.go:187-227 | Refuses an invalid intent; an unsynced write changed the disk and still fails. |
| `HelperService.Helper.Open` | cmd/zatiti/helper_prepare.go:17-23 | Starts from the stored intent, or stops when it is malformed or belongs elsewhere. |
| `HelperService.Helper.GetOrCreate` | cmd/zatiti/helper_prepare.go:24-39 | Resumes the stored intent or makes a new one durable with fresh keys, a fresh name and its begin digest pinned. |
| `HelperService.Helper.ReconcileBegin` | cmd/zatiti/helper_prepare.go:40-58 | Checks the pinned begin request and the account, and submits only what the controller does not already retain. |
| `HelperService.Helper.KeepChallenge` | cmd/zatiti/helper_prepare.go:59-74 | Makes a live challenge durable before anything else happens. |
| `HelperService.Helper.CheckStatus` | cmd/zatiti/helper_prepare.go:75-99 | Removes on a completed challenge with the matching credential, discards on an ended one, continues only on the recorded live one. |
| `HelperService.Helper.FindCredential` | cmd/zatiti/helper_engine.go:36-46 | Looks the credential up under its durable name before any write. |
| `HelperService.Helper.WriteCredential` | cmd/zatiti/helper_engine.go:47-57 | Writes the credential once, under a name never written before, even if the acknowledgement is lost. |
| `HelperService.Helper.PinRequest` | cmd/zatiti/helper_engine.go:65-94 | Pins the exact completion request before it is submitted and refuses a changed one. |
| `HelperService.Helper.CheckBeforeReplay` | cmd/zatiti/helper_engine.go:104-123 | Consults the challenge before submitting a completion the controller does not retain. |
| `HelperService.Helper.DiscardTerminal` | cmd/zatiti/helper_engine.go:220-238 | Deletes the captured credential of an ended setup unless it is the effective one, then lets the intent go, as DiscardExactly and DiscardCleans describe. |
| `HelperService.Helper.Clear` | cmd/zatiti/helper_intent.go:229-241 | Removes the intent of a setup that is over. |
| `HelperService.Helper.Prepare` | cmd/zatiti/helper_prepare.go:13-99 | From the lock to a live challenge, a removal, a discard or an error, in exactly the protocol steps of the preparation. |
| `HelperService.Helper.Capture` | cmd/zatiti/helper_engine.go:36-64 | From a live challenge to a durable credential reference, in exactly the protocol steps of the capture. |
| `HelperService.Helper.Finish` | cmd/zatiti/helper_engine.go:65-140 | From a credential reference to a confirmed completion, in exactly the protocol steps of the completion. |
| `HelperService.Helper.RunOnce` | cmd/zatiti/helper_engine.go:18-140 | One pass is exactly the protocol run of its steps; it reports success if and only if it durably removed an intent whose challenge completed with that intent's own credential effective. |
| `HelperPasses.TakeAllIsRun` | cmd/zatiti/helper_engine.go:18-140 | The turns of a pass, skipping those that do not apply, do what the protocol does with the events they amount to. |
| `HelperPasses.WholePass` | cmd/zatiti/helper_engine.go:18-140 | A pass that is not killed is a session like any other, so the results for sessions cover it. |
| `HelperPasses.SessionsWriteOnce` | cmd/zatiti/helper_engine.go:36-58 | However many passes are made and wherever each is killed, no credential name is effectively written twice. |
| `HelperPasses.SessionsSubmitOneRequest` | cmd/zatiti/helper_engine.go:86-94 | Over any number of passes, each killed anywhere, a submission key carries one request. |

## Left out

- Signing, digests, canonical JSON and schema validation: digests are injective tags and canonical JSON is value equality.
- Entry notes, entry ids and timestamps, and event emission: no property depends on them.
- Usage schema bounds are checked at the boundary of a settle, as the operation's schema does; other input schemas are not modelled.
- Pricing (`internal/accounting/money.go:49-67`) and budget proposals: one-step computations without state.
- The policy, identity and configuration owners: gates and peers are arbitrary answers.
- Re-ensuring a pending review after a refusal (`internal/application/compose.go:88-101`): it writes nothing the command protocol reads.
- Local IO queries and the bootstrap operation: they create no durable command.
- Units are compared by value where the program compares object identity; equal units are interchangeable in the model.
- Symlink resolution, file ownership, umask and advisory locks: a path names its node literally, directories get the mode they are given, and one installer or helper runs at a time.
- A launcher that is itself a symlink: the model treats it as not a regular file, where the program reads through the link.
- Partial states inside one recursive directory creation or one file copy's data: only the states between system calls are modelled.
- The lock file in the home directory and the verification of a repeat install: a repeat install changes nothing and its checks are a given answer.
- Launcher rendering and service checks: the planner receives the rendered launchers of distinct valid services.
- The order of planned directory creation: the planner lists the directories in some order, and the results hold for every order.
- Desktop plans: their steps are covered by the plan check and state containment, not by the release tree and recovery results.
- InstallModes.NothingOpened: covers controller layouts only, because a desktop bundle brings the modes of its archive.
- Mac package inspection, the release watermark, downloads and bundle formats: format plumbing and single comparisons.
- Uninstall over whole runs: the version history is between uninstalls.
- Reading and writing the helper's intent file (ownership, canonical form, size bound): a write succeeds, fails, or fails after taking effect.
- A secret store whose lookup misses a credential it holds, and deletions of credentials by anyone but the helper.
