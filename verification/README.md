# Local Model Works: verified protocols and allocators

Local Model Works is a controller with node agents that places model-serving workloads on
machines, downloads what they need, and starts and stops them. This project models the parts of it
where concurrency, crashes or search make the code hard to trust by reading, and proves what they
are for. `dafny verify dfyconfig.toml` checks all of it.

| module | part of the system |
|---|---|
| `DownloadTables`, `DownloadProtocol` | the controller's destination locks and download items: guarded SQL statements, and every interleaving of executors, cancels, disconnects, reconnects and devices |
| `Acquisition`, `Paths` | the agent's durable acquisition attempts through crash, restart, redelivery and cancel; nested destinations |
| `Templates`, `BindingRecovery`, `BindingSharpness` | recovery of template variables from a frozen installation, a fixpoint over Go's random map order, and where that order starts to matter |
| `Planner`, `PlacementOptimality`, `PlanReadiness`, `PortSharing` | accelerator allocation, its optimality, what a ready plan means, and when it publishes a port twice |
| `DispatchGate` | the coalescing per-rank gate and the workers-first wake-up |
| `StopBookkeeping`, `StopSerial`, `StopInterleavings`, `StopRaces` | desired state, observed state and rank phases: every handler as one step, as an uninterrupted goroutine, and statement by statement under every interleaving and crash |
| `DigestCache` | the agent's digest cache under concurrent callers and writers |
| `ResumablePull`, `Publish`, `FetchPool`, `FetchOvershoot` | peer pull with checkpoints, publishing into a live cache by hard links to the staged files, the Hugging Face pool and what it reports |
| `CanonicalJson`, `StringOrder` | canonical JSON and a reader that inverts it |
| `Broker`, `Extensions` | the command-result broker and the extension stop barrier |

Conventions. Objects that the source updates in place are classes. Their methods keep the invariant of
the module, state what a caller learns, and are tied to the functions on a value of the same state that
the theorems over whole runs are about. Concurrent code is a
step system: each step is one critical section, SQL statement, file-system call or message, and the
theorems hold for every finite sequence of enabled steps. SHA-256 and git blob hashes are injective constructors. Clocks,
random identifiers, network answers and I/O failures are parameters or nondeterministic steps.

Where a property fails in the code, the model keeps the code and the failure is a lemma:

- A cancel or reconnect that releases the lock of a never-dispatched item does not check that the row
  has left the working states (`internal/downloads/execution.go:329`, `internal/downloads/execution.go:443`).
  `UncheckedReleaseAllowsTwoWriters` is the run that then lets items of two runs write one destination.
  `GuardIsExact` and `SafeIffSnapshotsClosed` say exactly when such a release is safe.
- A gate pass that ends in an error forgets every wake-up made since it began (`FailureDropsWakeUps`, for
  every reachable gate). `NoLostWakeUp` is exact: without a further pass due, those are the only ones forgotten.
- Binding recovery depends on the map order when a frozen value holds template text
  (`NonInertValuesBreakOrder`) or when a template lets values form it (`DollarBeforeVariable`,
  `BraceAfterVariable`, `AdjacentVariables`). Values that hold neither
  `$` nor `{` are no way out, since they may be empty (`EmptyValueJoins`). `SealIsExact` says which templates
  can, and `OrderIsIrrelevant` covers the others.
- The destination-overlap test does not see a worker on the root directory (`OverlapIsNesting` is exact).
- A manifest that lists the snapshot record's place once more, as an ordinary entry with another one after
  it, publishes the record early; `RecordLastIff` is exact.
- Publishing links the staged file itself into the cache. If a crash leaves the staging behind and the next
  manifest lists another size, the re-pull cuts the published file (`RepullCutsPublished`);
  `SurvivesRepullIff` is exact, and `PublishIsCrashSafe` shows that one manifest never does this.
- A server that sends one byte too many makes the pool report more than the announced total.
  `NeverMore` and `ReportsPastTotal` give the exact maximum, one byte for each of the at most sixteen
  non-empty files fetched at once; `WithinTotalIffNothingToFetch` says when the total is kept.
- An empty file that is missing, and of which no partial file exists, is never fetched, so the pool never
  completes (`EmptyFileBlocks`).
- The deployment row is written by several goroutines, and `dispatchMu` covers only phase writes and the
  completion check. With handlers that interrupt one another a deployment can pass for stopped while a rank
  is not, also after all of them have returned: a completion check that finishes over a start
  (`FinishOverRestart`), a diagnostic note that writes back a state it has read (`NoteOverReopened`), a
  result read before the stop and applied after it (`StaleResultReopens`); and a start may commit over a rank
  reopened since its guard (`StartOverReopened`). `KeptIffClean` names exactly the writes that break the
  bookkeeping, `FinishIffNotRestarted` and `GuardHoldsIffNotReopened` say exactly when a finishing write and
  a guard hold, on every interleaving. A live report breaks it for a moment (`LiveReportWindow`). When
  handlers follow one another none of this happens (`HandlerAlone`, `GuardsSeeStoppedRanks`).
- A ready plan may publish one host port of a node twice, since leases are named once
  (`ReadyPlanSharesPort`); `PortsOnceIff` is exact.

The package comment of `internal/cjson/cjson.go` says that numbers are in shortest round-trip form; the
code writes a number's text as it finds it, and the model follows the code.

## Model

| member | source | states |
|---|---|---|
| `DownloadTables.Unlock` | internal/downloads/execution.go:28-53 | the unlock transaction removes exactly the caller's own lock, in any of its states, and no other lock |
| `DownloadTables.StatementKeeps` | migrations/021_download_items.sql:86-161 | every statement keeps download locks on their own item's place and each command or transfer with one item, keeps identities and bindings once written, never revives work that left the working states, and never changes a finished row |
| `DownloadTables.HistoryKeeps` | migrations/021_download_items.sql:86-161 | the same over every sequence of statements |
| `DownloadTables.Database.AcquireDestinationLock` | internal/db/downloads.sql.go:13-45 | keeps those invariants; succeeds only on a free place, which the caller then owns; a download that succeeds holds its lock and is still working |
| `DownloadTables.Database.CancelDestinationLock` | internal/db/downloads.sql.go:113-140 | keeps those invariants; a cancelled lock still owns its place, and its item can bind no writer any more |
| `DownloadTables.Database.QuiesceDestinationLock` | internal/db/downloads.sql.go:650-686 | keeps those invariants; a quiesced lock still owns its place, and its item can bind no writer any more |
| `DownloadTables.Database.ReleaseDestinationLock` | internal/db/downloads.sql.go:728-755 | keeps those invariants; only the owner's lock goes, and its item owns no place afterwards |
| `DownloadTables.Database.UnlockDestination` | internal/downloads/execution.go:28-53 | keeps those invariants; fails exactly on a foreign lock, otherwise the caller's lock and nothing else is gone |
| `DownloadTables.Database.BindDownloadItemCommand` | internal/db/downloads.sql.go:47-78 | keeps those invariants; the bound item owns its destination, and no other item has the command |
| `DownloadTables.Database.BindDownloadItemTransfer` | internal/db/downloads.sql.go:80-111 | keeps those invariants; the bound item owns its destination, and no other item has the transfer |
| `DownloadTables.Database.TransitionDownloadItem` | internal/db/downloads.sql.go:757-800 | keeps those invariants, so a late compare-and-set never revives or changes finished work; a change means the row still had the state that was read |
| `DownloadTables.Database.InterruptDownloadItemsForRun` | internal/db/downloads.sql.go:346-360 | keeps those invariants; afterwards no item of the run is active, and no other item has changed |
| `DownloadProtocol.StepShape` | internal/downloads/execution.go:191-449 | every step of every thread keeps locks, executors, devices and snapshots tied to existing items |
| `DownloadProtocol.StepConsistent` | internal/downloads/execution.go:191-305 | every step keeps what an executor's position and the device say about the row |
| `DownloadProtocol.ClosedStays` | internal/downloads/execution.go:356-380 | an item that has no writer and can get none stays so under every step |
| `DownloadProtocol.OwnershipStays` | internal/downloads/peer.go:28-135 | a bound item without terminal acknowledgement keeps its lock under every step, when releases rest on closed rows |
| `DownloadProtocol.StepKeepsInv` | internal/downloads/disconnect.go:12-65 | one guarded step keeps the whole invariant |
| `DownloadProtocol.RunKeepsInv` | internal/downloads/execution.go:191-449 | every guarded run keeps the whole invariant |
| `DownloadProtocol.NoSecondWriter` | internal/db/downloads.sql.go:650-671 | on every guarded interleaving a bound, unacknowledged item owns its destination, so two items never write one destination |
| `DownloadProtocol.OpenSnapshotBreaks` | internal/downloads/execution.go:306-355 | a release resting on a row that can still get a writer leads to a writer without its lock |
| `DownloadProtocol.SafeIffSnapshotsClosed` | internal/downloads/execution.go:430-449 | from any consistent state in which bound items own their places and no queued item with a pending release is blocked by an unacknowledged download: no continuation breaks ownership if and only if every pending release rests on a closed row |
| `DownloadProtocol.GuardIsExact` | internal/downloads/execution.go:430-449 | reading a row for a foreign release keeps the invariant if and only if the row has left the working states |
| `DownloadProtocol.UncheckedReleaseAllowsTwoWriters` | internal/downloads/execution.go:430-449 | a reachable state in which items of two different runs write one destination, without that check |
| `Acquisition.Agent.LoadAcquisition` | internal/agent/acquisition.go:45-71 | keeps the invariant of the device; an attempt found is active exactly when it has a live worker, so one read back after a crash is not |
| `Acquisition.Agent.BeginAcquisition` | internal/agent/acquisition.go:72-107 | is one delivery of the proved step system, with the overlap loop: work starts only for a command that never started before, and no live worker's destination overlaps |
| `Acquisition.Agent.FinishAcquisition` | internal/agent/acquisition.go:108-126 | is one completion of the proved step system: the worker is gone, the attempt is done, and it succeeded exactly when there was no error and the record was saved |
| `Acquisition.Agent.CancelAcquisition` | internal/agent/acquisition.go:127-146 | is one cancel of the proved step system: refused only when nothing of the command runs, and a live worker's attempt is handed out to be waited for |
| `Acquisition.NextKeepsInv` | internal/agent/acquisition.go:45-161 | every event, crash included, keeps: done is closed exactly when not active, workers are active attempts, active destinations do not overlap |
| `Acquisition.AfterKeeps` | internal/agent/acquisition.go:45-161 | the same over every run, with what a run cannot change about a recorded command |
| `Acquisition.StartsOnce` | internal/agent/acquisition.go:72-107 | over every run of begin, finish, cancel, crash and restart a command ID starts work at most once |
| `Acquisition.CancelIsFinal` | internal/agent/download.go:35-86 | once a cancel is acknowledged no redelivery or restart starts or continues the command |
| `Acquisition.PinsNeverChange` | internal/agent/acquisition.go:72-87 | identity, destination and binding of a recorded command never change |
| `Acquisition.WorkersWriteApart` | internal/agent/acquisition.go:88-107 | no file lies under the destinations of two running workers |
| `Acquisition.OverlapIsNesting` | internal/agent/acquisition.go:88-100 | the overlap test on clean paths is true nesting, if and only if neither or both are the root |
| `Acquisition.RedeliveryGivesVerdict` | internal/agent/download.go:35-86 | whatever happens after an attempt has finished, every redelivery starts nothing and is answered with the first verdict if its record was saved; if it was not, with the failed write until a restart and as interrupted after one |
| `Paths.JoinInjective` | internal/agent/transfer.go:428-431 | a joined path determines its components |
| `Paths.WithinIsPrefix` | internal/agent/transfer.go:428-431 | the textual test is component-wise containment, except below the root |
| `Paths.SharedFileNests` | internal/agent/transfer.go:428-431 | two roots with a common file below them are nested |
| `Templates.TemplateVars` | internal/recipe/recipe.go:421-438 | the sorted list holds exactly the variables found in the text, each once |
| `Templates.FlatParse` | internal/recipe/recipe.go:421-438 | splitting a text into literals and variables loses nothing |
| `Templates.FindVarsFlat` | internal/recipe/recipe.go:421-438 | on templates where no text forms a `${` of its own the textual search finds exactly the variable segments |
| `Templates.ReplaceAllFlat` | internal/deploy/installation_update_specs.go:200-210 | textual replacement of one variable is segment substitution |
| `Templates.CountFlat` | internal/deploy/installation_update_specs.go:216-218 | the textual count of a variable is its number of segments |
| `Templates.CutAround` | internal/deploy/installation_update_specs.go:219-219 | cutting at a variable that occurs once gives the text before and after it |
| `Templates.SubstOneSealed` | internal/deploy/installation_update_specs.go:200-212 | putting in values keeps a template one in which values cannot form a `${` |
| `BindingRecovery.Examine` | internal/deploy/installation_update_specs.go:199-231 | a token is bound only when it has no binding yet |
| `BindingRecovery.BindProgress` | internal/deploy/installation_update_specs.go:197-233 | each binding strictly lowers the pair of unbound original variables and ready observations |
| `BindingRecovery.PassProgress` | internal/deploy/installation_update_specs.go:197-233 | a sweep changes nothing, or reports a change and strictly lowers that measure |
| `BindingRecovery.RecoverInstallationBindings` | internal/deploy/installation_update_specs.go:164-235 | the loop computes the specified fixpoint and terminates |
| `BindingRecovery.SequentialIsSimultaneous` | internal/deploy/installation_update_specs.go:201-212 | replacing variables one after another is replacing them at once |
| `BindingRecovery.SubstituteClean` | internal/deploy/installation_update_specs.go:200-212 | the textual substitution loop is that simultaneous substitution |
| `BindingRecovery.ReadOne` | internal/deploy/installation_update_specs.go:219-223 | one unknown is solved as the text between the known ends |
| `BindingRecovery.ReadMany` | internal/deploy/installation_update_specs.go:216-218 | two or more unknown occurrences are never guessed |
| `BindingRecovery.StepBelow` | internal/deploy/installation_update_specs.go:199-231 | below a settling assignment an observation is never refused and binds only what the assignment says |
| `BindingRecovery.RecoversLeastSettled` | internal/deploy/installation_update_specs.go:164-235 | success gives the least assignment settling every observation; failure means that none exists |
| `BindingRecovery.OrderIsIrrelevant` | internal/deploy/installation_update_specs.go:164-171 | any two orders of the observations succeed together and with the same bindings |
| `BindingRecovery.RecoversOnlyTruth` | internal/deploy/installation_update_specs.go:161-163 | values rendered from some true bindings are never refused and only true values come back |
| `BindingSharpness.SealIsExact` | internal/deploy/installation_update_specs.go:200-212 | a template is sealed if and only if no values free of `${` can form a `${` in it that is not one of its variables |
| `BindingSharpness.JunctionDecidesOrder` | internal/deploy/installation_update_specs.go:197-233 | whenever a value forms a variable in another template, one order of the two observations succeeds and the other fails |
| `BindingSharpness.DollarBeforeVariable` | internal/deploy/installation_update_specs.go:197-233 | so it is with a `$` directly before a variable, for all surrounding texts and names |
| `BindingSharpness.BraceAfterVariable` | internal/deploy/installation_update_specs.go:197-233 | so it is with a `{` directly after a variable |
| `BindingSharpness.AdjacentVariables` | internal/deploy/installation_update_specs.go:197-233 | so it is with two adjacent variables |
| `BindingSharpness.EmptyValueJoins` | internal/deploy/installation_update_specs.go:197-233 | so it is with a variable between `$` and `{`, even if values hold neither |
| `BindingSharpness.NonInertValuesBreakOrder` | internal/deploy/installation_update_specs.go:197-233 | with template text inside a value one order is accepted and the other refused, for all variables |
| `Planner.FreeAfter` | internal/deploy/service.go:318-330 | exactly the free devices not yet handed out in this plan |
| `Planner.PickIndices` | internal/deploy/service.go:351-368 | every device picked for required indices is a free one of the node that was not handed out |
| `Planner.FirstFit` | internal/deploy/service.go:439-454 | the first candidate with enough left, none before it being eligible |
| `Planner.Lookup` | internal/deploy/service.go:296-300 | a candidate of the node, or proof that there is none |
| `Planner.Missing` | internal/deploy/service.go:427-432 | no missing-rank error if and only if every rank is covered |
| `Planner.Allocation.Remaining` | internal/deploy/service.go:318-330 | the loop over a node's devices computes what is left |
| `Planner.Allocation.Allocate` | internal/deploy/service.go:331-382 | one rank allocated in place, or nothing changed |
| `Planner.Allocation.Best` | internal/deploy/service.go:439-454 | the selection loop finds the first fit |
| `Planner.Allocation.PlaceOne` | internal/deploy/service.go:438-467 | one rank of automatic placement in place |
| `Planner.Allocation.PlaceAutomatically` | internal/deploy/service.go:433-468 | the whole automatic placement in place |
| `Planner.Allocation.PlaceOverrides` | internal/deploy/service.go:384-432 | operator overrides in place: placements and every problem reported |
| `PlacementOptimality.TakingFrom` | internal/deploy/service.go:310-330 | handing out n devices leaves n fewer on that node and changes no other |
| `PlacementOptimality.SortIsStable` | internal/deploy/service.go:434-437 | candidates are ordered by free devices, most first, and ties keep their order |
| `PlacementOptimality.GreedyFillsCapacity` | internal/deploy/service.go:438-468 | from any allocation exactly min(ranks, remaining groups) ranks are placed |
| `PlacementOptimality.NoAssignmentBeats` | internal/deploy/service.go:305-382 | no family of disjoint device groups is larger than the sum over nodes of floor(free / n) |
| `PlacementOptimality.AutomaticPlacementIsOptimal` | internal/deploy/service.go:433-468 | automatic placement places min(ranks, sum of floor(free / n)) ranks and no assignment places more |
| `PlacementOptimality.WholeNodePlacementIsOptimal` | internal/deploy/service.go:433-468 | in all-accelerators mode exactly min(ranks, nodes) ranks are placed, and no assignment of disjoint whole nodes places more |
| `PlanReadiness.FreeOn` | internal/deploy/service.go:226-254 | exactly the matching, accepted devices without a lease |
| `PlanReadiness.Candidates` | internal/deploy/service.go:195-281 | the candidates are exactly those of the listed nodes that qualify |
| `PlanReadiness.FindCandidates` | internal/deploy/service.go:195-281 | the nested loops compute the candidates |
| `PlanReadiness.PortConflicts` | internal/deploy/service.go:640-647 | no port conflict if and only if no used port is leased |
| `PlanReadiness.FilterKeepsConflict` | internal/deploy/service.go:680-695 | dropping ownerless duplicates never empties a non-empty conflict list |
| `PlanReadiness.UpstreamExcludes` | internal/runs/upstream_leases.go:5-33 | a whole-node lease conflicts with exactly the node's device, port and node leases |
| `PlanReadiness.LeaseResources` | internal/deploy/plan.go:293-322 | the resources are the plan's entries, each once, in ascending order |
| `PlanReadiness.AllocServes` | internal/deploy/service.go:331-382 | an allocation gives free devices of that node: the number asked for, one for each index asked for, or all the node has free; none twice unless an index was asked for twice; and marks them |
| `PlanReadiness.IndicesOnce` | internal/deploy/service.go:351-368 | a rank is given a device twice if and only if an index was asked for twice |
| `PlanReadiness.OverridesSound` | internal/deploy/service.go:384-426 | override placements have distinct listed ranks and disjoint devices |
| `PlanReadiness.PlaceSound` | internal/deploy/service.go:433-468 | automatic placements have distinct listed ranks and disjoint devices |
| `PlanReadiness.ReadyIff` | internal/deploy/service.go:779-780 | ready if and only if all ranks are placed without error, no used port or node is leased, and no active endpoint is hit |
| `PlanReadiness.ReadyPlanPlacesEveryRank` | internal/deploy/service.go:384-473 | a ready plan places every rank of a duplicate-free list exactly once, in rank order, on an online node with matching unleased devices: the number, the indices or the whole node asked for, no device twice in a rank or in two ranks |
| `PlanReadiness.ReadyPlanLeasesAreFree` | internal/deploy/plan.go:293-322 | no lease a ready plan would take is held, except possibly the fabric or, for numbers no schema admits, a port outside 32 bits |
| `PlanReadiness.ReadyPlanPortsAreFree` | schemas/recipe/v1alpha1.schema.json:445-450 | with the ports a recipe may declare, no lease a ready plan would take is held, except possibly the fabric |
| `PlanReadiness.ReadyUpstreamIsAlone` | internal/deploy/service.go:765-777 | a ready authored workload shares its nodes with no device, port or node lease |
| `PlanReadiness.ReadyKeepsRankList` | internal/deploy/service.go:283-294 | without overrides a ready plan repeats a rank exactly as often as the recipe's list |
| `PortSharing.PortsOnceIff` | internal/deploy/service.go:603-640 | a plan publishes every host port of a node once if and only if no rank lists a port twice and no two publishing ranks on one node list ports that lie as far apart as the ranks |
| `PortSharing.ReadyPlanSharesPort` | internal/deploy/plan.go:293-322 | for all ranks and ports such a distance apart there is a ready plan that publishes one port twice |
| `DispatchGate.Live.Call` | internal/deploy/acquisition.go:177-185 | the critical section of a wake-up in place: note it or start a goroutine, other keys untouched |
| `DispatchGate.Live.Leave` | internal/deploy/acquisition.go:211-219 | the critical section ending a pass in place: go round again or leave |
| `DispatchGate.StepKeepsInv` | internal/deploy/acquisition.go:168-222 | every step keeps one gate per key and accounts for every call |
| `DispatchGate.NoLostWakeUp` | internal/deploy/acquisition.go:168-222 | at most one gate; unless a further pass is certain, and at rest none is, a call has no later pass if and only if it was made during the newest pass and that pass failed |
| `DispatchGate.FailureDropsWakeUps` | internal/deploy/acquisition.go:211-219 | from every reachable gate, when a pass fails no further pass is due, and exactly the calls made before it began have had a pass |
| `DispatchGate.TakeKeeps` | internal/deploy/service.go:1614-1634 | every step of handlers and gate keeps: prepared head and started workers mean START sent, a pass due, or a handler due |
| `DispatchGate.HeadIsNeverForgotten` | internal/deploy/service.go:1946-1954 | workers first: in every run the prepared head's START was sent or is certain to be considered; with nothing in flight it was sent |
| `StopBookkeeping.Aggregate` | internal/deploy/service.go:2539-2574 | rank states never aggregate to stopped |
| `StopBookkeeping.HealthyIffAllActive` | internal/deploy/service.go:2539-2574 | healthy if and only if every rank runs and one is ready |
| `StopBookkeeping.Deployment.Finish` | internal/deploy/service.go:2865-2903 | keeps the bookkeeping; afterwards observed is stopped if and only if every rank is recorded stopped |
| `StopBookkeeping.Deployment.Confirm` | internal/deploy/service.go:1652-1665 | keeps the bookkeeping; the rank is recorded stopped, and observed is stopped if and only if every rank is |
| `StopBookkeeping.Deployment.Next` | internal/deploy/service.go:1649-1679 | keeps the bookkeeping; under a stop the rank is confirmed, or was sent a stop, or has a host preparation in flight whose result sends it |
| `StopBookkeeping.Deployment.NextAll` | internal/deploy/service.go:2946-2952 | keeps the bookkeeping; under a stop this holds of every rank given |
| `StopBookkeeping.Deployment.Stop` | internal/deploy/service.go:2909-2956 | keeps the bookkeeping; desired is stopped, and unless cancelling the run failed every rank is confirmed, was sent a stop or has a host preparation in flight, and observed is stopped if and only if every rank is |
| `StopBookkeeping.Deployment.Start` | internal/deploy/service.go:2965-2999 | keeps the bookkeeping; passes exactly when desired is not running and observed is stopped, and then every rank was recorded stopped and all phases begin anew |
| `StopBookkeeping.Deployment.Fail` | internal/deploy/service.go:2691-2731 | keeps the bookkeeping; the rank is recorded stopped, desired is stopped, and every other rank is confirmed, was sent a stop or has a host preparation in flight |
| `StopBookkeeping.Deployment.Report` | internal/deploy/service.go:2734-2862 | keeps the bookkeeping; a terminal report of the current run records the rank stopped; a confirmed stop is reopened exactly by a live report of the current run |
| `StopBookkeeping.Deployment.Acknowledge` | internal/deploy/service.go:1761-1944 | keeps the bookkeeping; no result, however late, changes a confirmed stop, and an accepted stop records its rank |
| `StopBookkeeping.Deployment.Wake` | internal/deploy/service.go:1946-1954 | keeps the bookkeeping; changes nothing, or sends rank 0 a stop |
| `StopBookkeeping.ResultKeeps` | internal/deploy/service.go:1761-1944 | every command result, however late, keeps the bookkeeping |
| `StopBookkeeping.ReportKeeps` | internal/deploy/service.go:2734-2862 | every report, however stale, keeps the bookkeeping |
| `StopBookkeeping.StopKeeps` | internal/deploy/service.go:2909-2956 | a stop request keeps the bookkeeping |
| `StopBookkeeping.StopReaches` | internal/deploy/service.go:2909-2956 | a stop request leaves no rank that is neither confirmed nor sent a stop nor preparing its host |
| `StopBookkeeping.HandleKeepsInv` | internal/deploy/service.go:1540-1680 | every handler, taken as one step, keeps: observed stopped means desired stopped and every rank stopped |
| `StopBookkeeping.GuardsSeeStoppedRanks` | internal/deploy/service.go:3104-3111 | when handlers follow one another, then from creation on start and delete pass their guards only when every rank is recorded stopped |
| `StopBookkeeping.StopCompletes` | internal/deploy/service.go:1932-1937 | once every rank has acknowledged its stop, in any order and however often, the deployment is observed stopped |
| `StopBookkeeping.ConfirmedStopHolds` | internal/deploy/service.go:2754-2765 | a confirmed stop is reopened by an event about a placed rank if and only if it is a start, a live report of the current run, or a failed transfer |
| `StopBookkeeping.LiveReportWindow` | internal/deploy/service.go:2758-2763 | between the two writes of a live report the bookkeeping does not hold |
| `StopSerial.ProgramDoes` | internal/deploy/service.go:1540-1680 | the statements of a handler, one after the other, amount to its one step |
| `StopSerial.HandlerAlone` | internal/deploy/service.go:1540-1680 | a handler that no goroutine interrupts changes the row exactly as its one step, releases the lock and returns |
| `StopInterleavings.StepKeepsIff` | internal/deploy/service.go:1725-1758 | in whatever state the other goroutines are, a statement keeps the bookkeeping if and only if it is not a write of stopped over a rank that is not, nor a phase write that reopens a rank under it |
| `StopInterleavings.KeptIffClean` | internal/deploy/service.go:1725-1758 | on every interleaving the bookkeeping holds at every moment if and only if no such write occurs |
| `StopInterleavings.StepKeepsSys` | internal/deploy/service.go:2864-2903 | every statement of every goroutine, crash included, keeps the lock with one goroutine and what a completion check knows between its read and its last write |
| `StopInterleavings.FinishIffNotRestarted` | internal/deploy/service.go:2864-2903 | on every interleaving from creation on, the last write of a completion check keeps the bookkeeping if and only if no start was committed since its read |
| `StopInterleavings.GuardHoldsIffNotReopened` | internal/deploy/service.go:2965-3086 | whatever runs after the guard of a start or delete has passed, every rank is recorded stopped at its write if and only if nothing reopened one since; passing the guard again would be enough |
| `StopRaces.RestIsReachable` | internal/deploy/service.go:2909-2956 | a stop right after creation reaches a world at rest |
| `StopRaces.FinishOverRestart` | internal/deploy/service.go:2864-2903 | from every world at rest a late terminal report, a start and its gate leave, all returned, a deployment that passes for stopped while a rank is preparing |
| `StopRaces.StartOverReopened` | internal/deploy/service.go:3073-3086 | from every world at rest a start commits over a rank that was reported running, and sent a stop, since its guard |
| `StopRaces.NoteOverReopened` | internal/deploy/service.go:2396-2408 | from every world at rest a note and a live report leave, both returned, a deployment that passes for stopped while a rank is stopping |
| `StopRaces.StaleResultReopens` | internal/deploy/service.go:1761-1944 | from creation a START result read before a stop and applied after it leaves, both returned, a deployment that passes for stopped while a rank is stopping |
| `DigestCache.Index.Find` | internal/agent/digest_cache.go:49-58 | a known path keeps its entry; a new one gets a fresh empty entry, emptying a full index first; never more than 8192 |
| `DigestCache.DiskStepKeeps` | internal/agent/digest_cache.go:79-103 | every write, replacement or removal keeps what calls have read tied to file versions |
| `DigestCache.HitStep` | internal/agent/digest_cache.go:75-77 | a cached digest is that of the version just seen |
| `DigestCache.CallStepKeeps` | internal/agent/digest_cache.go:37-115 | every step of a call keeps entries, locks, readings and the bound |
| `DigestCache.CacheRefinesHashing` | internal/agent/digest_cache.go:28-115 | under every interleaving a returned digest and size are those of the content the path had at one moment of the call, and the index stays within 8192 |
| `DigestCache.EntriesAreExclusive` | internal/agent/digest_cache.go:59-64 | no two calls work on one entry at the same time |
| `ResumablePull.Kept` | internal/agent/transfer_checkpoint.go:131-156 | what is kept is a prefix of the staged file and no longer than the file should be |
| `ResumablePull.ResumesRecordedBytes` | internal/agent/transfer_checkpoint.go:131-156 | with a record of some bytes exactly these are kept if the file begins with them, and otherwise nothing |
| `ResumablePull.Transfer.OpenPrefix` | internal/agent/transfer_checkpoint.go:123-156 | the file holds exactly the kept prefix, which is what was hashed |
| `ResumablePull.Transfer.Append` | internal/agent/transfer.go:614-631 | a chunk appended, a checkpoint when due; what is saved on disk is what a resume would find, also after a failure |
| `ResumablePull.Transfer.PullFile` | internal/agent/transfer.go:596-639 | terminates for every peer; success means manifest size and digest and a checkpoint of the whole file; other files untouched; the saved checkpoint only moves forward over staged bytes |
| `ResumablePull.Transfer.PullAll` | internal/agent/transfer.go:583-640 | success means every listed file is staged with its size and digest and the count is the sum of sizes; success or not, the saved checkpoint of every file moved forward only |
| `ResumablePull.NextAttemptResumes` | internal/agent/transfer_checkpoint.go:110-156 | after an attempt that ended anywhere, and whatever a crash left of the file, the next one keeps exactly the recorded bytes if they are all there and otherwise nothing; the record never falls behind where the attempt began |
| `Publish.Completion` | internal/agent/transfer_publish.go:55-63 | the last listed record, or proof that none is listed |
| `Publish.Cache.PublishOne` | internal/agent/transfer_publish.go:20-54 | nothing present is changed; success means the entry is there as listed |
| `Publish.Cache.PublishAll` | internal/agent/transfer_publish.go:15-71 | an undisturbed run changes nothing present and, on success, has every entry in place |
| `Publish.StepKeeps` | internal/agent/transfer_publish.go:20-71 | every step of pull, publish, crash, re-run and racers keeps the invariant, and no file of the cache changes name or bytes |
| `Publish.PublishIsCrashSafe` | internal/agent/transfer_publish.go:15-71 | for one manifest, at every crash point and through every re-pull, cached files keep their bytes, though they share them with staged files; unless the manifest is an early one a record made by the publisher means every other entry is in place |
| `Publish.EarlyRecord` | internal/agent/transfer_publish.go:55-63 | on an early manifest, with any record bytes, a run makes the record while an ordinary entry is missing |
| `Publish.RecordLastIff` | internal/agent/transfer_publish.go:15-71 | on a pulled manifest every run makes the record last if and only if the manifest is not an early one |
| `Publish.SurvivesRepullIff` | internal/agent/transfer_checkpoint.go:123-156 | published bytes survive every re-pull of their staged file if and only if the size is unchanged and the checkpoint records them in full |
| `Publish.RepullCutsPublished` | internal/agent/transfer_publish.go:20-54 | after a crash before the staging is cleared, a manifest with a smaller size cuts a published file |
| `FetchPool.Accounts.BytesDone` | internal/agent/artifact.go:401-404 | the sum over active counts does not depend on the iteration order |
| `FetchPool.Accounts.UpdateProgress` | internal/agent/artifact.go:391-411 | one count or one completion keeps the accounts of the proved step system; what it reports is completed sizes plus active counts, within the total plus one byte a file in progress |
| `FetchPool.Scan` | internal/agent/artifact.go:295-365 | succeeds if and only if paths are distinct, digests supported and nothing invalid is in the way; then each file is in its slot or queued once |
| `FetchPool.WithinTotal` | internal/agent/artifact.go:401-408 | completed sizes plus active counts exceed the announced total by at most one byte for each file in progress |
| `FetchPool.StepKeepsInv` | internal/agent/artifact.go:367-511 | every step of every worker keeps each job in one place, every count right, and every filled slot shown with bytes of its size and checksum |
| `FetchPool.ManifestIsFull` | internal/agent/artifact.go:497-511 | when all workers have left and nothing was cancelled every slot is filled |
| `FetchPool.CompletesAllOrNothing` | internal/agent/artifact.go:367-511 | a completion manifest lists exactly the announced files, each shown in the snapshot with bytes of its size and checksum, all bytes and files counted; at most 16 workers |
| `FetchOvershoot.NeverMore` | internal/agent/artifact.go:391-411 | no run reports more than the total and one byte for each of the at most sixteen non-empty files fetched at once, failed ones included |
| `FetchOvershoot.ReportsPastTotal` | internal/agent/artifact.go:672-682 | whatever the files, some run reports exactly that much, if those before the last sixteen non-empty ones can be completed |
| `FetchOvershoot.WithinTotalIffNothingToFetch` | internal/agent/artifact.go:672-682 | every run stays within the total if and only if no non-empty file is left to fetch |
| `FetchOvershoot.CompleteNext` | internal/agent/artifact.go:412-495 | a file whose checksum is of bytes of its size, with no corrupt blob in the way, can be fetched, linked and completed |
| `FetchOvershoot.EmptyFileBlocks` | internal/agent/artifact.go:615-628 | the pool never completes while an empty file is missing of which no partial file exists |
| `CanonicalJson.SortedKeys` | internal/cjson/cjson.go:58-62 | the keys of an object, ascending, each once |
| `CanonicalJson.CharsReadBack` | internal/cjson/cjson.go:40-41 | reading an escaped string gives the string back |
| `CanonicalJson.NumberValueReadsBack` | internal/cjson/cjson.go:38-39 | reading a number of the grammar gives its text back |
| `CanonicalJson.ReadsBack` | internal/cjson/cjson.go:29-86 | reading an encoding gives the value and what follows it |
| `CanonicalJson.EncodeInjective` | internal/cjson/cjson.go:15-86 | equal encodings mean equal values |
| `CanonicalJson.CollectKeys` | internal/cjson/cjson.go:58-62 | the sorted keys do not depend on the iteration order of the map |
| `CanonicalJson.Marshal` | internal/cjson/cjson.go:29-86 | the encoder's bytes are a function of the value alone |
| `CanonicalJson.MarshalArray` | internal/cjson/cjson.go:42-56 | the same for arrays |
| `CanonicalJson.MarshalObject` | internal/cjson/cjson.go:57-82 | the same for objects |
| `StringOrder.SortAscending` | internal/cjson/cjson.go:62-62 | sorting distinct strings gives them in ascending order |
| `StringOrder.AscendingUnique` | internal/cjson/cjson.go:62-62 | an ascending sequence is determined by its members |
| `Broker.Evict` | internal/commands/broker.go:85-89 | at most 1024 deliveries are remembered |
| `Broker.WindowIsExact` | internal/commands/broker.go:80-94 | for every log, repeats included: an ID is answerable if and only if its last delivery has not been followed by the eviction of any of its deliveries, and the answer is that delivery |
| `Broker.DistinctWindow` | internal/commands/broker.go:15-17 | with distinct IDs the window is exactly the last 1024 results |
| `Broker.DeliverKeeps` | internal/commands/broker.go:80-94 | a delivery reaches exactly the waiters of its ID, each for the first time |
| `Broker.DoKeeps` | internal/commands/broker.go:45-94 | every operation keeps one result per channel and no ID both waited for and answerable |
| `Broker.BrokerIsExact` | internal/commands/broker.go:19-94 | in every run each waiter gets at most one result, a delivery never blocks, and the window is that of the log |
| `Broker.Hub.Await` | internal/commands/broker.go:45-59 | keeps the invariant; answered at once exactly when the window has the ID, and otherwise listed for the next delivery |
| `Broker.Hub.RemoveWaiter` | internal/commands/broker.go:62-75 | keeps the invariant, with its filter loop; the channel is listed no more |
| `Broker.Hub.Dispatch` | internal/commands/broker.go:80-94 | keeps the invariant; exactly the channels listed for the ID are sent the result, each on an empty buffer |
| `Broker.Hub.SendEach` | internal/commands/broker.go:90-92 | every listed channel, with an empty buffer, is sent the result once |
| `Extensions.Registry.Stop` | internal/agent/extension.go:29-35 | is one step of the proved system: the key is closed for good, and nothing works under it but the run returned to wait for |
| `Extensions.Registry.TryRegister` | internal/agent/extension.go:57-73 | is one step of the proved system: refused exactly on a closed key, and a handler that registers is the only one working under its key |
| `Extensions.Registry.End` | internal/agent/extension.go:81-89 | is one step of the proved system: the key has no run, and every stop waiting for this run may return |
| `Extensions.RunsKeepInv` | internal/agent/extension.go:27-89 | every run keeps working handlers registered, closed keys closed and succeeded stops as they are |
| `Extensions.OneRunPerKey` | internal/agent/extension.go:57-89 | at most one extension of a key works at any time |
| `Extensions.StopIsABarrier` | internal/agent/extension.go:28-54 | after a stop has succeeded nothing is registered or works under its key, then or later |

## Left out

- TLS, enrollment, credentials, HTTP, Docker, telemetry, the command line, installers and the web console: I/O around the modelled code.
- `internal/runs` state transitions, progress records and lease tables: only the lease resources a plan computes are modelled.
- "Leases are held until every rank is down": `failDispatch` also releases leases when the run is terminal, so the code does not promise it.
- Liveness of locks: an item that was bound but whose command was never sent keeps its lock, since the agent answers its cancel with an unknown target. Only safety is proved.
- Fabric selection, host preparation previews, acquisition planning and upstream previews: they enter a plan only as one error flag and, for the fabric, one lease name. Accelerators blocked by leases are listed as conflicts by the source only when some rank is unplaced; the model leaves that list out.
- Optimality with explicit device indices: the first node with enough devices is chosen even where a required index is taken, so it is not promised.
- Wake-ups across two runs of one deployment: the gate keeps the run it was started for.
- File systems without change times: there the digest cache never reuses an entry, and its only check is size and modification time.
- UTF-8: canonical JSON is modelled on Unicode characters, whose order is that of their UTF-8 bytes. `Marshal` first encodes Go values with the standard library; the model starts from the decoded value.
- Byte counts in `ResumablePull` and `FetchPool` are unbounded; the source's 64-bit counters would wrap only beyond 2^63 bytes.
- Symbolic links in a pulled snapshot, directory creation and file modes.
- BindingRecovery.OrderIsIrrelevant: for values without `${` and templates that have no `${` but those of their variables and in which such values cannot form another; each excluded form has a family of inputs in `BindingSharpness` where the order decides. It is not an if-and-only-if for single inputs, since a template text in a value may happen to do no harm.
- BindingRecovery.RecoversLeastSettled: same assumption on values and templates.
- BindingRecovery.RecoversOnlyTruth: same assumption on values and templates.
- StopBookkeeping.GuardsSeeStoppedRanks: for handlers that follow one another, as `HandlerAlone` makes precise; `StopInterleavings` and `StopRaces` say what holds and what fails when they interrupt one another.
- The gate goroutines of `StopInterleavings` are passes that may come at any time, also for ranks that are not placed; how calls wake them is `DispatchGate`.
- DispatchGate.HeadIsNeverForgotten: for one run whose deployment stays desired running and whose gate meets no error.
- FetchPool.CompletesAllOrNothing: one pool over one snapshot; other processes that write the same cache are not modelled.
- DigestCache.CacheRefinesHashing: every write, truncation or mode change is assumed to take a new change time.
- Publish.PublishIsCrashSafe: one manifest across re-runs (`RepullCutsPublished` shows what another one may do), and racers that may add entries but not remove them.
- Publish.RecordLastIff: for manifests whose entries are all staged as listed at one time. The source compares each entry when it is pulled, so a manifest that lists one path twice with two sizes or digests is not covered.
- PortSharing.PortsOnceIff: the protocol of a port is left out, as it is in the names of leases; a port published once for TCP and once for UDP counts as published twice.
- FetchOvershoot.ReportsPastTotal: with more than sixteen non-empty files, those before the last sixteen, and empty ones before the last of these, are assumed to be ones that can be completed.
- DownloadProtocol.SafeIffSnapshotsClosed: a queued item blocked by an unacknowledged download is excluded, since whether it can ever bind depends on that download's device.
