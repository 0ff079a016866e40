# Verified models of the upgrade orchestrator

The upgrade orchestrator walks a Kubernetes cluster through a node upgrade in dependency
order. PodDisruptionBudgets, node taints and pod tolerations are its locks. This project
models the two designs in the repository and the Slack report of the Kafka access monitor,
and proves what they keep in every run.

## What is modelled

- **Layered controller** (`upgradeorchestrator_controller.go.releasePDB`). `DependencyGraph`
  defines the layering of a plan without any algorithm; `LayerBuilder` is the queue and
  in-degree loop proved to compute it. `LayeredModel` says what one pass does,
  `LayeredController` is the object whose methods do it, `LayeredSafety`,
  `LayeredProgress`, `LayeredMoves`, `LayeredSightings`, `LayeredTargets` and
  `LayeredAbandonment` hold the results. The twin `upgradeorchestrator_controller.go.back.txt`
  behaves the same and is modelled once.
- **Live controller** (`upgradeorchestrator_controller.go`). `LiveModel` says what one pass
  does and `LiveController` is the object whose methods do it. `PdbCodec` is the saved budget
  spec, `PdbCalls` single budget calls, `PdbLocks` the budget list during an upgrade, `UpgradeUndo` cleanup, `LivePass` single
  passes, `LiveRuns` whole upgrades, `LiveRounds` their agreement with the layering,
  `LiveGrants` what a toleration says about the guard and `LiveEntry` how an upgrade starts and
  how it is cleaned up after.
- **Slack report** (`slack_reporter.go`). `SlackReport` is the paginator with its page buffer.
- `Api` holds nodes, pods, selectors and call outcomes, `SemVer` version precedence,
  `Lexicographic` the order of strings and `Decimal` numbers as text.

A method of the two `Reconciler` classes changes the object's fields step by step and is
proved equal, state and remaining API calls, to its specification function. The results are
lemmas about those functions.

## How the cluster behaves

- Every API call takes its outcome from a queue: `Done`, `Conflict`, `Refused`, or `Lost`, a
  write that was applied although the caller saw an error. An exhausted queue means that calls
  succeed. Results hold for every queue unless they ask for an empty one.
- Budgets are listed in a fixed order; a created budget goes to the end. Patches carry no
  conflicting edits by others.
- Between passes nodes, pods and the clock change freely. Budgets, workloads and status are
  changed by the operator only.
- The order in which Go enumerates a map is left open everywhere.
- The layered cluster carries a log of applied writes and of observations, which is how
  states between two writes are spoken of.
- `Config.refreshes` says whether `client.Update` overwrites the caller's copy, status
  included, with the stored object. It does so when status is a subresource, and the
  repository's API type and CRD declare it as one
  (`upgrade-orchestrator/api/v1alpha1/upgradeorchestrator_types.go:59`). By
  `RefreshingUpdateNeverUpgrades` the controller deployed with that CRD never enters an upgrade;
  `ConfirmationIff` is the exact condition, and the other results hold either way.

## Where code and documentation differ

- `DetailOPeration.md` promises a return to the state without upgrade once all workloads have
  migrated. No code leaves UpgradeInProgress (`UpgradeNeverLeaves`); cleanup is reached only
  from NoUpgrade with the mark of an interrupted entry (`QuietPassTouchesNothing`).
- The same notes promise to remove every trace. The version label on nodes stays
  (`LabelSurvivesCleanup`); `EveryUpgradeIsTracelessIff` says exactly when nothing does.
- The log message of the idle phase speaks of re-initializing unlocked budgets. An existing wrong
  budget is never repaired (`WrongBudgetBlocksInitialization`), and a layer left open when the
  nodes converge becomes one (`AbandonedLayerStaysOpen`, `LayerMayBeAbandoned`); the machine
  comes to rest exactly when none was open (`AbandonedUpgradeRestsIff`).
- Layers are left on what each pass takes for the target. A third version that appears during an
  upgrade opens the next layer without another look at the ones below (`TargetMayChange`,
  `SeenOnCurrentTargetIff`).
- A dependency cycle is reported only if some layer was found (`EmptyLayersIff`).

## Model

| member | source | states |
|---|---|---|
| LayerBuilder.BuildDependencyLayers | upgrade-orchestrator/internal/controller/upgradeorchestrator_controller.go.releasePDB:360-410 | The answer, error or layers, is the layering of the plan defined by rounds of resolved names, whatever order the in-degree map is enumerated in |
| LayerBuilder.CountEdges | upgrade-orchestrator/internal/controller/upgradeorchestrator_controller.go.releasePDB:361-374 | The two maps record every dependency occurrence: adjacency lists in plan order, in-degrees with multiplicity, over exactly the declared names |
| LayerBuilder.RootQueue | upgrade-orchestrator/internal/controller/upgradeorchestrator_controller.go.releasePDB:376-381 | The first queue lists the zero-in-degree names once each, for every enumeration order of the map |
| LayerBuilder.RelaxNeighbours | upgrade-orchestrator/internal/controller/upgradeorchestrator_controller.go.releasePDB:388-395 | Taking one name off the graph leaves every counter equal to its remaining incoming edges and queues exactly the names that reach zero |
| LayerBuilder.Relax | upgrade-orchestrator/internal/controller/upgradeorchestrator_controller.go.releasePDB:387-396 | Taking a whole layer off leaves the counters of the next round and the next queue |
| LayerBuilder.PeelLayers | upgrade-orchestrator/internal/controller/upgradeorchestrator_controller.go.releasePDB:383-397 | The loop ends with all rounds, each sorted, and nothing else |
| DependencyGraph.LayeringSucceedsIff | upgrade-orchestrator/internal/controller/upgradeorchestrator_controller.go.releasePDB:360-410 | For a non-empty plan: non-empty layers without error exactly when names are distinct, every dependency is declared and no chain of dependencies returns to its start |
| DependencyGraph.EmptyLayersIff | upgrade-orchestrator/internal/controller/upgradeorchestrator_controller.go.releasePDB:399-409 | The guarded cycle test: empty layers without error exactly when every name depends on something, cyclic or not |
| DependencyGraph.LayersPartition | upgrade-orchestrator/internal/controller/upgradeorchestrator_controller.go.releasePDB:383-407 | Every name of a layered plan is in exactly one layer |
| DependencyGraph.LayerIndexIsLongestChain | upgrade-orchestrator/internal/controller/upgradeorchestrator_controller.go.releasePDB:383-397 | The layer index of a name is the length of its longest chain of dependencies |
| DependencyGraph.DependenciesInEarlierLayers | upgrade-orchestrator/internal/controller/upgradeorchestrator_controller.go.releasePDB:383-397 | Everything a name depends on, directly or transitively, is in a strictly earlier layer |
| DependencyGraph.LayerIsLevel | upgrade-orchestrator/internal/controller/upgradeorchestrator_controller.go.releasePDB:385-386 | A layer is sorted, non-empty, without repetition and holds exactly the names of its round |
| DependencyGraph.LayeringIgnoresOrder | upgrade-orchestrator/internal/controller/upgradeorchestrator_controller.go.releasePDB:153-160 | Permuting the deployments list changes nothing, so the persisted layer index keeps its meaning when layers are recomputed |
| Lexicographic.SortIsEnumerate | upgrade-orchestrator/internal/controller/upgradeorchestrator_controller.go.releasePDB:385 | Sorting any listing of a set of names gives one and the same sequence |
| Lexicographic.FirstDifferenceDecides | upgrade-orchestrator/internal/controller/upgradeorchestrator_controller.go.releasePDB:385 | Strings are ordered by the first character in which they differ |
| Lexicographic.PrefixComesFirst | upgrade-orchestrator/internal/controller/upgradeorchestrator_controller.go.releasePDB:385 | A string comes before its proper extensions |
| SemVer.PrecedenceIsTotalPreorder | upgrade-orchestrator/internal/controller/upgradeorchestrator_controller.go:413-421 | Precedence by section 11 of Semantic Versioning 2.0.0 is a total preorder |
| SemVer.NumbersDecide | upgrade-orchestrator/internal/controller/upgradeorchestrator_controller.go:413-421 | Clause 2 of section 11 of Semantic Versioning 2.0.0: major, then minor, then patch decide before anything else, and only equal versions tie |
| SemVer.PreReleaseComesFirst | upgrade-orchestrator/internal/controller/upgradeorchestrator_controller.go:413-421 | Clause 3: a pre-release comes before its release |
| SemVer.FieldsDecide | upgrade-orchestrator/internal/controller/upgradeorchestrator_controller.go:413-421 | Clause 4: between pre-releases of the same numbers the identifiers decide |
| SemVer.FirstIdentifierDecides | upgrade-orchestrator/internal/controller/upgradeorchestrator_controller.go:413-421 | Clauses 4.1 to 4.3: the first identifiers that differ decide, numbers by value, text in ASCII order, numbers before text |
| SemVer.MoreFieldsComeLast | upgrade-orchestrator/internal/controller/upgradeorchestrator_controller.go:413-421 | Clause 4.4: fields that go on after all others agree come last |
| SemVer.TargetHasGreaterNumbers | upgrade-orchestrator/internal/controller/upgradeorchestrator_controller.go:409-422 | Of exactly two readable versions the one with the greater numbers is chosen; anything else is an error |
| SemVer.TextOrder | upgrade-orchestrator/internal/controller/upgradeorchestrator_controller.go.releasePDB:304 | Unreadable text sorts below every readable version, and readable ones by their numbers |
| SemVer.NormaliseAddsOneV | upgrade-orchestrator/internal/controller/upgradeorchestrator_controller.go.releasePDB:332 | A leading v is kept or added and nothing else changes |
| SemVer.GreatestHasGreatestNumbers | upgrade-orchestrator/internal/controller/upgradeorchestrator_controller.go.releasePDB:347-351 | The version with the greatest numbers is the one taken |
| SemVer.TargetIgnoresOrderIff | upgrade-orchestrator/internal/controller/upgradeorchestrator_controller.go:409-422 | The chosen target is independent of the order of the two versions exactly when they differ in precedence, and is then the greater one |
| SemVer.Greatest | upgrade-orchestrator/internal/controller/upgradeorchestrator_controller.go.releasePDB:347-351 | The last version after sorting: one of them, and no other sorts after it |
| LayeredProgress.TargetIgnoresNodeOrder | upgrade-orchestrator/internal/controller/upgradeorchestrator_controller.go.releasePDB:314-358 | The target of the layered controller depends on the set of nodes only, and no readable node version sorts after it |
| LayeredProgress.TargetMeans | upgrade-orchestrator/internal/controller/upgradeorchestrator_controller.go.releasePDB:314-358 | On the nodes: an error without a readable version; an upgrade with two of them or an unschedulable node; a version only with two |
| LayeredProgress.TargetHasGreatestNumbers | upgrade-orchestrator/internal/controller/upgradeorchestrator_controller.go.releasePDB:314-358 | With several readable versions the one with the greatest numbers is the target |
| Api.LabelsMatchIff | upgrade-orchestrator/internal/controller/upgradeorchestrator_controller.go:572-595 | A selector of labels alone selects exactly what carries all of them, values included |
| Api.OperatorLaws | upgrade-orchestrator/internal/controller/upgradeorchestrator_controller.go:353-371 | What the four operators ask for: one of the values, none of them, the key, or no such key |
| Api.SelectorIsConjunction | upgrade-orchestrator/internal/controller/upgradeorchestrator_controller.go:353-371 | A selector is the conjunction of its labels and requirements; no selector selects nothing |
| Api.AcceptedOperators | upgrade-orchestrator/internal/controller/upgradeorchestrator_controller.go:363-367 | Which requirements make a selector valid |
| Api.ValidIffAllAccepted | upgrade-orchestrator/internal/controller/upgradeorchestrator_controller.go:363-367 | A selector is valid exactly if each of its requirements is accepted |
| Api.IntValueMeans | upgrade-orchestrator/internal/controller/upgradeorchestrator_controller.go.releasePDB:243 | A number stands for itself, its text for the number, and other text such as a percentage for zero |
| Decimal.AtoiReadsItoa | upgrade-orchestrator/internal/controller/upgradeorchestrator_controller.go.releasePDB:243 | Reading a number undoes writing it, with and without a sign |
| Decimal.LastDigitCountsOnes | upgrade-orchestrator/internal/controller/upgradeorchestrator_controller.go.releasePDB:243 | The last digit counts ones and whatever stands before it tens |
| PdbCalls.UserBudgetIff | upgrade-orchestrator/internal/controller/upgradeorchestrator_controller.go:348-373 | The user budget found is the first in list order that guards the workload; none is found exactly if the pod has no labels or nothing guards it |
| PdbCalls.GuardsIff | upgrade-orchestrator/internal/controller/upgradeorchestrator_controller.go:358-371 | A budget guards a pod exactly if the operator did not make it, its selector is valid and it selects the pod |
| PdbCalls.BlockOutcome | upgrade-orchestrator/internal/controller/upgradeorchestrator_controller.go:305-345 | With every call answering, on any list: the first guarding user budget is locked once and nothing else changes; without one a single blocking budget is appended unless its name is taken |
| PdbCalls.UnblockOutcome | upgrade-orchestrator/internal/controller/upgradeorchestrator_controller.go:286-304 | With every call answering, on any list: the saved spec is restored, or the call fails if it cannot be read; without a saved spec the operator's own budget alone is removed |
| PdbCalls.BadSpecIsNotRestored | upgrade-orchestrator/internal/controller/upgradeorchestrator_controller.go:286-296 | A saved spec that is no JSON object cannot be restored |
| PdbCodec.SpecRoundTrip | upgrade-orchestrator/internal/controller/upgradeorchestrator_controller.go:288-320 | Unmarshalling a marshalled budget spec gives the same spec: selector, expressions, integer and string values |
| PdbCodec.UnmarshalIff | upgrade-orchestrator/internal/controller/upgradeorchestrator_controller.go:289-292 | A saved spec can be read exactly if it is an object each of whose fields has its type |
| PdbLocks.RestoreUndoesLock | upgrade-orchestrator/internal/controller/upgradeorchestrator_controller.go:286-324 | Locking a user budget and restoring it gives back spec and annotations unchanged |
| PdbLocks.SelectionNeverChanges | upgrade-orchestrator/internal/controller/upgradeorchestrator_controller.go:348-373 | Which user budget a workload selects is the same in every list the operator can produce |
| PdbLocks.BlockActsOnLocks | upgrade-orchestrator/internal/controller/upgradeorchestrator_controller.go:305-345 | On every such list, blocking locks the selected user budget or appends one blocking budget, and nothing else |
| PdbLocks.UnblockActsOnLocks | upgrade-orchestrator/internal/controller/upgradeorchestrator_controller.go:286-304 | On every such list, unblocking restores the selected user budget or removes the workload's own one, never fails to decode, and does nothing else |
| PdbLocks.LastWriteWins | upgrade-orchestrator/internal/controller/upgradeorchestrator_controller.go:270-346 | After any calls for any workloads, shared budgets included, each user budget is locked or original according to the last call that concerned it |
| UpgradeUndo.EveryUpgradeIsUndoneIff | upgrade-orchestrator/internal/controller/upgradeorchestrator_controller.go:491-543 | From a cluster without artefacts, every sequence of budget, node and toleration operations with any failing or half-failing calls is undone by one clean cleanup exactly when no planned name is both a StatefulSet and a Deployment |
| UpgradeUndo.CleanupUndoesUpgrade | upgrade-orchestrator/internal/controller/upgradeorchestrator_controller.go:491-543 | Budgets, taints and tolerations are all back; a node may differ only in having its own version in the operator's label |
| UpgradeUndo.HiddenDeploymentKeepsToleration | upgrade-orchestrator/internal/controller/upgradeorchestrator_controller.go:611-621 | The failing family: one failed StatefulSet read puts the toleration on a Deployment of the same name, and cleanup leaves it there |
| UpgradeUndo.EveryUpgradeIsTracelessIff | upgrade-orchestrator/internal/controller/upgradeorchestrator_controller.go:424-543 | From such a cluster every sequence gives back exactly the same cluster, labels included, exactly when no planned name is of both kinds and every node carried its own version as label beforehand |
| UpgradeUndo.LabelsComeBackIff | upgrade-orchestrator/internal/controller/upgradeorchestrator_controller.go:436-456 | Over all sequences that prepare nodes for given versions, with any failing calls, a node always gets its labels back exactly when its version is none of them or was in its label before |
| UpgradeUndo.LabelSurvivesCleanup | upgrade-orchestrator/internal/controller/upgradeorchestrator_controller.go:436-456 | One preparation and one cleanup leave exactly the version label behind on every node of that version |
| UpgradeUndo.LabelsAfterOperations | upgrade-orchestrator/internal/controller/upgradeorchestrator_controller.go:434-457 | Nodes of versions that were never a target are untouched; no other label ever changes |
| UpgradeUndo.UntaintRestores | upgrade-orchestrator/internal/controller/upgradeorchestrator_controller.go:498-515 | The node loop of cleanup restores every taint list |
| UpgradeUndo.CleanupEntryClears | upgrade-orchestrator/internal/controller/upgradeorchestrator_controller.go:516-541 | Cleaning one entry removes every artefact its name accounts for and no other |
| UpgradeUndo.PerformStaysUpgraded | upgrade-orchestrator/internal/controller/upgradeorchestrator_controller.go:424-479 | Each single operation leaves a cluster that is the original plus accountable artefacts |
| UpgradeUndo.GetWorkloadResolves | upgrade-orchestrator/internal/controller/upgradeorchestrator_controller.go:611-621 | A StatefulSet is preferred to a Deployment; without failing calls the answer is exact |
| UpgradeUndo.WorkloadNeedsAnswer | upgrade-orchestrator/internal/controller/upgradeorchestrator_controller.go:611-621 | Under failing calls: only an answered read finds a workload, and the Deployment counts only if the StatefulSet was not found |
| UpgradeUndo.ReconcilePdbOutcome | upgrade-orchestrator/internal/controller/upgradeorchestrator_controller.go:270-346 | Success needs both reads and the write answered; an unapplied write changes nothing |
| UpgradeUndo.CleanupNeedsNodeList | upgrade-orchestrator/internal/controller/upgradeorchestrator_controller.go:491-497 | Cleanup fails, having done nothing, exactly if the nodes cannot be listed |
| UpgradeUndo.StrippedEvenIfBlocked | upgrade-orchestrator/internal/controller/upgradeorchestrator_controller.go:516-541 | Tolerations are stripped whether or not the budget could be unblocked |
| LivePass.IsWorkloadMigratedMeans | upgrade-orchestrator/internal/controller/upgradeorchestrator_controller.go:562-596 | A yes means every selected pod is on an existing node of the target version; without failing calls also conversely; a missing workload is never migrated |
| LivePass.MigratedByLabels | upgrade-orchestrator/internal/controller/upgradeorchestrator_controller.go:562-596 | For a workload whose selector is labels alone: yes exactly if every pod that carries all of them is on an existing node of the target version |
| LivePass.PodsOfLabels | upgrade-orchestrator/internal/controller/upgradeorchestrator_controller.go:572-580 | Such a workload owns exactly the pods that carry all of its labels |
| LivePass.MigrationNeedsAnswers | upgrade-orchestrator/internal/controller/upgradeorchestrator_controller.go:562-596 | A yes needs every read that led to it answered |
| LivePass.AllMigratedMeans | upgrade-orchestrator/internal/controller/upgradeorchestrator_controller.go:481-489 | The same for a list of names |
| LivePass.DependenciesMetMeans | upgrade-orchestrator/internal/controller/upgradeorchestrator_controller.go:545-560 | The same for the dependencies of an entry, with the test of the recorded target version |
| LivePass.PrepareFromEffect | upgrade-orchestrator/internal/controller/upgradeorchestrator_controller.go:434-457 | Only nodes of the target version change; success means all of them carry the upgrade taint |
| LivePass.PreparedMeans | upgrade-orchestrator/internal/controller/upgradeorchestrator_controller.go:436-456 | A node gets the label, and the taint unless it has one of that key and effect |
| LivePass.TolerationFitsTaint | upgrade-orchestrator/internal/controller/upgradeorchestrator_controller.go:461-466 | The toleration tolerates the taint, and one for another key does not |
| LivePass.GrantEntryEffect | upgrade-orchestrator/internal/controller/upgradeorchestrator_controller.go:206-234 | Whatever calls fail, an entry whose dependencies were not seen migrated changes nothing; otherwise only its own workload's budget and toleration can change |
| LivePass.NoTolerationAfterFailedUnblock | upgrade-orchestrator/internal/controller/upgradeorchestrator_controller.go:220-231 | No toleration is added for an entry whose unblocking returned an error |
| LivePass.GrantEntryExact | upgrade-orchestrator/internal/controller/upgradeorchestrator_controller.go:219-233 | With every call answering, the entry is unblocked and tolerated exactly when its dependencies are met |
| LivePass.PassStages | upgrade-orchestrator/internal/controller/upgradeorchestrator_controller.go:176-236 | A pass is: record the target, prepare nodes, then the plan loop, each only if the one before it succeeded |
| LivePass.PassEffect | upgrade-orchestrator/internal/controller/upgradeorchestrator_controller.go:176-237 | Whatever its calls answer, a pass changes at most the recorded target, the taints and label of nodes of the target version, the tolerations of names whose dependencies were seen migrated and, if there are such names, budgets (which ones: PassLocks) |
| LivePass.TaintBeforeToleration | upgrade-orchestrator/internal/controller/upgradeorchestrator_controller.go:199-230 | When a pass adds a toleration every node of the target version is tainted; nodes of other versions are never touched |
| LivePass.PassAddsNothingTwice | upgrade-orchestrator/internal/controller/upgradeorchestrator_controller.go:424-479 | Whatever its calls answer, a pass leaves at most one upgrade taint on a node and one upgrade toleration on a workload that had at most one, and nodes of other versions untouched |
| LivePass.PassLocks | upgrade-orchestrator/internal/controller/upgradeorchestrator_controller.go:206-225 | A pass only takes budget locks off, and only those its grants account for |
| LivePass.PassExact | upgrade-orchestrator/internal/controller/upgradeorchestrator_controller.go:206-234 | With every call answering, a pass tolerates exactly the workloads that are due, and of the guards that were shut it opens exactly those in common with one that is due |
| LivePass.UnblockExact | upgrade-orchestrator/internal/controller/upgradeorchestrator_controller.go:286-304 | Unblocking takes off the workload's own guard and no other |
| LiveRuns.UpgradeNeverLeaves | upgrade-orchestrator/internal/controller/upgradeorchestrator_controller.go:176-237 | No pass leaves UpgradeInProgress |
| LiveRuns.SetInitialHolds | upgrade-orchestrator/internal/controller/upgradeorchestrator_controller.go:241-267 | A lock-down without failing calls guards a planned workload that shares no budget if its entries depend on something, and leaves it unguarded if they do not |
| LiveRuns.LockdownSafety | upgrade-orchestrator/internal/controller/upgradeorchestrator_controller.go:206-267 | In every run with any failures and any pod and node changes, such a workload keeps a zero-disruption budget and has no toleration until a pass in which all pods of all dependencies of one of its entries are on the target version |
| LiveRuns.GrantsAreStartable | upgrade-orchestrator/internal/controller/upgradeorchestrator_controller.go:206-234 | If workloads migrate only once granted, grants stay inside the part of the plan reachable from roots that exist |
| LiveRuns.DoomedIsNeverGranted | upgrade-orchestrator/internal/controller/upgradeorchestrator_controller.go:206-234 | Then, for a plan with distinct names, no name above a cycle, an undeclared name or a missing workload is ever granted or tolerated, in a run of any length |
| DependencyGraph.StartsIffNotDoomed | upgrade-orchestrator/internal/controller/upgradeorchestrator_controller.go:206-234 | For a plan with distinct names a planned name can start, within as many rounds as there are names, exactly when no cycle, undeclared name or missing workload lies beneath it |
| LiveRuns.TolerationsOnlyGrow | upgrade-orchestrator/internal/controller/upgradeorchestrator_controller.go:460-479 | Through a run no workload loses a toleration |
| LiveRuns.ToleratedAtMostOnce | upgrade-orchestrator/internal/controller/upgradeorchestrator_controller.go:460-479 | In no run of any length, with any failures, does a workload that had at most one upgrade toleration get a second |
| LiveRuns.TaintedAtMostOnce | upgrade-orchestrator/internal/controller/upgradeorchestrator_controller.go:442-456 | Where the environment brings no upgrade taint of its own, no node ever carries two in a run of any length |
| LiveRuns.LocksOnlyReleased | upgrade-orchestrator/internal/controller/upgradeorchestrator_controller.go:219-225 | Through a run no workload is locked again |
| LiveRuns.UngrantedNeverGrows | upgrade-orchestrator/internal/controller/upgradeorchestrator_controller.go:206-234 | No pass adds to the ungranted names |
| LiveRuns.ProgressIsStrict | upgrade-orchestrator/internal/controller/upgradeorchestrator_controller.go:206-234 | A pass without failing calls that finds an ungranted workload due strictly lowers the number of ungranted ones |
| LiveRounds.PassesFollowRounds | upgrade-orchestrator/internal/controller/upgradeorchestrator_controller.go:206-234 | For every plan, cyclic and incomplete ones included, with nothing failing and exactly the tolerated workloads moving: pass i first tolerates exactly what becomes startable in round i, and of the guards shut at the start exactly those in common with something started are open by then |
| LiveRounds.HealthyNamesAreGranted | upgrade-orchestrator/internal/controller/upgradeorchestrator_controller.go:206-234 | Then after as many passes as names exactly the names that are not doomed are tolerated |
| LiveRounds.PassesFollowLayers | upgrade-orchestrator/internal/controller/upgradeorchestrator_controller.go:206-234 | For a layered plan whose workloads exist, the workloads first tolerated in pass i are exactly layer i of the layering, of the locked ones that share no budget exactly those are first unlocked in it, and after as many passes as layers all are tolerated |
| LiveRounds.GuardsFollowRounds | upgrade-orchestrator/internal/controller/upgradeorchestrator_controller.go:206-267 | From a lock-down on, for every plan, a dependent workload that shares no budget is locked, with a zero-disruption budget, exactly until it has started; a root never is |
| LiveRounds.GuardsFollowLayers | upgrade-orchestrator/internal/controller/upgradeorchestrator_controller.go:206-267 | From a lock-down on, a workload of layer j that shares no budget is locked before pass i exactly when 0 < j and i <= j, and is unlocked in pass j |
| LiveRounds.GrantedGuardsAreOpen | upgrade-orchestrator/internal/controller/upgradeorchestrator_controller.go:219-225 | The guards of everything granted by pass i, shared or not, are open once it ends |
| LiveGrants.ToleratedMeansOpen | upgrade-orchestrator/internal/controller/upgradeorchestrator_controller.go:206-234 | From a lock-down on, in every run with any failing calls, a planned workload with the upgrade toleration has its guard open, as long as no planned name is of both kinds |
| LiveEntry.NoUpgradeStep | upgrade-orchestrator/internal/controller/upgradeorchestrator_controller.go:79-123 | From NoUpgrade the state can change to Awaiting only, on a cordoned node and with the clock recorded |
| LiveEntry.AwaitingStep | upgrade-orchestrator/internal/controller/upgradeorchestrator_controller.go:126-173 | From Awaiting: back after the timeout, on with two versions in time, or unchanged |
| LiveEntry.StateStep | upgrade-orchestrator/internal/controller/upgradeorchestrator_controller.go:46-76 | The same for a whole reconcile pass in any state |
| LiveEntry.CordonedNodeStartsWaiting | upgrade-orchestrator/internal/controller/upgradeorchestrator_controller.go:106-122 | Without the mark a clean pass outside an upgrade goes to Awaiting, with the clock, exactly if some node carries the unschedulable taint, and otherwise stays in NoUpgrade |
| LiveEntry.MarkedPassCleansUp | upgrade-orchestrator/internal/controller/upgradeorchestrator_controller.go:82-104 | With the mark a clean pass waits while several versions are left; on one it cleans up and clears the mark if every planned workload is on it, and else watches for cordoned nodes |
| LiveEntry.CleanupPassUndoes | upgrade-orchestrator/internal/controller/upgradeorchestrator_controller.go:82-104 | Such a cleaning pass gives back the cluster from before the upgrade, whatever operations with whatever failing calls were done to it |
| LiveEntry.AwaitingPassExact | upgrade-orchestrator/internal/controller/upgradeorchestrator_controller.go:126-173 | A clean Awaiting pass: back to NoUpgrade after more than five minutes, unchanged without two versions, and else locked down, marked and in progress |
| LiveEntry.UnlistedNodesChangeNothing | upgrade-orchestrator/internal/controller/upgradeorchestrator_controller.go:106-150 | A pass that cannot list the nodes changes nothing |
| LiveEntry.OtherPassesDoNothing | upgrade-orchestrator/internal/controller/upgradeorchestrator_controller.go:46-76 | A pass that cannot read the object, or finds an unknown state, changes nothing |
| LiveEntry.MarkGoesWithCleanup | upgrade-orchestrator/internal/controller/upgradeorchestrator_controller.go:82-104 | Whatever calls fail, the mark goes only with a cleanup that listed the nodes, after every planned workload was seen migrated |
| LiveEntry.EveryUpgradeIsMarked | upgrade-orchestrator/internal/controller/upgradeorchestrator_controller.go:156-168 | In every run with any failing calls an upgrade in progress carries its mark |
| LiveEntry.ConfirmationIff | upgrade-orchestrator/internal/controller/upgradeorchestrator_controller.go:147-169 | Without failing calls the upgrade starts exactly when two versions are seen in time and client.Update does not overwrite the caller's status |
| LiveEntry.EveryUpgradeWasConfirmed | upgrade-orchestrator/internal/controller/upgradeorchestrator_controller.go:55-173 | In every run an upgrade in progress was preceded by a cordoned node and, within five minutes and with the state Awaiting throughout, a pass that saw exactly two versions |
| LiveEntry.RefreshingUpdateNeverUpgrades | upgrade-orchestrator/internal/controller/upgradeorchestrator_controller.go:156-168 | Where client.Update refreshes the status, no run ever starts an upgrade |
| LiveEntry.QuietPassTouchesNothing | upgrade-orchestrator/internal/controller/upgradeorchestrator_controller.go:82-104 | Outside an upgrade nodes, budgets and workloads are left alone unless the mark is there, one version is left and every planned workload was seen on it |
| LiveEntry.ConfirmationLocksDown | upgrade-orchestrator/internal/controller/upgradeorchestrator_controller.go:126-173 | Where a pass without failing calls confirms the upgrade on a clean cluster, the rest of the run starts locked down |
| LiveController.Reconciler.GetWorkload | upgrade-orchestrator/internal/controller/upgradeorchestrator_controller.go:611-621 | Two reads at most; leaves everything but the call queue alone |
| LiveController.Reconciler.PodsOnTarget | upgrade-orchestrator/internal/controller/upgradeorchestrator_controller.go:582-594 | The pod loop, with its early answers |
| LiveController.Reconciler.IsWorkloadMigrated | upgrade-orchestrator/internal/controller/upgradeorchestrator_controller.go:562-596 | Answer and calls used are those of the specification |
| LiveController.Reconciler.DependenciesMet | upgrade-orchestrator/internal/controller/upgradeorchestrator_controller.go:545-560 | The dependency loop stops at the first no or error |
| LiveController.Reconciler.AreAllWorkloadsMigrated | upgrade-orchestrator/internal/controller/upgradeorchestrator_controller.go:481-489 | The plan loop stops at the first no or error |
| LiveController.Reconciler.DetectNodeVersions | upgrade-orchestrator/internal/controller/upgradeorchestrator_controller.go:392-407 | Lists every node version once, in some order |
| LiveController.Reconciler.IsAnyNodeCordoned | upgrade-orchestrator/internal/controller/upgradeorchestrator_controller.go:377-390 | Exactly whether some node has the unschedulable taint |
| LiveController.Reconciler.FindUserManagedPdb | upgrade-orchestrator/internal/controller/upgradeorchestrator_controller.go:348-373 | The first budget in list order that is not the operator's, has a valid selector and matches |
| LiveController.Reconciler.ReconcilePdb | upgrade-orchestrator/internal/controller/upgradeorchestrator_controller.go:270-346 | New budget list, calls used and error are those of the specification, for every outcome of every call |
| LiveController.Reconciler.PrepareNodes | upgrade-orchestrator/internal/controller/upgradeorchestrator_controller.go:424-458 | The node loop writes node by node and stops at the first failing write |
| LiveController.Reconciler.AddToleration | upgrade-orchestrator/internal/controller/upgradeorchestrator_controller.go:460-479 | Reads the workload again and appends the toleration unless it is there |
| LiveController.Reconciler.GrantAll | upgrade-orchestrator/internal/controller/upgradeorchestrator_controller.go:206-234 | The plan loop with its continue branches |
| LiveController.Reconciler.SetInitialPdbState | upgrade-orchestrator/internal/controller/upgradeorchestrator_controller.go:241-267 | Unblocks roots, blocks dependants, and swallows errors |
| LiveController.Reconciler.UntaintNodes | upgrade-orchestrator/internal/controller/upgradeorchestrator_controller.go:498-515 | Filters each node's taints, writing only where one was found |
| LiveController.Reconciler.StripWorkload | upgrade-orchestrator/internal/controller/upgradeorchestrator_controller.go:525-540 | Filters one workload's tolerations, writing only where one was found |
| LiveController.Reconciler.CleanupGlobalUpgradeArtifacts | upgrade-orchestrator/internal/controller/upgradeorchestrator_controller.go:491-543 | Fails only if the node list cannot be read |
| LiveController.Reconciler.MetaUpdate | upgrade-orchestrator/internal/controller/upgradeorchestrator_controller.go:163-165 | Writes the annotation; the caller's copy is refreshed or not |
| LiveController.Reconciler.HandleNoUpgradeState | upgrade-orchestrator/internal/controller/upgradeorchestrator_controller.go:79-123 | Whole new state and calls used |
| LiveController.Reconciler.HandleAwaitingConfirmationState | upgrade-orchestrator/internal/controller/upgradeorchestrator_controller.go:126-173 | Whole new state and calls used |
| LiveController.Reconciler.HandleUpgradeInProgressState | upgrade-orchestrator/internal/controller/upgradeorchestrator_controller.go:176-237 | Whole new state and calls used |
| LiveController.Reconciler.Reconcile | upgrade-orchestrator/internal/controller/upgradeorchestrator_controller.go:46-76 | Whole new state and calls used, for some order of the node versions |
| LayeredSafety.EnsurePdbSafe | upgrade-orchestrator/internal/controller/upgradeorchestrator_controller.go.releasePDB:246-271 | With retries on conflict and any failing calls: nothing or exactly one write of that app's budget, and success means the budget has the value |
| LayeredSafety.CheckAppsSafe | upgrade-orchestrator/internal/controller/upgradeorchestrator_controller.go.releasePDB:218-244 | The check opens nothing; a yes means nothing changed and every app is at zero |
| LayeredSafety.AllOnTargetSafe | upgrade-orchestrator/internal/controller/upgradeorchestrator_controller.go.releasePDB:169-179 | Looking at pods changes no budget; a yes records every app as seen |
| LayeredSafety.ProcessLayerSafe | upgrade-orchestrator/internal/controller/upgradeorchestrator_controller.go.releasePDB:160-193 | One layer alone is open meanwhile, and the cursor moves only past a layer that was seen and closed again |
| LayeredSafety.PassSafe | upgrade-orchestrator/internal/controller/upgradeorchestrator_controller.go.releasePDB:47-82 | Every pass in every phase keeps the invariant, whatever its calls answer |
| LayeredSafety.NeverOpenTogether | upgrade-orchestrator/internal/controller/upgradeorchestrator_controller.go.releasePDB:84-271 | In every state of every run, between single writes and after failed ones, all open apps are in one layer, so no app is open together with anything it depends on |
| LayeredSightings.PassIsHonest | upgrade-orchestrator/internal/controller/upgradeorchestrator_controller.go.releasePDB:132-197 | Every sighting a pass logs is true of its pods and of the target it found, it opens apps of the current layer only, and it moves the cursor only after seeing that whole layer itself |
| LayeredSightings.OpenedOnlyAfterDependencies | upgrade-orchestrator/internal/controller/upgradeorchestrator_controller.go.releasePDB:132-197 | Before a budget is opened and since the upgrade started, every transitive dependency was seen by a pass in which all its pods had indeed moved to that pass's target |
| LayeredSightings.SeenOnCurrentTargetIff | upgrade-orchestrator/internal/controller/upgradeorchestrator_controller.go.releasePDB:132-197 | Every pass of the upgrade that left a layer saw all of it on the version the upgrade is heading for now exactly when every such pass had that target |
| LayeredSightings.OpenedOnCurrentTarget | upgrade-orchestrator/internal/controller/upgradeorchestrator_controller.go.releasePDB:132-197 | Under that condition all pods of every transitive dependency of an opened app had moved to the opening pass's own target in an earlier pass of the same upgrade |
| LayeredTargets.TargetMayChange | upgrade-orchestrator/internal/controller/upgradeorchestrator_controller.go.releasePDB:135-160 | The condition can fail: for every plan of two layers or more a third version opens a second-layer app while a dependency's only pod was never on the new target |
| LayeredProgress.IsAppOnTargetMeans | upgrade-orchestrator/internal/controller/upgradeorchestrator_controller.go.releasePDB:273-312 | A yes means every pod of the app is finished, or runs on a node of the target's precedence or on one that is gone; without failing calls also conversely |
| LayeredProgress.SightingNeedsAnswers | upgrade-orchestrator/internal/controller/upgradeorchestrator_controller.go.releasePDB:273-312 | A yes needs the pod list and one node read per running pod answered |
| LayeredProgress.InitializationConverges | upgrade-orchestrator/internal/controller/upgradeorchestrator_controller.go.releasePDB:84-101 | Each pass creates exactly the next missing budget in layer order; Idle is reached in the pass after the last one, with all at zero |
| LayeredProgress.WrongBudgetBlocksInitialization | upgrade-orchestrator/internal/controller/upgradeorchestrator_controller.go.releasePDB:233-244 | An existing wrong budget is never repaired and keeps every run in Initializing |
| LayeredProgress.AbandonedLayerStaysOpen | upgrade-orchestrator/internal/controller/upgradeorchestrator_controller.go.releasePDB:103-151 | When the nodes converge to one version while a layer is open, that layer stays open for ever: the machine goes to Idle, then Initializing, and never leaves |
| LayeredAbandonment.AbandonedUpgradeRestsIff | upgrade-orchestrator/internal/controller/upgradeorchestrator_controller.go.releasePDB:103-151 | The exact condition: after an upgrade in progress has been seen as over, the machine is back in Idle to stay, until a new upgrade shows, exactly when no budget was open at that moment |
| LayeredAbandonment.CalmIdleLasts | upgrade-orchestrator/internal/controller/upgradeorchestrator_controller.go.releasePDB:103-130 | Idle with all budgets at zero lasts until the nodes show an upgrade, whatever calls fail |
| LayeredAbandonment.LayerMayBeAbandoned | upgrade-orchestrator/internal/controller/upgradeorchestrator_controller.go.releasePDB:132-151 | For every plan with a layer a run from a legal start reaches the failing case |
| LayeredProgress.OtherLayersStayProtected | upgrade-orchestrator/internal/controller/upgradeorchestrator_controller.go.releasePDB:132-197 | During an upgrade every layered app outside the current layer has a budget that reads as zero, and that is the number zero unless it was a text to begin with |
| LayeredProgress.CursorMovesByOne | upgrade-orchestrator/internal/controller/upgradeorchestrator_controller.go.releasePDB:132-197 | The cursor stays or rises by one past a seen and closed layer; Completed only beyond the last layer with nothing open |
| LayeredProgress.CursorStaysInRange | upgrade-orchestrator/internal/controller/upgradeorchestrator_controller.go.releasePDB:153-158 | In every run the cursor of an upgrade starts at zero, never falls, rises by at most one per pass and never exceeds the number of layers |
| LayeredProgress.UpgradeCompletes | upgrade-orchestrator/internal/controller/upgradeorchestrator_controller.go.releasePDB:132-197 | While the nodes do not show the upgrade as over, each progress pass takes it one layer further, with any waiting and failing passes in between; after as many as layers are left and one more it is Completed with all budgets at zero |
| LayeredMoves.CompletedReturnsIff | upgrade-orchestrator/internal/controller/upgradeorchestrator_controller.go.releasePDB:199-216 | A clean pass leaves Completed for Idle at layer zero with budgets unchanged exactly if the nodes have one readable version and all are schedulable |
| LayeredMoves.UpgradeReturnsToIdle | upgrade-orchestrator/internal/controller/upgradeorchestrator_controller.go.releasePDB:132-216 | A whole upgrade and back: after enough progress passes the first clean pass on nodes that show no upgrade leads to Idle at layer zero with all budgets at zero, to stay until an upgrade shows |
| LayeredMoves.FirstMove | upgrade-orchestrator/internal/controller/upgradeorchestrator_controller.go.releasePDB:56-67 | A new object starts initializing, and an invalid plan stops everything else |
| LayeredMoves.UnreadObjectStays | upgrade-orchestrator/internal/controller/upgradeorchestrator_controller.go.releasePDB:47-53 | A pass that cannot read the object changes nothing |
| LayeredMoves.InitializingMove | upgrade-orchestrator/internal/controller/upgradeorchestrator_controller.go.releasePDB:84-101 | A clean pass leaves Initializing for Idle exactly if every layered budget reads as zero |
| LayeredMoves.IdleMove | upgrade-orchestrator/internal/controller/upgradeorchestrator_controller.go.releasePDB:103-130 | A clean pass leaves Idle for Upgrading exactly if all budgets read as zero and the nodes show an upgrade, and for Initializing exactly on a wrong or missing budget |
| LayeredMoves.UpgradingMove | upgrade-orchestrator/internal/controller/upgradeorchestrator_controller.go.releasePDB:132-158 | A clean pass gives an upgrade up on nodes that show none, waits without a visible target, and completes it beyond the last layer |
| LayeredMoves.ReadyMeans | upgrade-orchestrator/internal/controller/upgradeorchestrator_controller.go.releasePDB:233-244 | A budget is ready if it can be read and has the value; a failed read or creation is an error |
| LayeredMoves.RetriesSucceedIff | upgrade-orchestrator/internal/controller/upgradeorchestrator_controller.go.releasePDB:246-271 | A write that meets only conflicts succeeds exactly if fewer attempts than allowed meet one, and is then done once |
| LayeredMoves.FourConflictsAreRetried | upgrade-orchestrator/internal/controller/upgradeorchestrator_controller.go.releasePDB:249 | Five attempts are made |
| LayeredMoves.OtherErrorsAreNotRetried | upgrade-orchestrator/internal/controller/upgradeorchestrator_controller.go.releasePDB:246-271 | Any other error ends the attempts at once |
| LayeredProgress.PassFollowsProtocol | upgrade-orchestrator/internal/controller/upgradeorchestrator_controller.go.releasePDB:70-79 | Where each phase can lead in one pass, and what must have been seen for it |
| LayeredController.Reconciler.EnsurePdbState | upgrade-orchestrator/internal/controller/upgradeorchestrator_controller.go.releasePDB:246-271 | The retry loop of at most five attempts, for every outcome of every call |
| LayeredController.Reconciler.IsPdbInState | upgrade-orchestrator/internal/controller/upgradeorchestrator_controller.go.releasePDB:233-244 | A missing budget is created and counts as not ready |
| LayeredController.Reconciler.CheckAllPdbsState | upgrade-orchestrator/internal/controller/upgradeorchestrator_controller.go.releasePDB:218-231 | The nested loop stops at the first app that is not ready |
| LayeredController.Reconciler.IsAppOnTargetVersion | upgrade-orchestrator/internal/controller/upgradeorchestrator_controller.go.releasePDB:273-312 | Answer and calls used are those of the specification |
| LayeredController.Reconciler.AreAppsOnTargetVersion | upgrade-orchestrator/internal/controller/upgradeorchestrator_controller.go.releasePDB:169-179 | The migration loop stops at the first no or error |
| LayeredController.Reconciler.FindTargetNodeVersion | upgrade-orchestrator/internal/controller/upgradeorchestrator_controller.go.releasePDB:314-358 | Answer and calls used are those of the specification |
| LayeredController.Reconciler.ReconcileInitializing | upgrade-orchestrator/internal/controller/upgradeorchestrator_controller.go.releasePDB:84-101 | Whole new state |
| LayeredController.Reconciler.ReconcileIdle | upgrade-orchestrator/internal/controller/upgradeorchestrator_controller.go.releasePDB:103-130 | Whole new state |
| LayeredController.Reconciler.ReconcileUpgrading | upgrade-orchestrator/internal/controller/upgradeorchestrator_controller.go.releasePDB:132-197 | Whole new state |
| LayeredController.Reconciler.ReconcileCompleted | upgrade-orchestrator/internal/controller/upgradeorchestrator_controller.go.releasePDB:199-216 | Whole new state |
| LayeredController.Reconciler.Reconcile | upgrade-orchestrator/internal/controller/upgradeorchestrator_controller.go.releasePDB:47-82 | Whole new state, with the layers computed afresh |
| SlackReport.SlackReporter.SendReport | kafka-access-monitor-operator/internal/discovery/slack_reporter.go:39-88 | Nothing without pods; only the summary if that fails; otherwise the pages of each namespace carry the report of each of its pods exactly once, in sorted order |
| SlackReport.SlackReporter.SendGroups | kafka-access-monitor-operator/internal/discovery/slack_reporter.go:54-86 | The same for any order of the namespaces |
| SlackReport.SlackReporter.SendNamespace | kafka-access-monitor-operator/internal/discovery/slack_reporter.go:62-84 | Pages are numbered consecutively, end only where the next report would not fit, and exceed the limit only with a single report below a page header |
| SlackReport.SlackReporter.SortPods | kafka-access-monitor-operator/internal/discovery/slack_reporter.go:55-60 | Some permutation ordered by the comparison function |
| SlackReport.GroupByNamespace | kafka-access-monitor-operator/internal/discovery/slack_reporter.go:49-52 | Each namespace maps to its pods in input order |
| SlackReport.LastPageIsNeverDropped | kafka-access-monitor-operator/internal/discovery/slack_reporter.go:82-84 | The length test against the first header passes for every page that holds a report, although later pages have another header |
| SlackReport.StartNextPage | kafka-access-monitor-operator/internal/discovery/slack_reporter.go:72-78 | An overflowing report closes the page and starts the next |
| SlackReport.Truncate | kafka-access-monitor-operator/internal/discovery/slack_reporter.go:160-165 | Never longer than the limit, and unchanged if short enough |
| SlackReport.TruncateKeepsBeginning | kafka-access-monitor-operator/internal/discovery/slack_reporter.go:160-165 | Longer text keeps its beginning and ends in three dots |
| SlackReport.ReportShowsPod | kafka-access-monitor-operator/internal/discovery/slack_reporter.go:91-107 | The report of a pod has its name and a row for each of its fields |
| SlackReport.IconShowsClientType | kafka-access-monitor-operator/internal/discovery/slack_reporter.go:91-101 | It begins with the icon of its kind of client |
| SlackReport.RowColumns | kafka-access-monitor-operator/internal/discovery/slack_reporter.go:145-157 | A row is the title in 22 columns, a colon and the value, or N/A without one |
| SlackReport.HeadersShowNamespace | kafka-access-monitor-operator/internal/discovery/slack_reporter.go:62-77 | The first header counts the namespace's clients, later ones the pages |

## Left out

- Kubernetes transport, watches, leader election, manager set-up, CRDs, charts and generated code: plumbing around the modelled calls.
- Logging, requeue delays, message times and pauses between messages; the five-minute timeout is kept with a clock in seconds.
- Objects outside the orchestrator's namespace, and a StatefulSet or Deployment appearing or disappearing during a run.
- The text form of the saved spec: annotations hold JSON values, and text that is not JSON fails to decode.
- Syntax checks on label keys and values inside selectors; operators and value counts are checked.
- Reading a version out of a string: a parameter of every result, so they hold for any parser. Build metadata takes no part in precedence.
- Nil versus empty maps and lists, which the API server does not distinguish.
- SetControllerReference, which only fails for an unregistered type.
- The outcome of sending a page, which the source prints and ignores; the HTTP client itself.
- Stale reads from a cache: a read sees every write applied before it.
- The error value that a reconcile pass returns, which only affects when the next pass comes.
- upgradeorchestrator_controller.go.xxx: a blocking rollout loop that both designs replaced.
- The certificate monitors, the Kafka configuration parser, log diagnostics and access-query controllers: filters and calls to outside services that would only add easy members.
