# Verification of the deployment transition, the snapshot scheduler and the expression printer

Disnix moves a network of machines from one configuration to another. This project models the parts of it in which
order, shared state and failure meet, and proves what they promise.

**The transition.** A manifest lists service mappings (service, container, machine), the services with their
inter-dependencies, and the machines. A transition deactivates the mappings that only the previous manifest has, in
reverse dependency order, then activates the ones that only the new manifest has, in dependency order. When a phase
fails or is interrupted, compensating traversals restore the previous configuration. `Protocol` defines the statuses
and the steps that can change them; `Safety`, `Cores` and `Blocking` prove what every run of such steps keeps, and
`Requests` when a run asks the operating system for which process.
`Coordinators` holds the mutable tables (mapping objects, process table, cores) and proves that each operation on them
is one such step. `Traversal` holds the two recursive strategies and the sweep loop, with the reasoning about single
visits and whole sweeps in `Visits` and `Sweeps`; `Starvation` says when that loop never ends. `Configurations` and
`Manifests` say what the traversals of a transition contribute to it, and `Transitions` is the transition itself.
`Scenarios` holds small runs that show what the general results warn of. `Environments` is the operating system: which
process finishes next and how, whether a process can be created, when a wait is interrupted and when the interrupt flag
is set are all nondeterministic, without bounds. It keeps a history of what has been asked of it, which ties every run
to the processes that were really created and reaped.

The sweep loop of the program may go on for ever. Here every traversal is watched for an arbitrary number of sweeps,
`patience`, and not having returned by then is an outcome of its own; so everything that is stated about runs covers
every finite part of a traversal that never returns.

**The set algebra.** `InterDependencyMappings`, `ServiceMappings` and `ServicesTables` hold the order of mapping keys,
binary search, intersection, difference and union of sorted arrays, and the union of services tables.

**The snapshot scheduler.** `SnapshotSchedules` describes its rounds as a function of what the environment chooses,
`SnapshotTheorems` and `SnapshotLimits` prove exactly when it runs every mapping once, `SnapshotVerdicts` and
`SnapshotSuccess` when it reports success, from what it has asked for, and `SnapshotAccounts` what becomes of cores and
marks. `Snapshots` is the scheduler on mutable objects, proved to follow that function.

**Expressions.** `NixXmlNodes` compares generic trees, `NixXmlPrinting` prints them as verbose XML, `NixXmlParsing`
parses them. `XmlText`, `XmlDocuments`, `XmlReading` and `XmlTags` are a reader for the part of XML that the printer
emits, after sections 2.2, 2.4, 2.11, 3.1, 3.3.3 and 4.6 of XML 1.0 (Fifth Edition), since the parser works on the trees
of an external XML library. `NixXmlReception` and `NixXmlNames` say what becomes of the texts and of the attribute names
of a tree, and `NixXmlRoundTrip` puts them together.

## What the code relies on

The transition does not check, and its contract requires: every dependency of a mapping is a mapping of the same
manifest, dependencies have no cycles, mapping and dependency arrays are sorted and without duplicates, the two services
tables agree on shared keys (which are hash codes), the manifests share no mapping objects, on a first install all
mappings are deactivated (as parsed), and no processes are outstanding. Nothing is demanded of the numbers of cores, of
process creation or of interrupts. Statuses are what the coordinator has recorded: re-marking an error turns it into a
belief about the machine.

## Findings

- A failed process creation keeps the core it was given (src/libmanifest/servicemapping-traverse.c:46-58). A machine that
  has lost all its cores never serves a mapping again (`Starvation.ForsakenForEver`), and the sweep loop never ends
  exactly when a sweep begins with a root that is blocked by a mapping of such a machine
  (`Traversal.TraverseServiceMappings`); one refusal on a machine with one core is enough
  (`Scenarios.OneCoreRefusedOnce`), although a traversal that was at its last sweep still returns
  (`Scenarios.OneCoreRefusedAndReturned`). As long as every machine keeps a core, a transition ends
  (`Transitions.EndsWhileCoresLast`).
- A machine without a core count gets one core that is never made available (src/libinfrastructure/target.c:33-60), so
  its mappings are starved from the start (`Scenarios.NoCoresFromTheStart`).
- The snapshot scheduler marks a mapping only when it completes. With two mappings to run and a machine with two cores a
  mapping can be started while it is still running, and a process can be left outstanding
  (`SnapshotLimits.TwoComponentsOnTwoCores`).
- When a process cannot be created during a rollback, the rollback is reported as failed even if it did restore the
  previous configuration: a mapping that depends on the refused one starts it again, but the traversal remembers the
  refusal (`Scenarios.RestoredButFailed`). Rollback exactness is therefore stated with `Configurations.RollbackRefused`;
  refusals before the rollback do not matter.
- An obsolete mapping whose machine has gone counts as deactivated without a process
  (src/libmanifest/servicemapping-traverse.c:179-184). No rollback can bring it back, so a transition that rolls back after
  that is reported as a failed rollback although none of its processes failed (`Scenarios.SkippedIsNotBroughtBack`).
  `Transitions.Outcome` therefore states when a rollback succeeds with `Configurations.Skipping`.
- A property with an empty value makes the parser follow a null pointer (src/libnixxml/nixxml-parse.c:31-37). Among the
  documents that are read, the parser stops there exactly when some attribute name is empty or begins with a quote
  (`NixXmlRoundTrip.StopsExactlyWhenUnnamed`, `NixXmlRoundTrip.EmptyName`).
- Only angle brackets are escaped (src/libnixxml/nixxml-print-xml.c:24-46). Texts with an ampersand, a carriage
  return or a character that XML forbids never survive a round trip, attribute names neither, nor those with a quote, a
  tab or a line break or without characters; all other trees do (`NixXmlRoundTrip.RoundTrip`).
- src/libdeploy/transition.h:38-48 documents parameters that the function does not have; the model follows the code.

## Model

| member | source | states |
|---|---|---|
| Transitions.Transition | src/libdeploy/transition.c:194-258 | A whole transition, first install or upgrade, for any machines, creations and interrupts: one lawful run whose commands are exactly what has been asked of the operating system. Whatever the outcome, a process to activate is only asked for a mapping recorded as deactivated with all its dependencies activated, one to deactivate only for a mapping recorded as activated with all that depends on it deactivated, none for a kept mapping, no command is given twice and none to a mapping whose process has failed; in every state dependencies of what is not deactivated are activated and no machine exceeds its cores; cores are conserved. It succeeds exactly when no process is refused or fails, no interrupt is seen and every added mapping has its machine, and then exactly the new configuration is activated and one process has been created to activate each added mapping, one to deactivate each obsolete mapping on a present machine, and nothing else. With rollback enabled an unsuccessful one is a plain failure exactly when no process of a rollback fails or is refused and no obsolete mapping was given up with its machine, which is exactly when all statuses are as at the start and no process was refused to a rollback. An interrupted wait excludes success; it does not end only while a root of the traversal it is in is starved or its sweeps have not been watched for long enough |
| Transitions.OutcomeIsAsked | src/libdeploy/transition.c:36-64 | What every outcome means for the operating system: activations and deactivations are asked for when the recorded statuses call for them, once each on success, never for kept mappings and never again after a failure |
| Requests.LawfulIsJustified | src/libdeploy/transition.c:36-64 | For every process asked for there is a point of the run at which just the earlier ones had been asked for and at which it was called for: deactivated and dependencies activated, or activated and dependents deactivated, with its machine present |
| Requests.CreationsAreStarts | src/libdeploy/transition.c:36-64 | The processes created to activate and to deactivate a mapping are counted by the commands of either direction |
| Requests.DirectedFailures | src/libmanifest/servicemapping-traverse.c:106-194 | In one traversal no process is asked for a mapping whose process has failed |
| Requests.CommandedFromOrigin | src/libmanifest/servicemapping-traverse.c:106-194 | A traversal commands only mappings that it has found with the opposite status |
| Requests.AnsweredThenConsiderate | src/libdeploy/transition.c:101-148 | A rollback that leaves erroneous mappings alone asks for no process for a mapping that failed before it |
| Transitions.RunTransition | src/libdeploy/transition.c:216-256 | The same promises for any arrays that list the obsolete, added and previous mappings, with the recorded end state held by the mapping objects |
| Transitions.ExecutePhases | src/libdeploy/transition.c:243-245 | The activation phase follows only a successful deactivation phase; outcomes, commands and reasons for not ending combine to those of the transition |
| Transitions.Difference | src/libdeploy/transition.c:214-227 | Obsolete, added and united arrays list exactly the set differences and the union; statuses are activated exactly on previous keys; the services are the left-biased union |
| Transitions.DeactivateObsoleteMappings | src/libdeploy/transition.c:107-142 | Success exactly without faults and interrupts, leaving what both configurations have and each obsolete mapping stopped once; else, unless disabled, a rollback, reported as a plain failure exactly when none of its processes fails and no obsolete mapping was given up with its machine, which is exactly when the previous configuration is back and no process was refused to the rollback; no status only while the traversal over the obsolete mappings, or the one that brings them back, goes on |
| Transitions.DeactivateUnlessInterrupted | src/libdeploy/transition.c:115-116 | Only obsolete mappings are touched, whether or not the traversal returns; success exactly when no process fails and the flag is not set, and then each is stopped once where its machine is present |
| Transitions.ActivateNewMappings | src/libdeploy/transition.c:150-192 | Success exactly without faults, interrupts and missing machines, with the new configuration activated and each added mapping started once; else, unless disabled, up to two compensating traversals, a plain failure exactly when none of their processes fails and all obsolete mappings have their machines; no obsolete mapping is stopped |
| Transitions.ActivateUnlessInterrupted | src/libdeploy/transition.c:154-155 | Kept mappings receive nothing, whether or not the traversal returns; success exactly when no process fails, the flag is not set and all added mappings have machines |
| Transitions.RevertActivation | src/libdeploy/transition.c:172-189 | A plain failure exactly when no process fails and all obsolete mappings have their machines, which is exactly when the previous configuration is back and no process was refused; mappings that were erroneous before are given no command; a failure to take back added mappings leaves the obsolete ones deactivated, a failure to bring those back happens only with all added ones deactivated |
| Transitions.AfterDeactivation | src/libdeploy/transition.c:117-139 | A failed deactivation phase and its rollback settle together: the verdict on the rollback is that of the transition |
| Transitions.AfterWithdrawal | src/libdeploy/transition.c:172-189 | Taking back the added mappings and bringing back the obsolete ones together, for each verdict of the second |
| Transitions.RollbackToOldMappings | src/libdeploy/transition.c:101-105 | Success exactly when no process fails and every mapping that was deactivated has its machine, which is exactly when the previous configuration is restored and no process was refused; only mappings that were deactivated are given a command, erroneous ones are activated at once without a process; added mappings stay deactivated either way |
| Transitions.RollbackNewMappings | src/libdeploy/transition.c:144-148 | Success exactly when no process fails, which is exactly when all added mappings are deactivated again and no process was refused; only mappings that were activated are given a command, erroneous ones are deactivated at once without a process; then exactly the kept mappings are activated, and obsolete ones stay deactivated either way |
| Transitions.MarkErroneousMappings | src/libdeploy/transition.c:88-99 | Exactly the erroneous mappings change, to the given status, each by one re-marking and nothing else, which keeps the dependency invariant |
| Transitions.SettledIsOutcome | src/libdeploy/transition.c:101-192 | A configuration that is deployed again has the very statuses of the start, so the plain failure of either phase is exact |
| Transitions.EndsWhileCoresLast | src/libmanifest/servicemapping-traverse.c:197-228 | As long as every machine has lost fewer cores to failed creations than it had, a transition whose traversals are watched for as many sweeps as there are mappings and interrupted waits, and one more, ends |
| Transitions.PhasesInTurn | src/libdeploy/transition.c:243-245 | Both phases together give each command at most once, and exactly the demanded ones when both succeed |
| Manifests.SaneThroughout | src/libdeploy/transition.c:194-258 | At every point of every transition: dependency invariant, kept mappings activated, core limits, and outstanding processes bounded by interrupted waits |
| Manifests.PlanOfBoth | src/libdeploy/transition.c:214-227 | Two closed, acyclic manifests that agree on shared services make a well-formed plan: their union is acyclic |
| Manifests.InitialIsReady | src/libmanifest/servicemappingarray.c:118-136 | The statuses stamped at the start satisfy the dependency invariant and the core accounting |
| Configurations.DifferencesAreClosed | src/libmanifest/servicemapping-traverse.c:25-42 | By closure of both manifests, only obsolete mappings depend on obsolete ones, and only added on added: inverse dependencies never lead to a kept mapping |
| Configurations.SucceedsExactly | src/libmanifest/servicemapping-traverse.c:197-228 | A traversal that starts without errors succeeds exactly when no process fails and, when activating, no machine is missing |
| Configurations.FailureLasts | src/libmanifest/servicemapping-traverse.c:106-143 | A mapping whose process failed stays erroneous for the rest of the traversal |
| Configurations.ErrorHasCause | src/libdeploy/transition.c:66-86 | A mapping becomes erroneous only by a process that failed |
| Configurations.ObsoletePhase | src/libdeploy/transition.c:107-142 | What a deactivation traversal over the obsolete mappings leaves behind, whether or not it returns or succeeds |
| Configurations.AddedPhase | src/libdeploy/transition.c:150-192 | What an activation traversal over the added mappings leaves behind, whether or not it returns or succeeds |
| Configurations.WithdrawalPhase | src/libdeploy/transition.c:144-148 | What the rollback of the added mappings leaves behind, and when exactly it succeeds |
| Configurations.RestorationPhase | src/libdeploy/transition.c:101-105 | What the rollback to the previous mappings leaves behind, and when exactly it succeeds |
| Configurations.RollbackSucceeds | src/libdeploy/transition.c:101-148 | A compensating traversal succeeds exactly when none of its processes fails and, when it activates, every mapping that is deactivated has its machine |
| Configurations.CorrectsAfterRemark | src/libdeploy/transition.c:88-105 | Re-marking and the traversal after it: erroneous mappings have the believed status to the end and receive nothing, all commands go to mappings found with the opposite status |
| Configurations.SkippedExactlyWhenGone | src/libmanifest/servicemapping-traverse.c:179-184 | An activated mapping is skipped exactly when it ends up deactivated although its machine has gone |
| Configurations.FaultIsTrouble | src/libdeploy/transition.c:66-86 | A run has a fault exactly when the operating system has refused a process or one has failed |
| Configurations.BackwardRefusals | src/libdeploy/transition.c:101-148 | A process refused to a compensating traversal can be told from one refused to a phase: it goes in the other direction |
| Configurations.StartedExactlyOnce | src/libmanifest/servicemapping-traverse.c:44-71 | A traversal starts exactly one process for each mapping that it moves on a present machine, and none for any other |
| Configurations.SparingConcat | src/libdeploy/transition.c:101-192 | Runs that give different commands do so together: no mapping is given the same command twice |
| Configurations.SteeredConcat | src/libdeploy/transition.c:243-245 | Traversals in sequence keep: lawful, kept mappings untouched, a wait after every creation, and no added mapping begun before all obsolete ones are deactivated |
| Configurations.SteeredUp | src/libdeploy/transition.c:216-223 | Kept mappings never receive a command while a configuration is activated |
| Configurations.SteeredDown | src/libdeploy/transition.c:216-223 | Kept mappings never receive a command while others are deactivated |
| Configurations.DeployedIsSafe | src/libdeploy/transition.c:194-258 | A closed configuration satisfies the dependency invariant |
| Protocol.HistoryIsActions | src/libmanifest/servicemapping-traverse.c:44-97 | The history of created, refused, completed and interrupted processes grows by just the events of a run |
| Protocol.SignalIsAction | src/libmain/interrupt.c:29-43 | An interrupted wait is in the history, whose signals set the flag |
| Traversal.TraverseServiceMappings | src/libmanifest/servicemapping-traverse.c:197-228 | For any completion order, interrupt timing and failed creation, watched for any number of sweeps: the run is lawful and stays in the closed scope of the roots; when it returns nothing is in progress, TRUE is returned exactly when every root is at the goal and no creation failed, every other root has a chain to an erroneous mapping or a missing machine, or in the last sweep a process was refused to what blocked it, and the sweeps number at most the mappings plus the interrupted waits plus one; watched for more sweeps than that, it has not returned exactly when a sweep has begun with a starved root |
| Traversal.Sweep | src/libmanifest/servicemapping-traverse.c:204-224 | One sweep lowers what is left to do unless every root is done or failed, or a root is starved; a sweep that begins with a starved root has to be repeated and leaves it starved |
| Traversal.VisitNextRoot | src/libmanifest/servicemapping-traverse.c:208-222 | One visit with its wait: the count of finished roots, and what is left to do decreases when the root has to be visited again, unless a root is starved |
| Traversal.VisitRoot | src/libmanifest/servicemapping-traverse.c:208-222 | One application of the strategy, then exactly one wait |
| Traversal.TraverseInterDependencyMappings | src/libmanifest/servicemapping-traverse.c:99-144 | Walks the dependencies depth-first; the status reported says where the walk is blocked: nothing left, a running process, no free core, or an error |
| Traversal.TraverseInterdependentMappings | src/libmanifest/servicemapping-traverse.c:146-195 | The same walk along the inverse dependencies; mappings whose machine has gone are skipped |
| Traversal.VisitInterDependencies | src/libmanifest/servicemapping-traverse.c:106-121 | The first dependency that is not done decides the status |
| Traversal.VisitInterdependents | src/libmanifest/servicemapping-traverse.c:152-169 | The first interdependent mapping that is not done decides the status |
| Traversal.ActivateMapping | src/libmanifest/servicemapping-traverse.c:122-143 | The case analysis on the status of a mapping whose dependencies are all activated |
| Traversal.DeactivateMapping | src/libmanifest/servicemapping-traverse.c:171-194 | The case analysis on the status of a mapping whose dependents are all deactivated |
| Traversal.SkipMapping | src/libmanifest/servicemapping-traverse.c:179-184 | A mapping on a machine that has gone becomes deactivated without a process |
| Traversal.FindInterdependentServiceMappings | src/libmanifest/servicemapping-traverse.c:25-42 | Exactly the mappings with a dependency on the given one, in array order |
| Coordinators.Coordinator.AttemptToMapServiceMapping | src/libmanifest/servicemapping-traverse.c:44-71 | One lawful step that starts a process, one that fails to and keeps the core, or nothing when the machine is full |
| Coordinators.Coordinator.WaitForServiceMappingToComplete | src/libmanifest/servicemapping-traverse.c:73-97 | Nothing without processes; else one mapping in progress completes and its core is returned, or the wait is interrupted and changes nothing but the flag |
| Coordinators.Coordinator.CreateProcess | src/libmanifest/servicemapping-traverse.c:49-67 | A created process is recorded and its mapping in progress; a failed creation only loses the core; what is asked for is to activate when activating and to deactivate when deactivating |
| Coordinators.Coordinator.CompleteServiceMapping | src/libmanifest/servicemapping-traverse.c:80-91 | The process is forgotten and its mapping gets the result; its machine is owed one core |
| Coordinators.Coordinator.ReapProcess | src/libmanifest/servicemapping-traverse.c:80-96 | Completion and return of the core together restore the accounting of all tables |
| Coordinators.Coordinator.Remark | src/libdeploy/transition.c:88-99 | One status changes without a process; process table and cores stay accounted for |
| Coordinators.Coordinator.OutstandingIsInFlight | src/libmanifest/servicemapping-traverse.c:73-80 | A process is outstanding exactly when a mapping is in progress |
| Coordinators.RegisteredStart | src/libmanifest/servicemapping-traverse.c:59-67 | The process table stays one-to-one with the mappings in progress when a process is recorded |
| Coordinators.RegisteredFinish | src/libmanifest/servicemapping-traverse.c:80-91 | The process table stays one-to-one with the mappings in progress when a process is reaped |
| Environments.Environment.Fork | src/libmanifest/servicemapping-traverse.c:49-67 | A fresh process, or -1 at any time |
| Environments.Environment.Wait | src/libmanifest/servicemapping-traverse.c:75-80 | Some outstanding process with some result, -1 without any, or -1 after a signal, whose handler sets the flag |
| Environments.Environment.ReadInterrupted | src/libmain/interrupt.c:27-43 | The flag may be set at any moment and is never cleared |
| Targets.Target.constructor | src/libinfrastructure/target.c:33-60 | Without a core count a machine has one core of which none is available; any number that was read is taken for the count |
| Targets.Target.RequestAvailableTargetCore | src/libinfrastructure/target.c:230-239 | A core is taken exactly when one is available |
| Targets.Target.SignalAvailableTargetCore | src/libinfrastructure/target.c:241-244 | One more core is available |
| Safety.StepKeepsSafe | src/libmanifest/servicemapping-traverse.c:99-195 | Every step of either direction, and every re-marking of an error, keeps: what is not deactivated has all dependencies activated |
| Safety.SafeThroughout | src/libmanifest/servicemapping-traverse.c:99-195 | The dependency invariant holds in every reachable state of every run |
| Safety.RunProgresses | src/libmanifest/servicemapping-traverse.c:106-194 | Within one traversal statuses only move forward and finished mappings do not move |
| Safety.StartedAtMostOnce | src/libmanifest/servicemapping-traverse.c:44-71 | In one traversal a mapping is started at most once |
| Safety.CommandsAreOrdered | src/libmanifest/servicemapping-traverse.c:106-163 | A command is given only after everything that has to precede it was at the goal, has completed or was skipped: the commands are in topological order |
| Safety.GoalIsReached | src/libmanifest/servicemapping-traverse.c:106-194 | A mapping is at the goal because it was, because its command succeeded or because its machine has gone |
| Safety.GoalIsUntouched | src/libmanifest/servicemapping-traverse.c:122-194 | A mapping at the goal of a traversal receives nothing from it |
| Cores.CoresThroughout | src/libmanifest/servicemapping-traverse.c:44-97 | In every reachable state the mappings in progress on a machine and its lost cores fit its cores |
| Cores.LostIsFailedForks | src/libmanifest/servicemapping-traverse.c:46-58 | A machine loses exactly one core per failed process creation |
| Cores.Paced | src/libmanifest/servicemapping-traverse.c:208-222 | Outstanding processes never exceed the interrupted waits so far, plus the one just created |
| Cores.SequentialWithoutInterrupts | src/libmanifest/servicemapping-traverse.c:73-97 | Without interrupted waits every command completes before anything else happens |
| Blocking.BlockerIsFront | src/libmanifest/servicemapping-traverse.c:106-143 | Where a walk stops is the only thing missing: all that precedes it is at the goal |
| Blocking.BlockerIsStable | src/libmanifest/servicemapping-traverse.c:99-195 | While others advance, a root stays blocked by the same mapping until that one is done |
| Blocking.BlockerChain | src/libmanifest/servicemapping-traverse.c:99-195 | A chain of (inverse) dependencies leads from a root to what blocks it |
| Blocking.BlockerInScope | src/libmanifest/servicemapping-traverse.c:99-195 | A walk never leaves a set that is closed under what has to precede |
| Blocking.ClearExactlyAtGoal | src/libmanifest/servicemapping-traverse.c:106-194 | In a safe state a walk finds nothing to do exactly when its root is at the goal |
| Visits.UnderwayRelays | src/libmanifest/servicemapping-traverse.c:106-121 | The status relayed from a mapping that precedes says where the walk of its successor is blocked |
| Visits.VisitAttempts | src/libmanifest/servicemapping-traverse.c:44-71 | A visit makes at most one attempt to create a process, as its last step |
| Sweeps.SweepingVisit | src/libmanifest/servicemapping-traverse.c:208-222 | Every mapping in progress keeps some root waiting, also when later visits overtake and waits are interrupted |
| Sweeps.SweepEnds | src/libmanifest/servicemapping-traverse.c:204-227 | When all roots of a sweep are done or failed nothing is in progress, and the verdict on the roots is exact |
| Sweeps.VisitProgress | src/libmanifest/servicemapping-traverse.c:204-224 | A visit that leaves its root waiting lowers the commands left, uses up an interrupted wait or leaves the root starved |
| Sweeps.TalliedVisit | src/libmanifest/servicemapping-traverse.c:204-227 | Over one more visit: what is left to do, and that a starved root has to be visited again |
| Sweeps.LastSweep | src/libmanifest/servicemapping-traverse.c:204-227 | A sweep that ends the traversal has not begun with a starved root |
| Sweeps.ExcusingVisit | src/libmanifest/servicemapping-traverse.c:208-222 | A root that needs no further visit is at the goal, blocked for good, or was refused a process in this sweep: one refusal does not end the work on the others |
| Sweeps.RefusedToBlocker | src/libmanifest/servicemapping-traverse.c:46-58 | A visit that fails by a refused creation has found its root blocked by the very mapping that was to be started |
| Starvation.IdleIsStarved | src/libmanifest/servicemapping-traverse.c:48-70 | A visit that leaves its root unfinished although nothing is in progress leaves it starved: blocked by a mapping whose machine has no cores left |
| Starvation.StarvedForEver | src/libmanifest/servicemapping-traverse.c:44-71 | A starved root stays starved, blocked by the same mapping, whatever else the traversal does |
| Starvation.StarvedWaits | src/libmanifest/servicemapping-traverse.c:99-195 | A visit to a starved root reports that it waits, never that it is done or failed |
| Starvation.ForsakenForEver | src/libmanifest/servicemapping-traverse.c:46-58 | A machine that has lost its cores serves no mapping again |
| Scenarios.OneCoreRefusedOnce | src/libmanifest/servicemapping-traverse.c:46-58 | A refused creation on a machine with one core starves both of two mappings, for every continuation |
| Scenarios.NoCoresFromTheStart | src/libinfrastructure/target.c:33-60 | A machine without a core count starves its mappings from the start |
| Scenarios.OneCoreRefusedAndReturned | src/libmanifest/servicemapping-traverse.c:204-227 | With a single root the same refusal makes the traversal return without success |
| Scenarios.RestoredButFailed | src/libdeploy/transition.c:101-105 | A rollback run with a refusal that restores both of two mappings, yet returns without success |
| Scenarios.SkippedIsNotBroughtBack | src/libmanifest/servicemapping-traverse.c:179-184 | One mapping on a machine that has gone: deactivating it succeeds, and the traversal that should bring it back returns without success |
| InterDependencyMappings.CompareKeysTotalOrder | src/libmanifest/interdependencymapping.c:25-43 | The comparison by machine, container and service is a strict total order |
| InterDependencyMappings.MachineThenContainerThenService | src/libmanifest/interdependencymapping.c:25-43 | A difference in the machines decides alone, then one in the containers, and last one in the services |
| InterDependencyMappings.CompareStringsIsFirstDifference | src/libmanifest/interdependencymapping.c:30-37 | Strings are ordered by their first difference, a proper prefix first |
| InterDependencyMappings.BinarySearch | src/libmanifest/interdependencymappingarray.c:69-77 | A key is found exactly when the sorted array holds it |
| InterDependencyMappings.CompareInterdependencyMappingArrays | src/libmanifest/interdependencymappingarray.c:50-67 | TRUE exactly when both arrays have the same keys, hence are equal |
| InterDependencyMappings.SameKeysSameArray | src/libmanifest/interdependencymappingarray.c:50-67 | Sorted arrays with the same keys are the same sequence |
| InterDependencyMappings.EqualSizeSubsetIsEqual | src/libmanifest/interdependencymappingarray.c:50-67 | Equal length and inclusion one way give equality: the one-sided search suffices |
| ServiceMappings.FindServiceMapping | src/libmanifest/servicemappingarray.c:74-82 | The mapping with the key, exactly when there is one |
| ServiceMappings.CompareServiceMappingArrays | src/libmanifest/servicemappingarray.c:45-62 | TRUE exactly when both arrays have the same keys |
| ServiceMappings.IntersectServiceMappingArrays | src/libmanifest/servicemappingarray.c:84-111 | A sorted array of exactly the common keys, with the objects of the shorter array |
| ServiceMappings.SubstractServiceMappingArrays | src/libmanifest/servicemappingarray.c:145-161 | A sorted array of exactly the left mappings whose keys are not on the right |
| ServiceMappings.UnifyServiceMappingArrays | src/libmanifest/servicemappingarray.c:113-143 | A sorted array of the left mappings and the right ones that are new, as many as left plus right less common; left marked activated, right deactivated |
| ServiceMappings.AppendAdded | src/libmanifest/servicemappingarray.c:127-136 | All right mappings are marked, and those outside the intersection are appended in order |
| ServiceMappings.AddedHolds | src/libmanifest/servicemappingarray.c:127-136 | What is appended is a sorted array of exactly the right mappings outside the intersection |
| ServiceMappings.SortServiceMappings | src/libmanifest/servicemappingarray.c:138-139 | A sorted permutation |
| ServiceMappings.CountOfPart | src/libmanifest/servicemappingarray.c:84-111 | A sorted array counts each member of a sorted part of it once |
| ServicesTables.GenerateUnionServicesTable | src/libmanifest/manifestservicestable.c:44-64 | The union in which the left table prevails |
| ServicesTables.UnionIsSymmetricExactlyWhenAgreed | src/libmanifest/manifestservicestable.c:44-64 | The union does not depend on the order exactly when the tables agree on shared keys; then it serves both alike |
| Snapshots.MapSnapshotItems | src/libmanifest/snapshotmapping-traverse.c:66-106 | Follows the schedule its environment determines, for any number of cores, interrupts and failed creations. From what has been asked of the operating system: TRUE is returned exactly when every wait has reaped a process that reports success, or has found none with no creation refused before; on sequential machines with nothing transferred before, exactly when no creation was refused, no wait interrupted and no process failed, and then every mapping on a present machine has been run exactly once; available cores are those at the start less those held, and a mapping is marked exactly when one of its processes has completed, after which none is asked for |
| SnapshotVerdicts.StatusIsWhatWaitsFind | src/libmanifest/snapshotmapping-traverse.c:28-64 | For any cores and environment the status is the conjunction of what the waits find; processes complete and signals arrive only at waits that find a process running |
| SnapshotSuccess.SuccessExactlyWhenFaultless | src/libmanifest/snapshotmapping-traverse.c:66-106 | On sequential machines, whatever is refused or interrupted, success is the absence of every fault |
| SnapshotSuccess.RoundLowersNeeded | src/libmanifest/snapshotmapping-traverse.c:72-102 | With one core per machine a round that goes well serves one more mapping, so a mapping that has been refused its process leaves one round that fails |
| SnapshotAccounts.FlagsAndCoresFollowActions | src/libmanifest/snapshotmapping-traverse.c:28-106 | Whatever the environment does: cores follow creations, refusals and completions, marks follow completions, and no process is asked for a mapping after one has completed |
| Snapshots.WaitToCompleteSnapshotItem | src/libmanifest/snapshotmapping-traverse.c:28-64 | One outstanding process completes, or the wait fails; TRUE only when a process reported success or the table is empty |
| Snapshots.StartSnapshotItem | src/libmanifest/snapshotmapping-traverse.c:78-96 | One turn of a pass |
| Snapshots.StartSnapshotItems | src/libmanifest/snapshotmapping-traverse.c:74-97 | One pass over all mappings |
| Snapshots.RunRound | src/libmanifest/snapshotmapping-traverse.c:72-102 | One pass and one wait |
| SnapshotSchedules.BegunAfterRounds | src/libmanifest/snapshotmapping-traverse.c:83-95 | The starts counted per mapping are the processes that have been created for it |
| SnapshotSchedules.CoresAreConserved | src/libmanifest/snapshotmapping-traverse.c:28-106 | Whatever the environment does, available, outstanding and lost cores of a machine add up to the same number |
| SnapshotTheorems.SingleCoresRunExactlyOnce | src/libmanifest/snapshotmapping-traverse.c:66-106 | With one core per machine each mapping on a present machine runs exactly once, nothing is left outstanding and the status is the conjunction of the results |
| SnapshotTheorems.RoundTransfersOne | src/libmanifest/snapshotmapping-traverse.c:72-102 | With one core per machine every round transfers one more mapping while there is one left |
| SnapshotTheorems.TurnKeepsOnceEach | src/libmanifest/snapshotmapping-traverse.c:83-95 | With one core per machine a mapping is only started when it has not been started before |
| SnapshotLimits.ExactlyOnceExactlyWhenSequential | src/libmanifest/snapshotmapping-traverse.c:66-106 | Exactly once for every order of completions if and only if every machine in use has a core and, unless there is a single mapping to run, just one |
| SnapshotLimits.StartedTwice | src/libmanifest/snapshotmapping-traverse.c:72-102 | With two mappings to run and a machine with two cores some order of completions starts a mapping twice |
| SnapshotLimits.NeverStarts | src/libmanifest/snapshotmapping-traverse.c:83-84 | A machine without cores runs nothing |
| SnapshotLimits.TwoComponentsOnTwoCores | src/libmanifest/snapshotmapping-traverse.c:66-106 | The smallest such run: two components on one machine with two cores, one of them started twice and one process left outstanding |
| NixXmlNodes.CompareNodes | src/libnixxml/nixxml-node.c:54-76 | TRUE exactly on structural equality |
| NixXmlNodes.ComparePtrArrays | src/libnixxml-glib/nixxml-gptrarray.c:78-97 | TRUE exactly when the lists are equal by position |
| NixXmlNodes.CompareHashTables | src/libnixxml-glib/nixxml-ghashtable.c:78-103 | TRUE exactly when the tables are equal as maps |
| NixXmlNodes.IncludedTableOfEqualSize | src/libnixxml-glib/nixxml-ghashtable.c:78-103 | Equal size and a one-sided lookup give equality |
| NixXmlPrinting.PrintString | src/libnixxml/nixxml-print-xml.c:24-46 | The text with angle brackets escaped and nothing else changed |
| NixXmlPrinting.PrintOpenVerboseAttrTag | src/libnixxml/nixxml-print-xml.c:53-58 | A start tag with the escaped name as a property, left open |
| NixXmlPrinting.PrintTypeSuffix | src/libnixxml/nixxml-print-xml.c:65-71 | The type property, if one is asked for, and the end of the start tag |
| NixXmlPrinting.PrintList | src/libnixxml/nixxml-print-xml.c:118-124 | The printed form of elements that show the list in order, each on an indented line |
| NixXmlPrinting.PrintListElement | src/libnixxml/nixxml-print-xml.c:109-116 | One element on a line of its own that shows the value |
| NixXmlPrinting.PrintListElements | src/libnixxml-glib/nixxml-gptrarray.c:116-126 | One element per list element, in order |
| NixXmlPrinting.PrintVerboseAttrset | src/libnixxml/nixxml-print-xml.c:152-158 | The printed form of elements that show the attributes, in some order |
| NixXmlPrinting.PrintVerboseAttribute | src/libnixxml/nixxml-print-xml.c:135-142 | One named element on a line of its own that shows the value |
| NixXmlPrinting.PrintVerboseAttributes | src/libnixxml-glib/nixxml-ghashtable.c:193-202 | One element per attribute, each name once, in any order |
| NixXmlPrinting.PrintExprVerboseXml | src/libnixxml/nixxml-print-generic-xml.c:67-96 | Type and content of an element that shows the tree |
| NixXmlPrinting.PrintGenericExprVerboseXml | src/libnixxml/nixxml-print-generic-xml.c:98-110 | What is written is the printed form of an element that shows the tree |
| NixXmlParsing.FindProperty | src/libnixxml/nixxml-parse.c:26-40 | The value of the last property of that name, exactly when there is one; only properties of that name must not be empty |
| NixXmlParsing.ParseList | src/libnixxml/nixxml-parse.c:62-79 | The trees of the child elements that have one, all of them and in order; demanded is only that no property that is looked up is empty |
| NixXmlParsing.ListHoldsTrees | src/libnixxml/nixxml-parse.c:62-79 | The elements are the trees of the children at increasing places, which are all the places with a tree |
| NixXmlParsing.ParseVerboseAttrset | src/libnixxml/nixxml-parse.c:140-174 | A name is in the table exactly when a child element has it and a tree, and stands for the tree of the last such child; demanded is only that no property that is looked up is empty |
| NixXmlParsing.TableHoldsTrees | src/libnixxml/nixxml-parse.c:140-174 | Each name has the tree of the last child element with that name that has one |
| NixXmlParsing.ParseExpr | src/libnixxml/nixxml-parse-generic.c:105-140 | A tree exactly when the last type property is one of list, attrs, string, path, int, float and bool, and then of that kind: a list, a table, or a scalar of that type with the text the element begins with; demanded is only that no property that is looked up is empty |
| NixXmlParsing.ParsedIsUnderstood | src/libnixxml/nixxml-parse-generic.c:105-140 | What the type property of an element says about its tree, type by type |
| XmlText.PlainExactlyWhenDecoded | src/libnixxml/nixxml-print-xml.c:24-46 | A printed text reads back unchanged exactly when it has no ampersand, carriage return or illegal character |
| XmlText.DecodedIsShorter | src/libnixxml/nixxml-print-xml.c:24-46 | Reading a printed text never lengthens it, and an ampersand in it always costs characters |
| XmlReading.ReadsDocument | src/libnixxml/nixxml-print-generic-xml.c:98-110 | A reader of the emitted part of XML returns the printed element as it reads: the start tag as its text says and every text decoded, or refuses it just when one of them cannot be read |
| XmlTags.OpenedIs | src/libnixxml/nixxml-print-xml.c:53-58 | Whatever the text of the first property, also with quotes: the reader finds the end of the start tag where it is, whatever the content of the element, or refuses the tag |
| XmlTags.TagHolds | src/libnixxml/nixxml-print-xml.c:53-71 | The properties read begin with the name as far as it goes and end with the type, under different names |
| XmlTags.ReceivedNameIsShorter | src/libnixxml/nixxml-print-xml.c:24-58 | A received name has no tabs, line breaks or illegal characters and is no longer than the name, shorter with a quote or an ampersand, and empty exactly when the name is empty or begins with a quote |
| NixXmlReception.ShownIsFine | src/libnixxml/nixxml-print-generic-xml.c:67-96 | What the printer emits can be told apart for every tree and every attribute name: delimited start tags, proper element names, separated texts |
| NixXmlReception.ShownIsUnderstood | src/libnixxml/nixxml-parse-generic.c:105-140 | With plain attribute names, parsing what is received of an element that shows a tree gives the tree with its texts decoded |
| NixXmlReception.HeardExactlyWhenPlain | src/libnixxml/nixxml-print-xml.c:24-46 | Decoding leaves a tree unchanged exactly when all its texts are plain |
| NixXmlNames.ReturnedNamesArePlain | src/libnixxml/nixxml-parse.c:140-174 | When the received names of a table are its names again, in whatever order, each name is plain |
| NixXmlNames.ReturnedIsPlain | src/libnixxml/nixxml-parse-generic.c:105-140 | A tree that comes back has plain attribute names only |
| NixXmlNames.FilledExactlyWhenNamed | src/libnixxml/nixxml-parse.c:26-40 | What is received of a tree holds no empty property where the parser looks exactly when no attribute name is empty or begins with a quote |
| NixXmlRoundTrip.RoundTrip | src/libnixxml/nixxml-print-generic-xml.c:67-110 | For every tree, every indentation and every order of attributes, printing, reading and parsing gives the tree back exactly when all its texts are plain and all its attribute names are plain and not empty |
| NixXmlRoundTrip.RecoveredIsHeard | src/libnixxml/nixxml-print-generic-xml.c:67-110 | With plain attribute names, what comes back is the tree with its texts decoded |
| NixXmlRoundTrip.StopsExactlyWhenUnnamed | src/libnixxml/nixxml-parse.c:31-37 | A document that is read stops the parser at an empty property exactly when some attribute name in the tree is empty or begins with a quote |
| NixXmlRoundTrip.EmptyName | src/libnixxml/nixxml-parse.c:31-37 | One attribute with an empty name: the document is read, and the parser stops at the empty property |

## Left out

- NixXmlRoundTrip.RoundTrip: the names of elements and properties, which the caller chooses, are required to be XML names and the two property names to differ; that these are also necessary is not stated.
- XmlDocuments.ReadElement: reads what the printer emits; comments, empty-element tags, single quotes, white space inside tags and character references are refused, and names are ASCII.
- Targets.Target.constructor: takes the number that `atoi` has read; what that makes of other texts is not modelled.
- ServiceMappings.SortServiceMappings: the sort of the external library is an insertion sort here; only its result matters.
- NixXmlPrinting.PrintVerboseAttributes: the order in which the external hash table is walked is arbitrary; the ordered walk is one such order.
- Strings are sequences of characters; their UTF-8 encoding and terminating zero are not part of this model.
- Remote commands and their processes: only that a process is created, finishes and succeeds or not.
- Activation arguments, mapping parameters and container types: no effect on order or status.
- Memory management, logging, dry runs and option parsing.
- Locking, migration, distribution and building: sequences of calls to an external parallel runner.
- The simple-notation XML printer closes the root with the list element name (src/libnixxml/nixxml-print-generic-xml.c:62-64), so its output cannot be read back in general.
- The target-properties wrapper opens a second tag inside an unfinished one (src/libinfrastructure/targetpropertiestable.c:54-62).
- The Nix-expression printer: the repository has no parser for it.
