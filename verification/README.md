# Verification of the compute orchestrator and its neighbours

This project models the parts of the repository whose correctness is hardest to see from one
function at a time, and proves what they are for:

* the **compute orchestrator**, a process-wide scheduler with one node a scope: a state machine
  of its critical sections (`Scheduler.dfy`), an invariant of every interleaving
  (`SchedulerInvariants.dfy` and the files that build on it), and a class whose methods work
  step by step like the source and are proved to have exactly the effect of the state machine
  (`ComputeOrchestrator.dfy`);
* the **dependency walk, DAG planner and turn fill** that produce the graphs it registers;
* the **worker pool's dequeue discipline**;
* two **exact-geometry cores**: cutting territory holes into one ring, and hybrid scan coverage
  by disks and nebula patches;
* the **league palette** and the **turn cache**.

`dafny verify dfyconfig.toml` checks all of it.

## How the orchestrator is modelled

A node run is a record kept in `runs` under its execution generation, which the source never
reuses and which therefore stands for the identity of the node object. The node table maps a
scope to such an identity, and so do the closures the source keeps: a callback that outlives a
replacement works on the run it captured. `tasks` says what is still to happen to a run that is
in flight: building its job wire, executing, being handed over, persisting, deferring.
`callbacks` is the multiset of post-lock callbacks, which may be executed in any order and
interleaved with anything. One event is one critical section, or the end of one piece of work
outside the lock; a run is any sequence of possible events.

What the source leaves to others is an argument of the section that asks: the persistence
policy's answers, the dispatch gates (asked per scope and round of a pass), the planned graph,
a step's result. Durable wipes are events that strictly raise the generation of every wiped
scope and remove its artifact.

What a section is for is stated of the states before and after it, without the functions that
describe the sections: what a submission registers (`SchedulerPlans.dfy`), which wire a run has
(`SchedulerWires.dfy`), what each kind of event does to a run (`SchedulerEffects.dfy`) and what a
dispatch pass chooses (`SchedulerChoices.dfy`).

The results about runs assume of the environment (`Disciplined`) that plans and deferred
dependencies follow a ranked ensure relation (which `DagPlanner.PlannedGraphIsAdmissible`
derives for planned graphs from a rank on the ensure relation), that the requested entry step
exists, that a pool report reaches the run whose item finished, and that an inline step is not
aborted while it executes. A run is a trace of such events in which no section was left by an
error; `HangFreeTraceIsRun` shows that every trace of such events is one as long as no edge names
a scope whose node is a placeholder.

Where the code needs them, the project says exactly when their absence shows:

* a report is matched by scope and `running` only: `ReportHitsAnotherRunIff`, with the trace
  `LateReportCompletesReplacement`;
* the inline finish does not check `running` again: `InlineEndRevivesIff`, with the trace
  `AbortedInlineStepCompletes`;
* parking and undemanded deferral schedule nothing although the pass that began the step may
  have left other nodes ready: `QuietEventStrandsIff`, with the run `ParkStrandsReadyWork`;
* an already satisfied root becomes a complete node without a wire, a placeholder, on which a
  later plan may depend: `DispatchFaultsIff` and `EventFaultsIff` say exactly which passes can
  end in the internal error, with the trace `PlaceholderDependencyFaults`;
* an unknown entry step raises while the plan is being registered: `RegistrationRaisesIff`.

The source re-examines dependents when a scope ends, but never a running one, and a node that is
queued again after its step is only checked for complete dependencies. So a genuine failure
reaches every dependent unless it comes while the dependent's own step runs and that step is then
continued or retried: `EventCascadesIff` says exactly which events overlook one,
`FailuresAreNeverOverlooked` and `FailuresNeverBlock` what holds of all runs without them, and
`OverlookedFailure` gives a run, with every assumption met, that has one.

## How the other parts are modelled

Points are pairs of reals, so the territory results are about the algorithm and not about
rounding. A ring's tally at a query point is the parity of the crossings of a rightward ray,
whether such a ray meets it at all, and the area it sweeps; all three are additive along a walk,
which is what makes one proof serve membership, area and the existence of cuts. The docstring of
`_single_ring` promises an error when a cut fills a hole or loses area; in exact arithmetic that
comparison never fails for disjoint holes in the exterior, and the only error left is a cut that
meets no edge, with its exact condition (`HolesAreCutIff`) and an admissible polygon that has it
(`TouchingHoleHasNoCut`).

Coverage works on integer cells, nebulae and origins with real ranges. Distances are compared
through their squares. What a nebula adds to the density of a cell it holds, and the visibility
at a density, are left open as functions (`Fog`), so the results hold for every such formula. A
caller's own effective range is served on all maps exactly when it gains no cell in fog
(`HookIsServedIff`); in the map that shows any other failing, the cell lies strictly inside the
nebula, where the source's formula reaches every density for a suitable intensity.

The hues of the palette are the exact multiples of the step, and the cache is used from one
thread at a time.

## Model

| member | source | states |
|---|---|---|
| `SchedulerTheorems.EveryRunIsSafe` | packages/api/api/compute/orchestrator.py:94-541 | in every state of every interleaving of critical sections, callers, workers and store wipes the whole invariant holds, and each event only adds runs, leaves terminal runs alone, never lowers a generation and begins steps only on complete dependencies under the current generation |
| `SchedulerTheorems.EachEventKeeps` | packages/api/api/compute/orchestrator.py:277-425 | the same for one event from any state that satisfies the invariant, reachable or not |
| `SchedulerTheorems.NoDeadlock` | packages/api/api/compute/orchestrator.py:460-493 | with an empty ready queue, nothing running and no callback, every waiting node has a finite chain of incomplete dependencies ending at an unplanned, parked, failed or deliberately deferred scope |
| `SchedulerTheorems.RunsNeverDeadlock` | packages/api/api/compute/orchestrator.py:528-541 | the same at every quiescent point of every run |
| `SchedulerTheorems.ReadyQueueIsExact` | packages/api/api/compute/orchestrator.py:495-505 | at every lock release a scope is in the ready queue if and only if its node is ready, and no scope is in it twice |
| `SchedulerTheorems.CompleteNodesCarryWires` | packages/api/api/compute/orchestrator_lifecycle.py:236-240 | in every run a complete node has a result wire, or never ran and has no dependencies, and has no work left over |
| `SchedulerTheorems.CompletedResultsAreCurrent` | packages/api/api/compute/orchestrator_lifecycle.py:173-303 | when a step result completes a node, the scope's invalidation generation has not moved at any moment since that step began, the step began with every dependency complete, and after a persist the artifact is still stored |
| `SchedulerTheorems.CompletionIsFresh` | packages/api/api/compute/orchestrator_lifecycle.py:173-317 | the one-event form: completion needs the captured generation to equal the current one, and ends with a wire |
| `SchedulerTheorems.AfterStepCompletes` | packages/api/api/compute/orchestrator_lifecycle.py:185-317 | a returned step completes its run only if it says done and its epoch is not stale |
| `SchedulerTheorems.StepBeganUnder` | packages/api/api/compute/orchestrator_step_execution.py:152-161 | the generation a running step holds is the one that was current when that step began, and the step has been running ever since |
| `SchedulerTheorems.TerminalRunsNeverChange` | packages/api/api/compute/orchestrator_lifecycle.py:341-378 | once complete or failed, the record of a run is the same in every later state |
| `SchedulerTheorems.WaitersGetTheirOutcome` | packages/api/api/compute/orchestrator_state.py:51-120 | a waiter is listed on its run while it goes on and afterwards holds exactly the error of the terminal outcome, none for completion |
| `SchedulerTheorems.FailuresHaveASource` | packages/api/api/compute/orchestrator.py:476-486 | every failure leads through failed dependencies with the same error to the run that raised it; an intentional abort leads nowhere else |
| `SchedulerTheorems.AbortsFailNobodyElse` | packages/api/api/compute/orchestrator.py:364-425 | in no run does an intentional abort fail a node other than the aborted one |
| `SchedulerTheorems.DispatchCompletesOnlySatisfied` | packages/api/api/compute/orchestrator_step_execution.py:163-186 | whatever a dispatch pass completes was reported satisfied by the persistence policy in that pass |
| `SchedulerTheorems.RunsOnlyProgress` | packages/api/api/compute/orchestrator_lifecycle.py:85-171 | in no run does a node run lose an edge or its bundle, fall back to an earlier step or get a worse priority |
| `SchedulerCascade.RefreshEachCleans` | packages/api/api/compute/orchestrator.py:454-486 | a node selected by a refresh pass and left waiting or ready has a genuinely failed dependency only if it failed later in the pass and was announced by a further callback |
| `SchedulerCascade.DependencyTerminalCascades` | packages/api/api/compute/orchestrator.py:528-541 | running the callback of a terminal scope leaves no dependent waiting or queued over a genuine failure unwarned, although the callback itself is gone |
| `SchedulerCascade.SubmitPrepareCascades` | packages/api/api/compute/orchestrator_submission.py:70-148 | neither does a submission, for old and new nodes |
| `SchedulerCascade.ForceFreshCascades` | packages/api/api/compute/orchestrator_lifecycle.py:157-165 | nor consuming the demand a deferral queued, the one warning its node may have had |
| `SchedulerCascade.DispatchCascades` | packages/api/api/compute/orchestrator_step_execution.py:113-137 | nor a dispatch pass, which demotes ready nodes without looking for failures |
| `SchedulerSpread.EventCascadesIff` | packages/api/api/compute/orchestrator.py:460-541 | for every event: genuine failures stay noticed if and only if the event does not requeue a node whose dependency failed genuinely during its step, with no callback for it pending and no other dependency going on |
| `SchedulerSpread.FailuresAreNeverOverlooked` | packages/api/api/compute/orchestrator.py:460-541 | in every state of every run without such an event each dependent of a genuine failure that waits or is queued will still be re-examined |
| `SchedulerSpread.FailuresNeverBlock` | packages/api/api/compute/orchestrator.py:476-486 | then at a standstill the chain of incomplete dependencies ends at an unplanned, parked, aborted or deliberately deferred scope, never at a genuine failure |
| `SchedulerSpread.ResumeShape` | packages/api/api/compute/orchestrator_lifecycle.py:62-83 | each event that ends a running step by requeueing its node keeps the node's edges and adds a dispatch, and no refresh, to what is pending |
| `SchedulerSpread.LateFailureStrands` | packages/api/api/compute/orchestrator_lifecycle.py:319-339 | from any otherwise idle state in which a running node's dependency has failed, a continue and the dispatch after it leave the node waiting on the failure at a standstill |
| `SchedulerStrand.FailureWhileRunning` | packages/api/api/compute/orchestrator_submission.py:261-266 | a concrete run, with every assumption met, in which a step runs on while its dependency is replaced and fails |
| `SchedulerStrand.OverlookedFailure` | packages/api/api/compute/orchestrator_step_execution.py:119-126 | so a run reaches a standstill in which a node waits on a genuine failure and nothing pending will re-examine it |
| `SchedulerLimits.NoStall` | packages/api/api/compute/orchestrator_step_execution.py:35-91 | with a pool, open gates and no park, soft deferral or undemanded deferral, a non-empty ready queue always comes with a running node or a pending callback, over whole runs |
| `SchedulerLimits.LoudEventStaysBusy` | packages/api/api/compute/orchestrator_lifecycle.py:62-171 | the step of that argument, for every event except the quiet ones and from any busy state |
| `SchedulerLimits.DispatchDrains` | packages/api/api/compute/orchestrator_step_execution.py:47-91 | although a pass starts at most one pool step, it leaves ready nodes behind only when something is running |
| `SchedulerLimits.OpenSweepDrains` | packages/api/api/compute/orchestrator_step_execution.py:113-137 | an ungated sweep that finds nothing has emptied the queue |
| `SchedulerDemos.InlineEndRevivesIff` | packages/api/api/compute/orchestrator_step_execution.py:233-242 | the inline finish does not check for running: on an aborted run it changes the state if and only if the epoch moved or the outcome is continue or done |
| `SchedulerDemos.AbortedInlineStepCompletes` | packages/api/api/compute/orchestrator_step_execution.py:188-242 | a concrete run in which an aborted inline step completes its node |
| `SchedulerDemos.ReportHitsAnotherRunIff` | packages/api/api/compute/orchestrator.py:293-362 | a pool report, whatever it carries, changes a run other than its own or that run's pending work if and only if its run was replaced by one that is running, unless it asks for exactly what the replacement is waiting for already |
| `SchedulerDemos.LateReportCompletesReplacement` | packages/api/api/compute/orchestrator.py:307-320 | a concrete run in which the late report of an aborted pool step completes its replacement |
| `SchedulerStalls.QuietEventStrandsIff` | packages/api/api/compute/orchestrator_lifecycle.py:213-225 | after a park or an undemanded deferral ready work keeps a successor if and only if there was none, a callback was pending or something else was running |
| `SchedulerStalls.ParkStrandsReadyWork` | packages/api/api/compute/orchestrator_lifecycle.py:388-415 | a concrete run, with every assumption met, that ends with a ready node, an empty callback list and nothing running |
| `SchedulerFaults.DispatchFaultsIff` | packages/api/api/compute/orchestrator_step_execution.py:93-137 | some answers of the gates and satisfaction probes let a dispatch pass end in an internal error if and only if it starts with a ready node that may begin, has a complete dependency without a wire, and whose incomplete dependencies are all ready, earlier in the queue and themselves so |
| `SchedulerFaults.RefreshedPassFaultsIff` | packages/api/api/compute/orchestrator_step_execution.py:93-103 | when every ready node has complete dependencies, if and only if some ready node with a step that may begin lacks a dependency wire |
| `SchedulerFaults.EventFaultsIff` | packages/api/api/compute/orchestrator_step_execution.py:35-103 | the same for every event, in terms of the state its dispatch pass starts from; events without a pass never end in an error |
| `SchedulerFaults.EndangeredHangs` | packages/api/api/compute/orchestrator_submission.py:307-315 | such a node depends on the placeholder of a satisfied root |
| `SchedulerFaults.FaultHangs` | packages/api/api/compute/orchestrator_submission.py:307-315 | an event that ends in the error leaves a node with an edge to a placeholder |
| `SchedulerFaults.HangFreeTraceIsRun` | packages/api/api/compute/orchestrator_submission.py:307-315 | every disciplined trace in which no edge names a placeholder is free of errors, so it is a run and the results about runs hold of it |
| `SchedulerFaults.PlaceholderDependencyFaults` | packages/api/api/compute/orchestrator_submission.py:268-340 | a concrete trace, with every other assumption met, that ends in the error |
| `SchedulerFaults.RegistrationRaisesIff` | packages/api/api/compute/orchestrator_submission.py:317-360 | registering a plan raises if and only if it holds the root, the root's analytic has no step of the requested kind and the table holds no node of the root to keep |
| `SchedulerEvents.SubmitPrepareKeeps` | packages/api/api/compute/orchestrator_submission.py:70-148 | attach, replace and plan keep the invariant, begin nothing and lose no callback |
| `SchedulerEvents.ConsumeKeeps` | packages/api/api/compute/orchestrator_observers.py:363-371 | a post-lock callback may be forgotten once nothing it would wake is stuck |
| `SchedulerEvents.ForceFreshSettles` | packages/api/api/compute/orchestrator_submission.py:70-120 | after a force-fresh submission no node that waits on its scope waits for nothing |
| `SchedulerEvents.SubmitEventKeeps` | packages/api/api/compute/orchestrator_submission.py:47-120 | a whole submission with its dispatch pass keeps the invariant and the two-state guarantees |
| `SchedulerEvents.EnsureEventKeeps` | packages/api/api/compute/orchestrator_ensure.py:103-118 | dropping a hollow terminal node and submitting keeps them too |
| `SchedulerEvents.EnsureAllKeeps` | packages/api/api/compute/orchestrator_ensure.py:103-118 | a batch of unsatisfied requests submitted under one lock keeps the invariant |
| `SchedulerEvents.WipeKeeps` | packages/api/api/compute/orchestrator.py:507-515 | a durable wipe of any set of scopes keeps the invariant: a persist in flight is no longer covered by its generation |
| `SchedulerEvents.PoolReportKeeps` | packages/api/api/compute/orchestrator.py:293-362 | a report that reaches its own run keeps the invariant whatever it carries |
| `SchedulerEvents.AbortEventKeeps` | packages/api/api/compute/orchestrator.py:364-425 | an abort that spares executing inline steps keeps the invariant |
| `SchedulerEvents.IdleKeeps` | packages/api/api/compute/orchestrator.py:277-291 | refreshing every node and dispatching keeps the invariant |
| `SchedulerInvariants.TouchKeepsCore` | packages/api/api/compute/orchestrator_lifecycle.py:341-430 | a section that works on one run keeps the invariant of all the others |
| `SchedulerInvariants.TouchKeepsWakes` | packages/api/api/compute/orchestrator.py:528-541 | and loses no wake-up: whoever it could unblock has a callback pending |
| `SchedulerSections.SettleKeeps` | packages/api/api/compute/orchestrator_lifecycle.py:341-378 | settling a run as complete, failed or parked keeps the invariant, given that a failure is the run's own or a failed dependency's |
| `SchedulerSections.RequeueKeeps` | packages/api/api/compute/orchestrator_lifecycle.py:50-83 | putting a run back into the ready queue keeps it |
| `SchedulerSections.DemoteKeeps` | packages/api/api/compute/orchestrator_lifecycle.py:85-101 | sending a run back to waiting keeps it |
| `SchedulerPasses.RefreshKeeps` | packages/api/api/compute/orchestrator.py:460-474 | re-examining a node leaves it waiting only if some dependency is not complete |
| `SchedulerPasses.RefreshEachKeeps` | packages/api/api/compute/orchestrator.py:454-458 | and so does a pass over many nodes, for every node it selects, including those visited before a later one changed |
| `SchedulerPasses.RefreshAllWakes` | packages/api/api/compute/orchestrator.py:454-458 | a pass over all nodes restores the no-lost-wake-up property from any core state |
| `SchedulerPasses.PickKeeps` | packages/api/api/compute/orchestrator_step_execution.py:113-137 | a sweep keeps the invariant and what it picks is ready with complete dependencies |
| `SchedulerPasses.BeginKeeps` | packages/api/api/compute/orchestrator_step_execution.py:152-161 | beginning the picked node captures the current generation |
| `SchedulerPasses.ShortCircuitKeeps` | packages/api/api/compute/orchestrator_step_execution.py:163-186 | completing a satisfied node without running it keeps the invariant |
| `SchedulerPasses.DispatchKeeps` | packages/api/api/compute/orchestrator_step_execution.py:35-91 | a dispatch pass keeps the invariant, keeps running steps running and begins only sound steps |
| `SchedulerFinish.AfterStepKeeps` | packages/api/api/compute/orchestrator_lifecycle.py:185-317 | every outcome of a returned step keeps the invariant of all runs |
| `SchedulerFinish.RecoverKeeps` | packages/api/api/compute/orchestrator_lifecycle.py:103-171 | grafting a deferred dependency keeps the edges ranked and never loses the wake-up |
| `SchedulerFinish.PersistCheckKeeps` | packages/api/api/compute/orchestrator_lifecycle.py:173-183 | the check before a persist call keeps the invariant |
| `SchedulerFinish.PersistFinishKeeps` | packages/api/api/compute/orchestrator_lifecycle.py:173-303 | the check after it, and what follows, keeps the invariant |
| `SchedulerFinish.RaiseKeeps` | packages/api/api/compute/orchestrator_lifecycle.py:380-386 | an exception fails the run with its own error and nobody else |
| `SchedulerSubmit.PlanSubmissionKeeps` | packages/api/api/compute/orchestrator_submission.py:122-148 | registering a ranked plan and re-examining every node leaves the invariant holding and no waiting node with all its dependencies complete |
| `SchedulerSubmit.RegisterKeeps` | packages/api/api/compute/orchestrator_submission.py:317-340 | registering one planned node, dropping a hollow terminal one, keeps the invariant |
| `SchedulerSubmit.ReplaceKeeps` | packages/api/api/compute/orchestrator_submission.py:261-266 | taking a terminal run out of the table keeps it, wake-ups included |
| `SchedulerSubmit.AttachKeeps` | packages/api/api/compute/orchestrator_submission.py:226-259 | attaching a waiter and adopting its priority keeps it |
| `SchedulerSubmit.AttachAdoptsTheBetterBand` | packages/api/api/compute/orchestrator_submission.py:226-259 | a run that is neither sealed nor terminal becomes stream-attached by a stream request, leaves the background by an interactive one and keeps its band by a background one; other runs keep theirs; one that is not terminal gets one new waiter, with its handle, and nothing else changes |
| `SchedulerSubmit.ForceFreshAttachKeeps` | packages/api/api/compute/orchestrator_submission.py:70-120 | a force-fresh attach leaves its own node moving or blocked by an incomplete dependency |
| `SchedulerPlans.SubmissionRegistersItsPlan` | packages/api/api/compute/orchestrator_submission.py:70-148 | after any event that submits and plans, and is not left by an error, each planned scope that had no run, or a terminal one that is not reported satisfied or is the root's, is held by a new run with exactly the planned edges, the request's band and bundle and the first profile step of the requested kind; every other scope keeps its run, and a root the plan left out gets a complete stand-in |
| `SchedulerPlans.RegisterPlanHolds` | packages/api/api/compute/orchestrator_submission.py:268-340 | the same for one registration, in any state whose run numbers were handed out |
| `SchedulerPlans.StepsAwaitThePlan` | packages/api/api/compute/orchestrator_submission.py:317-340 | over every run of the orchestrator: whenever a step of a run registered for a planned node begins, then or at any later event, every scope its plan named as a dependency is complete |
| `SchedulerPlans.HollowRootIsReplaced` | packages/api/api/compute/orchestrator_ensure.py:103-118 | a batch ensure of a scope whose node is terminal gives it a new run with the planned edges and the requested entry step, whether or not the request is force-fresh |
| `SchedulerPlans.BatchIsHeld` | packages/api/api/compute/orchestrator_ensure.py:103-118 | after a batch that is not left by an error every scope it demanded has a node, and no scope that had one lost it |
| `SchedulerWires.AcceptedStepLeavesWire` | packages/api/api/compute/orchestrator_lifecycle.py:185-317 | for an inline end or a matching pool report under the current generation: the run's wire becomes the payload if there is one, stays if there is none, and becomes the empty wire exactly where there was neither and the outcome is persist or complete; a stale result leaves it alone |
| `SchedulerWires.DispatchPasses` | packages/api/api/compute/orchestrator_step_execution.py:163-186 | a pass leaves every wire alone but for the runs it completes, which were reported satisfied and keep their wire, or get the hydrated one, or the empty one |
| `SchedulerWires.EventLeavesWires` | packages/api/api/compute/orchestrator_lifecycle.py:185-317 | the rule of every event for every wire: accepted steps as above, passes as above, nothing else changes any, and new runs have none |
| `SchedulerWires.WiresAreTheLastPayloads` | packages/api/api/compute/orchestrator_lifecycle.py:185-317 | over every run of the orchestrator: a run's wire is the payload of the last accepted step that brought one; where none has, it is none, the empty wire of a step that had to leave one, or what was hydrated when a pass completed the run as satisfied |
| `SchedulerWires.ExternalWaitsWereDeferrals` | packages/api/api/compute/orchestrator_lifecycle.py:85-155 | over every run of the orchestrator: a run is marked as awaiting an external wake only since an event deferred it softly or onto a dependency that was not demanded |
| `SchedulerEffects.StepResultMoves` | packages/api/api/compute/orchestrator_lifecycle.py:185-339 | for a step's result, inline or pool: continue queues the run with its step count raised and the next profile step if that is of another kind, else the same; park, deferral, persist and completion leave their own state and pending work; a discarded result queues the same step again |
| `SchedulerEffects.RaiseFails` | packages/api/api/compute/orchestrator_lifecycle.py:380-386 | a step, hand-off or persist that raises fails the running run it belongs to, with the error it raised, and announces it |
| `SchedulerEffects.AbortFailsIff` | packages/api/api/compute/orchestrator.py:364-425 | an abort fails exactly the live, non-terminal run of the expected generation, with its own error, and otherwise changes nothing |
| `SchedulerEffects.DeferralWaits` | packages/api/api/compute/orchestrator_lifecycle.py:85-171 | a deferral leaves the run waiting, grafts the dependency unless it is there or is the run itself, and demands it afresh, in the run's band and with its bundle, exactly when asked; a soft one grafts and demands nothing |
| `SchedulerEffects.PersistIsCalled` | packages/api/api/compute/orchestrator_lifecycle.py:236-266 | a queued persist is called exactly if its run still runs and is current, and a stale one queues the step again |
| `SchedulerEffects.PersistMakesDurable` | packages/api/api/compute/orchestrator_lifecycle.py:270-274 | a persist that writes makes the artifact of its own scope durable |
| `SchedulerEffects.PersistEnds` | packages/api/api/compute/orchestrator_lifecycle.py:292-303 | a persist that returns goes on with the next step exactly if it was to, else completes the run; a stale one queues the step again |
| `SchedulerEffects.SealSeals` | packages/api/api/compute/orchestrator_step_execution.py:188-292 | a step is sealed exactly if its run still runs; what an aborted one left is dropped |
| `SchedulerEffects.WipeWipes` | packages/api/api/compute/orchestrator.py:507-515 | a wipe takes the artifacts of its scopes and moves on their generations, and no others |
| `SchedulerEffects.SubmissionAttaches` | packages/api/api/compute/orchestrator_submission.py:70-120 | a submission that finds a run going keeps it, with its edges and steps; a stream request makes an unsealed one stream-attached, an interactive one lifts it out of the background, a background one changes no band |
| `SchedulerEffects.SubmissionIgnored` | packages/api/api/compute/orchestrator_submission.py:59-109 | a submission that finds a terminal run it is not to replace only dispatches, and a wake of a scope that is not parked changes nothing |
| `SchedulerEffects.WakeLeaves` | packages/api/api/compute/orchestrator_lifecycle.py:417-430 | a parked run that is woken is ready exactly if its dependencies are complete |
| `SchedulerEffects.RestartsDemanded` | packages/api/api/compute/orchestrator_submission.py:174-224 | a restart demands each intentionally aborted scope below the waiting node once, at the node's band, from the first step, with its own bundle or else the node's, and nothing else |
| `SchedulerEffects.FreshAttachRestarts` | packages/api/api/compute/orchestrator_submission.py:93-109 | a force-fresh submission that finds a node waiting, ready or parked over an incomplete dependency demands every intentionally aborted scope below it that has a bundle |
| `SchedulerEffects.RefreshDecides` | packages/api/api/compute/orchestrator.py:460-486 | a re-examined node fails with the error of its first dependency that failed other than by an abort; without one it is ready exactly when all are complete |
| `SchedulerChoices.PickIsFirst` | packages/api/api/compute/orchestrator_step_execution.py:113-137 | a sweep chooses the first queue entry that is ready, admitted and has complete dependencies |
| `SchedulerChoices.PickIsNone` | packages/api/api/compute/orchestrator_step_execution.py:113-137 | and none exactly when no entry is such |
| `SchedulerChoices.DispatchBeginsWell` | packages/api/api/compute/orchestrator_step_execution.py:35-91 | whatever a pass begins was admitted and not satisfied, is inline work or pool work as its profile step says, and is unsealed; what was running is left alone |
| `SchedulerChoices.OnePoolStep` | packages/api/api/compute/orchestrator_step_execution.py:71-86 | a pass begins at most one pool step |
| `RestartWalk.Explored` | packages/api/api/compute/orchestrator_submission.py:174-224 | when the stack runs empty the scopes found are exactly the abort-failed ones with a usable bundle that are dependencies of nodes reached through waiting nodes, each once |
| `RestartWalk.RequestsAreRestarts` | packages/api/api/compute/orchestrator_submission.py:208-224 | and the submissions queued are one for each of them |
| `ComputeOrchestrator.Orchestrator.SettleNode` | packages/api/api/compute/orchestrator_lifecycle.py:341-378 | releases every waiter with the outcome and queues the dependents' wake-up unless parked; the new state is exactly that of the state machine's Settle |
| `ComputeOrchestrator.Orchestrator.RefreshNodeReadiness` | packages/api/api/compute/orchestrator.py:460-474 | the new state is exactly that of the state machine's Refresh, the first non-abort failure of a dependency winning over promotion |
| `ComputeOrchestrator.Orchestrator.RefreshReadiness` | packages/api/api/compute/orchestrator.py:454-458 | the new state is exactly that of the state machine's RefreshEach over the node table in insertion order |
| `ComputeOrchestrator.Orchestrator.HandleDependencyTerminal` | packages/api/api/compute/orchestrator.py:528-541 | the new state is exactly that of the state machine's OnDependencyTerminal |
| `ComputeOrchestrator.Orchestrator.DequeueReady` | packages/api/api/compute/orchestrator.py:500-505 | the first occurrence goes and an absent scope is ignored |
| `ComputeOrchestrator.Orchestrator.DequeueDispatchableReadyNode` | packages/api/api/compute/orchestrator_step_execution.py:113-137 | the loop over the queue computes the sweep Pick, which is bounded by the queue's first length |
| `ComputeOrchestrator.Orchestrator.DispatchPass` | packages/api/api/compute/orchestrator_step_execution.py:35-91 | the dispatch loop computes Dispatch, with its early exits |
| `ComputeOrchestrator.Orchestrator.OnStepSuccess` | packages/api/api/compute/orchestrator_lifecycle.py:185-317 | the run's wire becomes the payload if there is one, stays if there is none, and becomes empty where it must; a stale result leaves it; the whole new state is that of AfterStepSuccess for every outcome |
| `ComputeOrchestrator.Orchestrator.AbandonPersist` | packages/api/api/compute/orchestrator_lifecycle.py:173-183 | says give up exactly when the run stopped running or its epoch moved, and requeues it in the second case |
| `ComputeOrchestrator.Orchestrator.CompletePool` | packages/api/api/compute/orchestrator.py:293-362 | the new state is exactly that of the state machine's CompletePoolStep, matched by scope and running only |
| `ComputeOrchestrator.Orchestrator.AbortScope` | packages/api/api/compute/orchestrator.py:364-425 | reports true exactly for a live, non-terminal run of the expected generation, and fails only that run |
| `ComputeOrchestrator.Orchestrator.MaybeWakeParked` | packages/api/api/compute/orchestrator_lifecycle.py:417-430 | the new state is exactly that of the state machine's WakeParked |
| `ComputeOrchestrator.Orchestrator.ScheduleRecreateAborted` | packages/api/api/compute/orchestrator_submission.py:174-224 | the stack walk terminates on any graph, cyclic ones included, and queues exactly the requests of ScheduleRestarts |
| `ComputeOrchestrator.Orchestrator.ResolveProfileStepIndex` | packages/api/api/compute/orchestrator_submission.py:347-360 | the first step of the requested kind, or none |
| `ComputeOrchestrator.Orchestrator.PlanAndRegister` | packages/api/api/compute/orchestrator_submission.py:268-360 | each planned scope without a run to keep is held by a new run as planned and requested, all others keep theirs, an unplanned root gets a stand-in; an unknown entry step is left with an error after the nodes before it (RegisterPlan) |
| `ComputeOrchestrator.Orchestrator.SubmitLocked` | packages/api/api/compute/orchestrator_submission.py:70-120 | a submission that plans registers its plan like that, and the new state is exactly that of Submit |
| `ComputeOrchestrator.Orchestrator.EnsureOne` | packages/api/api/compute/orchestrator_ensure.py:107-112 | one request of a batch replaces its scope's terminal node, force-fresh or not, and registers its plan as planned and requested; the new state is exactly that of EnsureSubmit |
| `ComputeOrchestrator.Orchestrator.EnsureScopes` | packages/api/api/compute/orchestrator_ensure.py:103-118 | the batch under one lock computes EnsureAll, keeps the invariant and leaves every demanded scope with a node |
| `DependencyWalk.ExtendUnique` | packages/api/api/analytics/export_dependency_walk.py:147-158 | appends the unseen items in order and keeps the seen set in step |
| `DependencyWalk.MergeMembers` | packages/api/api/analytics/export_dependency_walk.py:147-158 | a merge has the members of both lists and no duplicate |
| `DependencyWalk.MergeSteps` | packages/api/api/analytics/export_dependency_walk.py:161-169 | deduplicating missing steps and deduplicating pending scopes drop the same positions, so the two lists match one to one |
| `DependencyWalk.MergeOrdered` | packages/api/api/analytics/export_dependency_walk.py:120-144 | merging two dependency-first lists gives one |
| `DependencyWalk.UniverseIsClosed` | packages/api/api/analytics/export_dependency_walk.py:172-230 | whatever the edges are, a walk stays inside a finite set of scopes |
| `DependencyWalker.WalkDependencyTree` | packages/api/api/analytics/export_dependency_walk.py:65-144 | each of the four outcomes is characterised; with every turn stored and every target usable a cycle is raised if and only if one of scopes needing work is reachable; satisfied scopes are elided but for a forced root; in a regular game nothing below turn N of an accelerated start is demanded when the root is at or above it, and otherwise every declared edge from turn 1 on is walked; missing steps and pending scopes agree one to one |
| `DependencyWalker.Walk` | packages/api/api/analytics/export_dependency_walk.py:65-144 | the recursive walk terminates because the visiting set grows inside a finite universe, and restores that set |
| `DependencyWalker.WalkIsExact` | packages/api/api/analytics/export_dependency_walk.py:83-144 | a completed walk lists exactly the scopes needing work that are reachable from the root |
| `DependencyWalker.CompleteMeansAcyclic` | packages/api/api/analytics/export_dependency_walk.py:76-82 | a walk that completes proves there was no cycle to find |
| `DependencyWalker.OrderedAt` | packages/api/api/analytics/export_dependency_walk.py:120-144 | every scope listed has all its above-floor dependencies needing work listed before it |
| `DependencyWalker.FoundCycleIsCycle` | packages/api/api/analytics/export_dependency_walk.py:76-82 | a raised cycle is a real one |
| `DagPlanner.PlanComputeDag` | packages/api/api/compute/dag.py:45-118 | planned nodes match the walk one to one and their edges are exactly the dependencies of each scope that still need work; a cycle error means a cycle |
| `DagPlanner.PlannedEdgesExact` | packages/api/api/compute/dag.py:92-109 | membership of an edge, in both directions |
| `DagPlanner.PlanIsTopological` | packages/api/api/compute/dag.py:86-118 | every dependency of a planned node is an earlier planned node |
| `DagPlanner.PlanFollowsRank` | packages/api/api/compute/dag.py:86-118 | if the ensure relation goes down a rank, so do the edges of every plan |
| `DagPlanner.PlannedEdgesAre` | packages/api/api/compute/dag.py:94-112 | in a regular game the edges of a planned node are exactly its declared dependencies that are planned too, from turn N or 1 on |
| `DagPlanner.PlannedGraphIsAdmissible` | packages/api/api/compute/orchestrator_submission.py:268-315 | so every planned graph is one the orchestrator's results accept |
| `TurnFill.MissingChainTurns` | packages/api/api/analytics/export_turn_fill.py:41-51 | exactly the turns from the floor up to the scope that are not stored, ascending |
| `TurnFill.FillMissing` | packages/api/api/analytics/export_turn_fill.py:54-93 | from turn N of an accelerated start at or below the scope, or from turn 1, and never below: nothing missing means the chain is contiguous, a failure names its first hole; stores only more, and the fetched turns are the new ones |
| `TurnFill.PathStaysStored` | packages/api/api/analytics/export_dependency_walk.py:91-114 | below a stored, contiguous root every scope on a path is stored, at turn N or above where an accelerated start applies and at turn 1 or above elsewhere |
| `DependencyWalker.WalkStartsAt` | packages/api/api/concepts/accelerated_scoreboard.py:91-103 | in a regular game the walk's outcome demands nothing below turn N when the root is at or above it, and else nothing below turn 1, and leaves out no declared edge from there on |
| `DependencyWalk.EdgesAreDeclared` | packages/api/api/analytics/export_dependency_walk.py:173-240 | a scope's edges are exactly what its declared dependencies name: same game and perspective, turn moved by the delta, the same player, none, or each on the target turn's roster |
| `TurnFill.FilledWalkNeverMissesATurn` | packages/api/api/analytics/export_turn_fill.py:172-210 | after a fill with nothing missing the walk cannot report a turn that is not stored |
| `TurnFill.PrepareChainTurns` | packages/api/api/analytics/export_turn_fill.py:172-210 | in a game with constant settings and no forward edges preparing never ends in that error |
| `TerritoryRing.SplitEdge` | packages/api/api/analytics/team_territory.py:187-199 | cutting an edge where it passes a height changes neither the crossings of any ray nor the area |
| `TerritoryRing.HalvesPass` | packages/api/api/analytics/team_territory.py:194-197 | under the half-open rule exactly one half passes each height the edge passes, at the same place |
| `TerritoryRing.RotateRing` | packages/api/api/analytics/team_territory.py:236-239 | a ring may be walked from any vertex |
| `TerritoryRing.JoinPaths` | packages/api/api/analytics/team_territory.py:187-199 | crossings and area of a walk are those of its two parts |
| `TerritoryRing.AreaAnywhere` | packages/api/api/analytics/team_territory.py:178-184 | the shoelace sum is independent of the query point |
| `TerritorySplice.SignedArea` | packages/api/api/analytics/team_territory.py:178-184 | the loop computes the shoelace area of the closed ring |
| `TerritorySplice.EvenOddContains` | packages/api/api/analytics/team_territory.py:187-199 | the loop decides membership by the parity of the crossings of the closed ring, whichever end an edge is measured from |
| `TerritorySplice.DropRepeats` | packages/api/api/analytics/team_territory.py:206-213 | no two neighbouring vertices of the result are equal, cyclically |
| `TerritorySplice.DropRepeatsKeeps` | packages/api/api/analytics/team_territory.py:206-213 | dropping repeats changes neither membership of any point nor the area |
| `TerritorySplice.NearestBelow` | packages/api/api/analytics/team_territory.py:222-233 | none exactly when no edge is met at or right of the vertex, else a nearest one |
| `TerritorySplice.SpliceHole` | packages/api/api/analytics/team_territory.py:216-239 | finds the rightmost vertex and the nearest edge and splices there, or finds none |
| `TerritorySplice.SpliceMeaning` | packages/api/api/analytics/team_territory.py:216-239 | for every point, membership in the spliced ring is membership in the ring xor membership in the hole, and the signed areas add |
| `TerritoryPolygon.CutIsClear` | packages/api/api/analytics/team_territory.py:222-233 | no edge of the ring passes the cut strictly between hole vertex and hit |
| `TerritoryPolygon.CutStaysOnOneSide` | packages/api/api/analytics/team_territory.py:222-233 | the whole cut lies on the side of the ring its hole vertex lies on |
| `TerritoryPolygon.CutIffMet` | packages/api/api/analytics/team_territory.py:222-235 | a cut is found exactly when some edge is met |
| `TerritoryPolygon.HolesAreCutIff` | packages/api/api/analytics/team_territory.py:249-260 | all cuts succeed if and only if each hole's ray meets the exterior or a hole cut in before, a condition on the input alone |
| `TerritoryPolygon.LaterHolesStayLeft` | packages/api/api/analytics/team_territory.py:249-260 | the sort order keeps every later hole at or left of the vertex an earlier cut starts from |
| `TerritoryPolygon.SortedHoles` | packages/api/api/analytics/team_territory.py:251-255 | the sort keeps the holes and orders them by greatest vertex, greatest first |
| `TerritoryPolygon.SingleRing` | packages/api/api/analytics/team_territory.py:242-271 | the loop and the final comparison give the outcome BoundaryOf |
| `TerritoryPolygon.CheckRing` | packages/api/api/analytics/team_territory.py:261-270 | the comparison with area and probe points, short circuits included |
| `TerritoryPolygon.SingleRingIsExact` | packages/api/api/analytics/team_territory.py:242-248 | for every polygon with disjoint holes in its exterior the ring's even-odd interior is exactly the polygon and its area the polygon's |
| `TerritoryPolygon.SingleRingSucceedsIff` | packages/api/api/analytics/team_territory.py:257-270 | for such a polygon neither error is raised if and only if every cut has an edge to end at; the comparison never fails |
| `TerritoryPolygon.MismatchIff` | packages/api/api/analytics/team_territory.py:261-270 | with all cuts found, the check after them fails if and only if there are holes and the given area is off by more than a billionth, the given point is not in the polygon, or a probe is |
| `TerritoryPolygon.RectangleInside` | packages/api/api/analytics/team_territory.py:187-198 | what membership means on an upright rectangle: left and bottom sides belong to it |
| `TerritoryPolygon.TriangleArea` | packages/api/api/analytics/team_territory.py:178-184 | what the area means on any triangle: half the cross product of two sides |
| `TerritoryPolygon.AnchoredHolesHaveCuts` | packages/api/api/analytics/team_territory.py:257-260 | which holds when each hole's rightmost vertex is strictly inside the exterior |
| `TerritoryPolygon.TouchingHoleHasNoCut` | packages/api/api/analytics/team_territory.py:226-235 | a hole that touches the top edge of its exterior lies inside it and still raises the error |
| `CoverageCells.NebulaDensityAt` | packages/api/api/concepts/stellar_cartography/nebula_visibility.py:32-41 | the loop sums the contributions of the usable nebulae whose disk holds the cell |
| `CoverageCells.CoverCell` | packages/api/api/concepts/map_region_coverage.py:370-388 | the loop with its early return decides the cell definition, which with the default ranges is that some origin has the cell within its base range and, in fog, within the visibility, or within 100 for a scanner |
| `CoverageCells.OneOriginCovers` | packages/api/api/concepts/map_region_coverage.py:225-282 | a lone origin covers a cell outside fog exactly within its base range, in fog of visibility v exactly within both, and with a scanner exactly within its base range and within v or 100 |
| `CoverageCells.CoveredIffSeen` | packages/api/api/concepts/map_region_coverage.py:225-282 | several origins cover a cell exactly if one of them sees it by that rule |
| `CoverageCells.HookDecidesInFog` | packages/api/api/concepts/map_region_coverage.py:272-282 | a caller's own range decides in fog, and only there |
| `CoverageCells.OriginsCoverTheUnion` | packages/api/api/concepts/map_region_coverage.py:370-388 | what several origins cover is what each of them covers, whatever the ranges |
| `CoverageCells.DensityAdds` | packages/api/api/concepts/stellar_cartography/nebula_visibility.py:32-41 | densities of two lists of nebulae add, so the order does not matter |
| `CoverageCells.DensityOfOne` | packages/api/api/concepts/stellar_cartography/nebula_visibility.py:32-41 | one nebula adds its share exactly if it has a radius and an id and its disk holds the cell |
| `CoverageCells.NearTriangle` | packages/api/api/concepts/map_region_coverage.py:302-307 | the triangle inequality, on squared lengths |
| `CoverageCells.FogHasANebula` | packages/api/api/concepts/stellar_cartography/nebula_visibility.py:32-41 | positive density means some usable nebula's disk holds the cell |
| `CoverageCells.FogOnlyCutsBack` | packages/api/api/concepts/map_region_coverage.py:249-282 | neither the default nor the scanner range exceeds the base range |
| `CoverageBoxes.MergeUntilDisjoint` | packages/api/api/concepts/map_region_coverage.py:329-349 | terminates with the least cover by boxes that do not overlap: above every input, below every other such cover |
| `CoverageBoxes.MergeOnce` | packages/api/api/concepts/map_region_coverage.py:338-348 | one pass loses no cover, and if it merges nothing its boxes are apart |
| `CoverageBoxes.LeastCoverIsUnique` | packages/api/api/concepts/map_region_coverage.py:329-349 | the result does not depend on the order or repetition of the input |
| `CoverageBoxes.OverlapIsShared` | packages/api/api/concepts/map_region_coverage.py:321-322 | boxes overlap exactly when they share a cell |
| `CoveragePatches.EncodeCoverageRle` | packages/api/api/concepts/map_region_coverage.py:285-299 | expanding the runs gives the mask back; no run is empty and neighbours differ |
| `CoveragePatches.CanonicalIsUnique` | packages/api/api/concepts/map_region_coverage.py:285-299 | there is only one such coding |
| `CoveragePatches.DecodePatchCoverage` | packages/api/api/concepts/map_region_coverage.py:675-685 | succeeds exactly on non-negative runs of the right total, and names the negative case |
| `CoveragePatches.PatchCellCovered` | packages/api/api/concepts/map_region_coverage.py:688-697 | outside exactly off the bounds, and inside the row-major bit of the mask |
| `CoveragePatches.BuildPatch` | packages/api/api/concepts/map_region_coverage.py:412-445 | none exactly for an empty box; otherwise bounds and every bit agree with the cell definition |
| `HybridCoverage.BuildHybridCoverage` | packages/api/api/concepts/map_region_coverage.py:448-477 | one disk an active origin and correct patches over the least separate boxes around the touched nebulae |
| `HybridCoverage.MergedPatchBoxes` | packages/api/api/concepts/map_region_coverage.py:352-367 | the boxes are that least cover, and valid |
| `HybridCoverage.ReadCell` | packages/api/api/concepts/map_region_coverage.py:448-461 | a patch decides every cell in its bounds and the disks the others |
| `HybridCoverage.HybridAgrees` | packages/api/api/concepts/map_region_coverage.py:448-461 | for every cell of the map reading the hybrid equals the definition, for default and scanner ranges and for hooks that bring no cell into reach in fog that the base range does not reach |
| `HybridCoverage.CoverageAt` | packages/api/api/concepts/map_region_coverage.py:448-477 | build followed by read: covered exactly if some origin has the cell within its base range and, in fog, within the visibility, or within 100 for a scanner |
| `HybridCoverage.UntouchedNebulaIsDark` | packages/api/api/concepts/map_region_coverage.py:302-307 | a nebula no disk meets keeps its cells out of every disk |
| `HybridHooks.HookIsServedIff` | packages/api/api/concepts/map_region_coverage.py:272-282 | exactly the hooks that bring no cell into reach in fog that the base range does not reach agree on all maps, whatever the ranges |
| `HybridHooks.LongerHookDisagrees` | packages/api/api/concepts/map_region_coverage.py:272-282 | a hook that gains a cell yields a map in which that cell reads wrong, strictly inside fog |
| `HybridHooks.ShorterGainsNothing` | packages/api/api/concepts/map_region_coverage.py:272-282 | a hook that in fog never exceeds the base range is one of them |
| `HybridHooks.FarNebula` | packages/api/api/concepts/map_region_coverage.py:302-307 | around every cell beyond a range there is a nebula with whole centre and radius that holds it strictly inside and meets no disk of that range |
| `WorkQueue.WorkerQueue.DequeueNext` | packages/api/api/compute/pools.py:86-121 | takes a stream-attached item if an eligible one is queued and a background one only if all eligible ones are; within the band an initial step before continuations, otherwise the first come; keeps the order of the rest, and takes none exactly when none is eligible |
| `WorkQueue.WorkerQueue.PopRunnable` | packages/api/api/compute/pools.py:405-419 | the same discipline, band by band; none exactly when nothing queued is eligible, and one dequeue is counted for each item taken |
| `WorkQueue.WorkerQueue.Unregister` | packages/api/api/compute/pools.py:294-301 | exactly the items of other orchestrators stay, in order |
| `WorkQueue.BestRank` | packages/api/api/compute/pools.py:103-106 | the rank of a band that some eligible item has, stream-attached if any is and background only if all are, or none |
| `WorkQueue.NextByBand` | packages/api/api/compute/pools.py:30-34 | an item is next if and only if, by name of the three bands, no eligible item of a better band is queued, no first step in its band if it continues, and nothing like it earlier |
| `WorkQueue.NextIsUnique` | packages/api/api/compute/pools.py:86-116 | there is only one item the discipline can take |
| `WorkQueue.NextIffNobodyAhead` | packages/api/api/compute/pools.py:91-116 | an item is next exactly when no eligible item is ahead of it |
| `WorkQueue.ServiceAdvances` | packages/api/api/compute/pools.py:91-116 | each service of another item brings a waiting item exactly one place nearer |
| `WorkQueue.ArrivalAhead` | packages/api/api/compute/pools.py:91-116 | an arrival gets ahead of a waiting item exactly when it outranks it |
| `WorkQueue.TurnComes` | packages/api/api/compute/pools.py:328-332 | over every run an item still queued has as many ahead as at first plus overtakers minus services, and otherwise was taken exactly when that balance was used up |
| `WorkQueue.ServedAfterThoseAhead` | packages/api/api/compute/pools.py:405-419 | without overtaking arrivals an item with p eligible items ahead is taken by exactly the service after p others |
| `WorkQueue.RoundRobin` | packages/api/api/compute/pools.py:91-95 | in every history in which each continuation served is queued again with its next step, the k-th service takes the k-th of the continuations that waited at first, and after one turn each they stand in that order again |
| `WorkQueue.HeadIsNext` | packages/api/api/compute/pools.py:91-95 | in such a queue the discipline takes the head and leaves such a queue |
| `TeamPalette.AssignHues` | packages/api/api/analytics/team_palette.py:72-84 | each team gets an unused hue that no hue left would beat: the nearest hue of an earlier team it borders, or of any earlier team if it borders none, is as far as it can be, and among equals the hue is the lowest |
| `TeamPalette.HuesAreABijection` | packages/api/api/analytics/team_palette.py:69-84 | every team gets its own hue and every hue is given out |
| `TeamPalette.BestHue` | packages/api/api/analytics/team_palette.py:74-82 | the choice among the remaining hues |
| `TeamPalette.ChooseHatch` | packages/api/api/analytics/team_palette.py:86-109 | the first hatch free of close neighbours, or else the least used, earliest first |
| `TeamPalette.AssignHatches` | packages/api/api/analytics/team_palette.py:86-110 | each team in turn has the first hatch that no earlier bordering team under 60 degrees away has, or if all are taken one that the fewest of them have, the first such |
| `TeamPalette.BordersDifferIff` | packages/api/api/analytics/team_palette.py:86-110 | close borders differ everywhere if and only if no team sees all six hatches blocked |
| `TeamPalette.SomeHatchIsFree` | packages/api/api/analytics/team_palette.py:88-95 | with at most 18 teams a hatch is always free |
| `TeamPalette.EighteenTeamsLookDifferent` | packages/api/api/analytics/team_palette.py:62-118 | with a symmetric map and at most 18 teams any two bordering teams under 60 degrees apart have different hatches |
| `TeamPalette.CloseMeansTwoSteps` | packages/api/api/analytics/team_palette.py:34-36 | with at most 18 hues, hues under 60 degrees apart are at most two steps apart |
| `TeamPalette.HueDistanceOnWheel` | packages/api/api/analytics/team_palette.py:34-36 | the distance of two hues is the shorter way round the wheel of hues |
| `TeamPalette.AssignTeamStyles` | packages/api/api/analytics/team_palette.py:62-118 | styles exactly the positive ids, with those hues and hatches |
| `LruCache.LruCache.Get` | packages/api/api/lru_cache.py:27-32 | returns the entry and makes it the most recent, or changes nothing |
| `LruCache.LruCache.Put` | packages/api/api/lru_cache.py:34-39 | stores as most recent and keeps the newest entries within the bound |
| `LruCache.StoredForm` | packages/api/api/lru_cache.py:34-39 | an entry of the key goes, the new one is the most recent, the rest keep their order, and only a full cache without the key forgets its oldest entry |
| `LruCache.UsedForm` | packages/api/api/lru_cache.py:27-32 | a used entry becomes the most recent and the rest keep their order |
| `TurnCache.TurnInfoCache.Get` | packages/api/api/compute/turn_cache.py:55-78 | a hit never loads; on a coherent cache the answer is what the store holds and the cache stays coherent |
| `TurnCache.ReadThenHits` | packages/api/api/compute/turn_cache.py:55-78 | a stored turn that was read is cached, whatever the cache held |
| `TurnCache.CacheAgrees` | packages/api/api/compute/turn_cache.py:115-129 | over every trace whose writes are followed by put or drop the cache stays within its bound and holds only stored turns |
| `TurnCache.LargerCacheLoadsLess` | packages/api/api/lru_cache.py:15-39 | over every such trace a smaller cache holds exactly the most recent part of a larger one, and the larger one never loads more often |

## Left out

- Listeners, metrics, diagnostics snapshots, lifecycle payloads and `park_reason`: they do not influence scheduling.
- The content of orchestration bundles, dependency outputs and job wires: only whether a wire or a bundle is there matters to scheduling.
- The preparation of dependency chains before a submission's lock is part of `TurnFill`, not of the submission event; planning that raises after a terminal node was dropped is the event `PlanningRaises`, as is a submission of new work without a bundle; inside callbacks planning succeeds.
- An exception in one post-lock callback that discards the rest of its batch: callbacks are an unordered multiset and each is consumed by its own effect.
- The callback that restarts aborted dependencies is split into one submission a scope, each its own event.
- Waiting, timeouts and the order of the handles an ensure returns: a handle's outcome is `WaitersGetTheirOutcome`.
- ComputeOrchestrator.Orchestrator.EnsureScopes: covers the batch under one lock; requests found satisfied before it are ordinary submissions.
- `StepResult` parsing in `wire.py`: the outcome alphabet is a datatype.
- Threads, executors, backends and futures of the worker pool: a worker finishing a step is an event, and the hooks around a dequeue are not modelled.
- Voronoi cells, unions, orientation and representative points: foreign geometry; rings, area and probe points are given.
- `fill_hex_for_hue`: colour conversion; a style keeps its hue.
- Fills of the turn cache that race a write: the source loads outside its lock and claims nothing there.
- Floating-point rounding everywhere.
- The analytics themselves, storage backends, HTTP and MCP layers and the front end.
