# muto: lifecycle proofs

muto schedules agent jobs for tenants on Kubernetes or Cloud Foundry. This project models the parts of it in which
several goroutines, reconciles or calls work on shared state, as transition systems over that state, and proves what
holds in every run: whatever the interleaving, wherever a call fails, and whoever else acts in between.

* **Phase table** (`Lifecycle`). The `transitions` map that both job lifecycles refine.
* **In-memory scheduler** (`AgentStreams`, `FanIn`, `SchedulerModel`, `SchedulerProofs`, `SchedulerTheorems`,
  `SchedulerTurns`, `SchedulerIsolation`, `IsolationTheorems`, `Scheduler`). Any number of `Schedule` and `Cancel` calls,
  their watch goroutines, the forwarders and the bounded results channel, and both adapters' polling loops. A step is one
  section under the mutex, one adapter call, or one channel operation.
* **AgentJobReconciler** (`PodNames`, `JobModel`, `JobLifecycle`, `JobPods`, `JobTheorems`, `JobTimes`, `JobVerdict`,
  `JobProgress`, `JobStuck`, `JobTeardown`, `Ttl`, `AgentJobReconciler`). A crash-and-retry state machine over versioned
  job statuses, pods, tenants and the metrics gauges. A step is one API call, one metrics call, or an action of a user, a
  pod or the clock.
* **TenantReconciler** (`TenantModel`, `TenantTheorems`, `TenantReady`, `TenantReconciler`). The finalizer protocol, one
  API call a step.
* **Cloud Foundry adapter** (`GuidCache`, `CfModel`, `CfTheorems`, `CfAdapter`). Concurrent `SpawnAgent` calls that share
  the GUID cache over a directory that may change. A step is one locked cache operation or one API call.

Each part has the same shape. `Next(state, step)` is total, and a step that is not enabled changes nothing, so a run is
any sequence of steps and a theorem about all sequences is one about all reachable states. The Go objects are classes
beside it: their methods follow the Go code statement by statement and let a script of other actors' steps run before
every atomic action and say how each call is answered. `Valid()` says that the object's state is the one its recorded
trace leads to, so every theorem about runs holds of the objects. Each method states which steps it took, or what the new
state is, and what it returns in terms of the script's answers.

## What the code needs

These are the conditions the results rest on. Where a result can be stated without one, there is an exact condition; where
a condition is needed, the lemma named with it shows what goes wrong otherwise. The last list has none.

* **Agent names.** Task GUIDs of Cloud Foundry are fresh forever; the Kubernetes adapter reuses `muto-<tenant>-<role>`, and a
  name is free again once its pod is terminated or removed from outside. With fresh names no `TerminateAgent` ever hits
  another call's agent. With reused names it never does as long as no job is cancelled again after a Cancel that got, or may
  still get, past its first agent, and no agent that was removed from outside is still to be terminated; otherwise it can
  (`IsolationIff`, `CancelIsSafeIff`, `ReusedNamesBreakIsolation`, `RemovedPodBreaksIsolation`).
* **Role names.** Pod names collide within a job exactly when two of its roles clash, and across jobs exactly when one pod's
  segment ends with a dash and another's (`PlanDistinctIff`, `JobsApartIff`, `RolesCollide`). Results about a job's own pods
  ask that pod names of different jobs do not collide.
* **Lists and pods.** The reconciler judges only the pods it lists. Exactly when its verdict was true is `VerdictTrueIff`; with
  current lists and no pods removed from outside it always is and stays so (`VerdictIsThePods`, `RemovedPodHidesFailure`,
  `WrongVerdictReached`, `OutdatedListHidesFailure`).
* **Getting on.** A Running job all of whose pods were removed from outside is looked at every second for ever, and nothing
  makes its pods again (`StuckForever`, `StuckReached`, `GetsOnIff`). What any job waits for is exactly `CleanReconcileIff`.
* **Job reads** may be arbitrarily stale, but for termination (`StaleReadRaisesTheMeasure`, `StaleReadReached`).
* **Job deletion.** Users who delete a Running job leak its share of the gauges for good (`DepthExactIff`, `AgentsExactIff`,
  `LostJobLeaksForever`). With outdated lists the reconciler itself can delete a job before pods the list missed
  (`JobGoesLast` says which).
* **Tenant reads** may be stale but must not go back to an older version than a previous reconcile has seen
  (`SafeIffMonotone`, `GoingBackBreaksSafety`); for Ready to be honest nobody may remove what was provisioned either
  (`HonestIff`).
* **Org and space GUIDs.** Org GUIDs hold no colon (`KeysMeetIff`). For tenant separation no space GUID stands for two spaces
  over time and, where each tenant has its own org, no org GUID for two names; without the second, `ShareSpaceIff` says exactly
  which calls share a space (`RenamedOrgsMix`, `RemadeSpaceParts`).

Assumed outright:

* A failed API call has no effect. A status update on an old version of an object is rejected. Reconciles of one key are
  serialised. Metrics are counted over one process lifetime. Clocks never go back.
* There is one tenant per namespace, and specs do not change. Gateway resources, pods that carry a job's label and job
  statuses are made by the reconcilers only; others may remove them.
* Other controllers never strip the Tenant's `muto.io/tenant-cleanup` finalizer. The Gets of namespace, Secret, Deployment
  and Service are never stale; `HonestIff` and `CleanRunConverges` depend on it.
* `GetTask` reports `context.Canceled` only when its context is cancelled, and a `select` takes `ctx.Done()` only then.
* Runner apps are pushed by the adapter only. The directory gives one GUID per name at a time.

Where the documentation and the code differ, the model follows the code. `Terminating` is not terminal for `IsTerminal`, so
`ListActive` lists such jobs. Cancelling twice is an error. A `Schedule` that fails on spawn or watch abandons the agents it
has spawned. An AgentJob without roles never leaves Running, while in the in-memory scheduler such a job can become Succeeded
at once.

## Model

| member | source | states |
|---|---|---|
| `Lifecycle.EdgeIff` | core/scheduler/statemachine.go:24-41 | the table's edges are exactly Pending to Running, Running to a terminal phase or Terminating, terminal to Terminating |
| `Lifecycle.EventIff` | core/scheduler/statemachine.go:24-41 | from where to where each of the five events leads |
| `Lifecycle.PathRises` | core/scheduler/statemachine.go:24-33 | along any path of the table the rank strictly rises, so no phase is entered twice |
| `Lifecycle.PathShape` | core/scheduler/statemachine.go:24-33 | a path from Pending has at most four phases, and which ones can follow which |
| `Lifecycle.TerminatingIsFinal` | core/scheduler/statemachine.go:24-33 | nothing follows Terminating on a path |
| `AgentStreams.K8sWatchAgent` | platform/k8s/adapter.go:67-114 | for every sequence of poll answers at most one event, a terminal one: Completed iff the first poll that ends the loop found a pod that had succeeded, Failed iff it found one that had failed or none, and in both cases ctx.Done() was not taken; closed iff some poll ends it; closed in silence only when cancelled |
| `AgentStreams.CfWatchAgent` | platform/cf/adapter.go:78-108 | likewise for the task loop: Completed iff the first poll that ends it found the task SUCCEEDED, Failed iff it found it FAILED or CANCELING or got any error but context.Canceled, even if cancelled |
| `FanIn.StepInv` | core/scheduler/scheduler.go:182-207 | no step of agents, forwarders, closer or consumer loses, duplicates or invents an event |
| `FanIn.NeverBlocks` | core/scheduler/scheduler.go:183-193 | with at most two events a stream, a forwarder holding an event always finds room in the buffer of 2*total, even when nobody reads |
| `FanIn.ForwardersFinish` | core/scheduler/scheduler.go:185-194 | once the streams are closed the forwarders finish and results is closed without the consumer: while it is open some one of them can move, and every move of a forwarder leaves less work |
| `FanIn.VerdictIsRight` | core/scheduler/scheduler.go:195-220 | when the count is complete every agent has reported exactly once, and the verdict is Failed iff some agent failed, in every merge order |
| `FanIn.ReturnsOnlyOnSilence` | core/scheduler/scheduler.go:196-200 | the early return happens only if some stream closed without an event, which needs a cancelled context |
| `FanIn.AllReportedGetsCounted` | core/scheduler/scheduler.go:196-207 | conversely, when all agents have reported the count is never given up, and some goroutine can bring it nearer to the end |
| `FanIn.EveryStepNears` | core/scheduler/scheduler.go:182-207 | and every step of anyone that changes anything brings it nearer |
| `SchedulerTheorems.AcceptedIff` | core/scheduler/scheduler.go:71-108 | a Schedule with all agents spawned and watched is accepted iff its phase is empty or Pending and no Schedule with its id was ever accepted; then and only then the jobs map changes, by that one record |
| `SchedulerTheorems.RecordedMeansWatched` | core/scheduler/scheduler.go:44-108 | every agent of a recorded job was spawned by an earlier step of its Schedule call, in order, and, once all were, watched by another |
| `SchedulerTheorems.PhasesFollowTable` | core/scheduler/scheduler.go:89-107 | in every run of concurrent calls a recorded job's phases are a table path from Pending to where it is now, never Pending itself |
| `SchedulerTheorems.RecordsAreForever` | core/scheduler/scheduler.go:73-87 | records are never replaced or removed, whatever follows, and their phase history only grows |
| `SchedulerTheorems.AtMostOnce` | core/scheduler/scheduler.go:77-149 | per id at most one Schedule and at most one Cancel succeed; no Cancel finds its record gone; a job is Terminating iff a Cancel of it has succeeded |
| `SchedulerTheorems.VerdictWriteIsTransition` | core/scheduler/scheduler.go:208-221 | the phase watchJob assigns directly is Transition(Running, AllComplete or AgentFailed), and nothing changes for a job that is Terminating |
| `SchedulerTheorems.VerdictIsTheAgents` | core/scheduler/scheduler.go:181-221 | end to end with the adapters' contract: a job that has had a verdict has had one report from every agent, Succeeded iff all Completed, Failed iff one Failed |
| `SchedulerTheorems.VerdictIsThePodPolls` | platform/k8s/adapter.go:67-114 | down to Kubernetes: a job that has had a verdict was Succeeded iff the polls of every agent ended with a succeeded pod, Failed iff those of some agent ended with a failed or missing one |
| `SchedulerTheorems.VerdictIsTheTaskPolls` | platform/cf/adapter.go:78-108 | down to Cloud Foundry likewise |
| `SchedulerTheorems.GivesUpOnlyWhenCancelled` | core/scheduler/scheduler.go:196-200 | watchJob returns without a verdict only for a job that is Terminating |
| `SchedulerTheorems.ReportedJobsGetTheirVerdict` | core/scheduler/scheduler.go:196-221 | a Running job whose agents have all reported is never stuck |
| `SchedulerTheorems.NothingDelaysTheVerdict` | core/scheduler/scheduler.go:181-207 | no step of any call or goroutine takes the count of such a job further from its end |
| `SchedulerTheorems.CancelWins` | core/scheduler/scheduler.go:133-149 | after a successful Cancel the job stays Terminating in every continuation, whichever of Cancel and watchJob locked first |
| `SchedulerTheorems.TerminatingMeansStopped` | core/scheduler/scheduler.go:126-149 | on every platform the step to Terminating ends a Cancel of the job that has had, at earlier steps of the run, a successful TerminateAgent for each agent of the job in turn |
| `SchedulerTheorems.GoneIff` | platform/k8s/adapter.go:30-65 | a name is free again iff its agent was removed after its last spawn, by a TerminateAgent that succeeded or from outside; one that failed does not count |
| `IsolationTheorems.IsolationIff` | core/scheduler/scheduler.go:77-149 | for fresh and for reused names, pods removed from outside included: in a run where no TerminateAgent has hit another call's agent, none will, short of a further Cancel or removal, iff names are fresh, or no Cancel has still to terminate what another Cancel of its job has passed or may pass and no open or rejected Schedule and no Cancel has still to terminate an agent that was removed |
| `IsolationTheorems.CancelIsSafeIff` | core/scheduler/scheduler.go:114-149 | what a caller can check where names are reused: a Cancel is harmless iff the job is unknown or has no agents, or none of its agents was removed from outside and it was only cancelled by attempts that failed at its first agent |
| `IsolationTheorems.OneCancelEach` | core/scheduler/scheduler.go:114-131 | on every platform a run is isolated in which each job is found by at most one Cancel and no agent of a rejected call or a cancelled job is removed from outside |
| `IsolationTheorems.RemovedPodBreaksIsolation` | platform/k8s/adapter.go:30-79 | with reused pod names: a concrete run in which a pod is removed from outside and the first and only Cancel of its job terminates the running agent of a later job, and succeeds |
| `IsolationTheorems.FreshIsIsolated` | core/scheduler/scheduler.go:46-149 | with fresh names every run is |
| `IsolationTheorems.Ledger` | core/scheduler/scheduler.go:46-108 | in every isolated run each agent name belongs to the place that spawned it last and has exactly one fate: in flight, owned by a record, sent back by a rejection, or abandoned; only the rejection that reached it or a Cancel of its own job ever terminates it, and all earlier bearers of the name were passed over or removed from outside |
| `IsolationTheorems.RejectionsAreHarmless` | core/scheduler/scheduler.go:77-105 | in every isolated run what a rejected call has still to terminate, and nobody has removed, is its own, and a recorded job with an agent of that name has had it terminated by a Cancel or removed; with fresh names there is none |
| `SchedulerTheorems.ReusedNamesBreakIsolation` | platform/k8s/adapter.go:30-65 | with reused pod names: a concrete run in which a refused second Cancel has terminated the running agent of a later job |
| `SchedulerTurns.MineIsOwn` | core/scheduler/scheduler.go:44-222 | a goroutine's own steps in the run its script makes are exactly its calls, in order |
| `SchedulerTurns.ForeignIsNotMine` | core/scheduler/scheduler.go:44-222 | and nobody else takes any of them |
| `SchedulerTurns.ForeignIsAllOthers` | core/scheduler/scheduler.go:44-222 | while none of the others' steps is lost or repeated |
| `SchedulerTurns.ArrivedIsFinished` | core/scheduler/scheduler.go:195-207 | once every agent's event is in the channel or counted, as many further receives as events in the channel complete the count, whatever others do, and the channel is never found closed before |
| `Scheduler.DefaultScheduler.Schedule` | core/scheduler/scheduler.go:44-112 | the whole run of the call under any interference, each adapter call with the adapter's answer: a spawn error iff at that step the adapter refused or named an agent in use, and then every agent before it was spawned as answered; a watch error iff some watch fails; otherwise the jobs map found under the mutex decides between the three outcomes, and a rejected call terminates all its agents |
| `Scheduler.DefaultScheduler.SpawnAll` | core/scheduler/scheduler.go:47-57 | its first loop: the agents the adapter answers, in order, up to the first refusal |
| `Scheduler.DefaultScheduler.WatchAll` | core/scheduler/scheduler.go:62-69 | its second loop: through iff every watch succeeds |
| `Scheduler.DefaultScheduler.Settle` | core/scheduler/scheduler.go:71-108 | the rest of it: decided by the jobs map as found at that step, then the clean-up if rejected |
| `Scheduler.DefaultScheduler.Admit` | core/scheduler/scheduler.go:71-108 | the section under the mutex, with its whole new jobs map in each of the three cases |
| `Scheduler.DefaultScheduler.TerminateAll` | core/scheduler/scheduler.go:80-102 | a rejected call passes all of its agents to TerminateAgent in order, whatever the answers, which are the recorded ones |
| `Scheduler.DefaultScheduler.Cancel` | core/scheduler/scheduler.go:114-150 | the whole run of the call, each TerminateAgent with the adapter's answer: not found iff there was no such job; a terminate error iff some TerminateAgent fails, at the first that does; otherwise refused iff its second section finds the job Terminating, and in both cases the job is Terminating with its watch context cancelled and nothing else has changed |
| `Scheduler.DefaultScheduler.Find` | core/scheduler/scheduler.go:115-124 | the first section of Cancel: the job's agents, if there is such a job |
| `Scheduler.DefaultScheduler.StopAgents` | core/scheduler/scheduler.go:126-131 | its loop terminates the agents in order and stops at the first error, and says whether there was one |
| `Scheduler.DefaultScheduler.FinishCancel` | core/scheduler/scheduler.go:133-149 | the second section of Cancel: refused iff already Terminating, and the whole new jobs map |
| `Scheduler.DefaultScheduler.WatchJob` | core/scheduler/scheduler.go:181-222 | the whole run of the goroutine: it receives in every round until the count is complete or results is closed, so if it is still waiting it has used all its rounds, and it writes the verdict if at any point every agent's event had arrived and the rounds left are as many as the events in the channel; the verdict is Failed iff a Failed event was counted, and a Terminating phase is kept; it gives up only under a Cancel |
| `Scheduler.DefaultScheduler.Receive` | core/scheduler/scheduler.go:197-200 | a receive takes the first buffered event, or finds results closed, or nothing yet, exactly as the channel stands |
| `Scheduler.DefaultScheduler.FinishWatch` | core/scheduler/scheduler.go:208-221 | the final section: the whole new jobs map, a Terminating phase being kept |
| `Scheduler.DefaultScheduler.ListActive` | core/scheduler/scheduler.go:164-177 | exactly the tenant's jobs whose phase is not Succeeded or Failed, each once |
| `Scheduler.DefaultScheduler.ActiveJobs` | core/scheduler/scheduler.go:168-175 | its loop finds exactly them in any map whose records are filed under their ids, in whatever order |
| `PodNames.PlanDistinctIff` | platform/k8s/reconcilers/agentjob_reconciler.go:192-199 | for any role names and replica counts, all pod names of a job are pairwise distinct iff no two roles clash: same kind and same name, or a single role named as a replica of a replicated one |
| `PodNames.DecimalReads` | platform/k8s/reconcilers/agentjob_reconciler.go:198 | the printed replica number, read digit by digit, is the number, without leading zeros |
| `PodNames.DecimalInjective` | platform/k8s/reconcilers/agentjob_reconciler.go:198 | decimal printing of replica numbers is injective |
| `PodNames.NameDetermines` | platform/k8s/reconcilers/agentjob_reconciler.go:192-199 | for any role names, pods of a job share a name only if their roles clash, and within one role never |
| `PodNames.ClashShares` | platform/k8s/reconcilers/agentjob_reconciler.go:192-199 | conversely clashing roles do share a pod name |
| `PodNames.PlanLength` | platform/k8s/reconcilers/agentjob_reconciler.go:55-69 | unless a replica count is negative, as many names are planned as totalAgents says |
| `PodNames.PlanNames` | platform/k8s/reconcilers/agentjob_reconciler.go:55-69 | which names are planned: one unnumbered pod for a role with MaxReplicas 0 or 1, pods 0 to n-1 for one with n > 1, none for a negative count |
| `PodNames.PlanAt` | platform/k8s/reconcilers/agentjob_reconciler.go:56-68 | the nested loops go through the plan in order: replica i of role r is the name at the position after all earlier roles' pods |
| `JobModel.Int32` | platform/k8s/reconcilers/agentjob_reconciler.go:72 | the int32 conversion of totalAgents: in range, and the same modulo 2^32 |
| `PodNames.SegmentsMeetIff` | platform/k8s/reconcilers/agentjob_reconciler.go:192-199 | what follows the job name in two pods can make them collide, for some two job names, iff one ends with a dash and the other |
| `PodNames.JobsApartIff` | platform/k8s/reconcilers/agentjob_reconciler.go:192-199 | exactly when two role lists keep the pods of any two different jobs apart |
| `PodNames.JobsApart` | platform/k8s/reconcilers/agentjob_reconciler.go:192-199 | dash-free roles that are no numbers do |
| `PodNames.RolesCollide` | platform/k8s/reconcilers/agentjob_reconciler.go:192-199 | concrete roles that collide, across jobs and within one |
| `JobTheorems.PhasesFollowTable` | platform/k8s/reconcilers/agentjob_reconciler.go:35-45 | with arbitrarily stale reads, lists and failures the committed phases are a table path from Pending (empty read as Pending), and JobStarted and JobFinished are each called at most once, exactly once they are due |
| `JobTheorems.HistoryGrows` | platform/k8s/reconcilers/agentjob_reconciler.go:70-143 | in any continuation a job's committed versions are never rewritten |
| `JobTheorems.GaugesBalance` | platform/k8s/metrics/metrics.go:70-89 | over any number of jobs and any failures, AgentsRunning, JobQueueDepth and JobsTotal of a tenant equal the active agents, the number, and the terminal transitions of its jobs, as soon as no metrics call is pending |
| `JobTheorems.GaugesExact` | platform/k8s/metrics/metrics.go:70-89 | the same over existing jobs only, for the two gauges, when no job of the tenant was lost while Running |
| `JobTheorems.NoneLostIfKept` | platform/k8s/reconcilers/agentjob_reconciler.go:146-161 | none is when users delete no jobs: the reconciler deletes no Running job |
| `JobTheorems.DepthExactIff` | platform/k8s/metrics/metrics.go:70-89 | JobQueueDepth owes nothing to lost jobs iff no job of the tenant was lost while Running |
| `JobTheorems.AgentsExactIff` | platform/k8s/metrics/metrics.go:70-89 | AgentsRunning owes nothing to lost jobs iff those lost while Running had no active agents, none having a negative number |
| `JobTheorems.LostJobLeaksForever` | platform/k8s/reconcilers/agentjob_reconciler.go:122-126 | after a job object is deleted while Running, JobQueueDepth is too high in every later settled state |
| `JobTheorems.NeverExpiresEarly` | platform/k8s/reconcilers/agentjob_reconciler.go:130-143 | a Terminating job had a positive TTL, and its stored CompletedAt plus that TTL has passed |
| `JobTheorems.RequeuedExactlyOnTime` | platform/k8s/reconcilers/agentjob_reconciler.go:137-143 | the returned delay is positive; a reconcile after less changes nothing, one after that delay or more sets Terminating |
| `JobTimes.VersionsAreStamped` | platform/k8s/reconcilers/agentjob_reconciler.go:70-143 | every committed version holds the time of the step that committed it, in whole seconds: Running as StartedAt, a verdict as CompletedAt, and what was stored before is kept |
| `JobTimes.LivesOutItsTtl` | platform/k8s/reconcilers/agentjob_reconciler.go:118-143 | no job is Terminating before its TTL, less at most a second, has passed since the step that committed its verdict |
| `JobTimes.ExpiresOnTime` | platform/k8s/reconcilers/agentjob_reconciler.go:130-144 | a reconcile of a finished job sets Terminating once the whole TTL has passed since that step, and changes nothing while more than a second of it is left |
| `JobTheorems.VerdictIsThePods` | platform/k8s/reconcilers/agentjob_reconciler.go:81-124 | with current lists and no pods removed: Succeeded means every planned pod exists and Succeeded, Failed that all finished and one failed, in every later state before Terminating; a job without pods gets no verdict |
| `JobVerdict.VerdictTrueIff` | platform/k8s/reconcilers/agentjob_reconciler.go:81-124 | for any configuration: every committed verdict was found by a List of a reconcile of the job, and was true of the pods that list shows iff the list covers the plan; current lists show the present pods |
| `JobVerdict.TrueIffCovered` | platform/k8s/reconcilers/agentjob_reconciler.go:81-110 | the same for any one reconcile that lists finished pods |
| `JobVerdict.TrueIffRestAgrees` | platform/k8s/reconcilers/agentjob_reconciler.go:81-110 | for outdated and partial lists: the verdict is true of the present pods iff the planned pods left out have finished, and none of them failed unless a listed one did |
| `JobVerdict.CoversIffCount` | platform/k8s/reconcilers/agentjob_reconciler.go:88-116 | the check that would tell: if no roles clash, the list covers the plan iff it is as long as ActiveAgents |
| `JobTheorems.RemovedPodHidesFailure` | platform/k8s/reconcilers/agentjob_reconciler.go:82-110 | in every world where one labelled pod failed and the rest succeeded, removing it turns the next verdict from Failed to Succeeded |
| `JobVerdict.WrongVerdictReached` | platform/k8s/reconcilers/agentjob_reconciler.go:49-110 | a concrete run reaches such a world |
| `JobVerdict.OutdatedVerdictReached` | platform/k8s/reconcilers/agentjob_reconciler.go:82-110 | likewise for an outdated list: in a concrete run it makes a job Succeeded while all its pods are pending |
| `JobTheorems.OutdatedListHidesFailure` | platform/k8s/reconcilers/agentjob_reconciler.go:82-110 | the condition on lists is needed: any outdated list of successful pods makes a Running job Succeeded |
| `JobTheorems.RetriesConverge` | platform/k8s/reconcilers/agentjob_reconciler.go:49-79 | after any cut-short runs, a job that is Running or has a verdict has exactly the planned pods, and a Running one the ActiveAgents of one clean run |
| `JobTheorems.ActiveAgentsArePods` | platform/k8s/reconcilers/agentjob_reconciler.go:55-72 | unless a replica count is negative or the sum leaves int32, a Running job has at most ActiveAgents pods, and exactly so many iff no two roles clash |
| `JobTeardown.JobGoesLast` | platform/k8s/reconcilers/agentjob_reconciler.go:146-161 | for any configuration: when the reconciler deletes a job object the job is Terminating, and the pods left of it are exactly those that were there at its List, were missing in the answer and have been there ever since; with current lists none |
| `JobProgress.NothingRaisesTheMeasure` | platform/k8s/reconcilers/agentjob_reconciler.go:49-161 | with fresh reads, current lists and no pods removed from outside, the measure (stage, pods left in it) is raised by no step of anyone, users who delete jobs included, and falls on every call of the job's reconcile that changes the store |
| `JobProgress.StaleReadRaisesTheMeasure` | platform/k8s/reconcilers/agentjob_reconciler.go:35-68 | fresh reads are needed: a reconcile that reads a Terminating job as Pending makes its pods again |
| `JobProgress.StaleReadReached` | platform/k8s/reconcilers/agentjob_reconciler.go:35-161 | a concrete run reaches such a state |
| `JobProgress.FinishingPodLowers` | platform/k8s/reconcilers/agentjob_reconciler.go:93-105 | the measure of a Running job falls whenever a planned pod finishes |
| `JobProgress.CleanReconcileDescends` | platform/k8s/reconcilers/agentjob_reconciler.go:49-161 | however stale other reads were and whatever was removed: with its tenant, pods that have all finished, or its passed TTL, one reconcile whose calls succeed takes the job a stage down, finally out of existence |
| `JobProgress.NoneLeftIsAwaited` | platform/k8s/reconcilers/agentjob_reconciler.go:81-105 | if nobody removes pods, a Running job has what it waits for when its planned pods have all finished |
| `JobStuck.CleanReconcileIff` | platform/k8s/reconcilers/agentjob_reconciler.go:49-161 | it does so iff the job has that; a Running job iff it has a labelled pod and all of them have finished |
| `JobStuck.StuckForever` | platform/k8s/reconcilers/agentjob_reconciler.go:81-91 | with fresh reads and current lists, a Running job without pods stays Running without pods in every continuation |
| `JobStuck.StuckReached` | platform/k8s/reconcilers/agentjob_reconciler.go:81-91 | a concrete run reaches such a state: both pods of a Running job are removed from outside |
| `JobStuck.GetsOnIff` | platform/k8s/reconcilers/agentjob_reconciler.go:81-124 | with fresh reads and current lists a Running job ever gets another version, in some continuation, iff it has a pod left |
| `Ttl.TtlNeverOverflows` | platform/k8s/reconcilers/agentjob_reconciler.go:138 | an int32 TTL in nanoseconds stays within int64 |
| `Ttl.WaitIsRightIff` | platform/k8s/reconcilers/agentjob_reconciler.go:137-140 | ttl - elapsed does not wrap iff the completion time lies at most about 292 years ahead; otherwise the delay is negative |
| `Ttl.BranchIsRight` | platform/k8s/reconcilers/agentjob_reconciler.go:137-139 | with the saturating time.Since, elapsed < ttl is decided rightly whatever the clock says |
| `Ttl.WaitIsRight` | platform/k8s/reconcilers/agentjob_reconciler.go:137-140 | with clock and completion time within 2^62 ns of each other the delay computed is the one RequeuedExactlyOnTime speaks of |
| `Ttl.Since` | platform/k8s/reconcilers/agentjob_reconciler.go:137 | time.Since of two int64 times: their difference, saturated |
| `Ttl.Wrap64` | platform/k8s/reconcilers/agentjob_reconciler.go:138-140 | int64 arithmetic: in range, and the same modulo 2^64 |
| `AgentJobReconciler.AgentJobReconciler.Reconcile` | platform/k8s/reconcilers/agentjob_reconciler.go:28-47 | whatever others do between its calls: at most one version is added, on top of the one read, with exactly its metrics call; it reports an error iff its last call failed at the server, for want of the tenant or on an outdated version, no call before having failed, and then adds none; and per phase read, what success means, how many calls it took and when to be called again |
| `AgentJobReconciler.AgentJobReconciler.ReconcilePending` | platform/k8s/reconcilers/agentjob_reconciler.go:49-79 | success means that each planned pod existed after its Create, and leaves the job Running since now, with the sum of effective replicas as ActiveAgents and JobStarted called once |
| `AgentJobReconciler.AgentJobReconciler.Launch` | platform/k8s/reconcilers/agentjob_reconciler.go:70-77 | its status update and metrics call |
| `AgentJobReconciler.AgentJobReconciler.CreatePods` | platform/k8s/reconcilers/agentjob_reconciler.go:55-69 | the nested loops create the whole plan in order and total the effective replicas, or stop at the first failure |
| `AgentJobReconciler.AgentJobReconciler.JudgePods` | platform/k8s/reconcilers/agentjob_reconciler.go:93-101 | the flags say, in any list order, whether all listed pods have finished and whether one has failed |
| `AgentJobReconciler.AgentJobReconciler.ReconcileRunning` | platform/k8s/reconcilers/agentjob_reconciler.go:81-128 | success is decided by the list its List call answered: one second if empty, five if not all listed pods have finished, else the verdict of the list, completed now, no active agents, JobFinished called once and a requeue after the TTL |
| `AgentJobReconciler.AgentJobReconciler.Complete` | platform/k8s/reconcilers/agentjob_reconciler.go:107-126 | its status update and metrics call |
| `AgentJobReconciler.AgentJobReconciler.ReconcileTerminal` | platform/k8s/reconcilers/agentjob_reconciler.go:130-144 | Terminating iff the TTL has passed at the read; else unchanged, with the positive remaining delay, or none without TTL or CompletedAt |
| `AgentJobReconciler.AgentJobReconciler.ReconcileTerminating` | platform/k8s/reconcilers/agentjob_reconciler.go:146-161 | success means that each pod of the list its List call answered was deleted, at some step of the reconcile after which it did not exist, and then the job |
| `AgentJobReconciler.AgentJobReconciler.DeletePods` | platform/k8s/reconcilers/agentjob_reconciler.go:152-156 | its loop does so in whatever order, or stops at the first failure |
| `AgentJobReconciler.Cluster.JobStarted` | platform/k8s/metrics/metrics.go:70-74 | the new value of each series; nothing else moves |
| `AgentJobReconciler.Cluster.JobFinished` | platform/k8s/metrics/metrics.go:78-89 | the new value of each series; nothing else moves |
| `TenantTheorems.FinalizerSafety` | platform/k8s/reconcilers/tenant_reconciler.go:50-143 | between any two API calls of any run, a gateway Secret, Deployment or Service exists only while its Tenant exists and carries the finalizer; once it is gone none is left |
| `TenantTheorems.SafeIffMonotone` | platform/k8s/reconcilers/tenant_reconciler.go:45-143 | every run is safe iff the cache does not go back, whether or not others tamper and the image is set |
| `TenantTheorems.GoingBackBreaksSafety` | platform/k8s/reconcilers/tenant_reconciler.go:45-64 | a cache that goes back to an older version recreates the Secret of a Tenant that is gone: a concrete run for every such configuration |
| `TenantTheorems.ReadyMeansProvisioned` | platform/k8s/reconcilers/tenant_reconciler.go:62-79 | a Ready Tenant that is not being deleted has its namespace, and all three gateway resources if it wants them |
| `TenantReady.HonestIff` | platform/k8s/reconcilers/tenant_reconciler.go:41-143 | that holds in every run iff nobody tampers with what was provisioned, and the cache does not go back or no gateway can be made for want of an image |
| `TenantTheorems.TokenIsKept` | platform/k8s/reconcilers/tenant_reconciler.go:135-183 | whatever the cache shows, no step rewrites an existing token, and the reconciler removes it only while finalizing a deleted version of the Tenant |
| `TenantTheorems.CleanRunConverges` | platform/k8s/reconcilers/tenant_reconciler.go:41-110 | after any run of any configuration one clean reconcile of a live Tenant adds what it wants and nothing else, keeps a token and marks it Ready, iff no Deployment has to be made without an image; of a deleted one it removes the gateway resources and our finalizer; if the cache never went back, the resources are then exactly the Tenant's, or none |
| `TenantReconciler.TenantReconciler.Reconcile` | platform/k8s/reconcilers/tenant_reconciler.go:41-81 | it reports an error iff its last call failed at the server or could not be gone on from (an outdated version, a Deployment to be made without an image, no namespace, something already there), no call before having failed; otherwise a live Tenant is stored with finalizer and Ready, a deleted one without our finalizer and with no gateway resource left; nothing is called for a Tenant that is gone or has lost the finalizer |
| `TenantReconciler.TenantReconciler.FinalizeTenant` | platform/k8s/reconcilers/tenant_reconciler.go:90-110 | without an error the finalizer is off and the namespace holds no gateway resource |
| `TenantReconciler.TenantReconciler.DeleteA2AGatewayResources` | platform/k8s/reconcilers/tenant_reconciler.go:116-143 | without an error Deployment, Service and Secret were deleted in this order, absent ones counting as deleted, and only the finalizer update is left to do; without a namespace nothing is called |
| `TenantReconciler.TenantReconciler.DeleteOne` | platform/k8s/reconcilers/tenant_reconciler.go:121-139 | one of the three: without an error it is gone |
| `TenantReconciler.TenantReconciler.ReconcileA2AGateway` | platform/k8s/reconcilers/tenant_reconciler.go:145-159 | without an error Secret, Deployment and Service have been there, in this order, during the call, and all of them are at its end unless others tamper; only Ready is left to write |
| `TenantReconciler.TenantReconciler.EnsureA2ASecret` | platform/k8s/reconcilers/tenant_reconciler.go:161-183 | without an error the Secret exists |
| `TenantReconciler.TenantReconciler.EnsureA2ADeployment` | platform/k8s/reconcilers/tenant_reconciler.go:185-225 | without an error the Deployment exists; without an image that takes a Get that found it |
| `TenantReconciler.TenantReconciler.EnsureA2AService` | platform/k8s/reconcilers/tenant_reconciler.go:227-251 | without an error the Service exists |
| `TenantReconciler.TenantReconciler.EnsureNamespace` | platform/k8s/reconcilers/tenant_reconciler.go:253-271 | without an error the namespace exists |
| `GuidCache.KeysInjective` | platform/cf/cache.go:42-48 | for colon-free org GUIDs a cache key determines what was looked up, orgs and spaces never meeting |
| `GuidCache.KeysMeetIff` | platform/cf/cache.go:46-48 | two different org GUIDs share a key for some space names iff one of them, followed by a colon, begins the other |
| `GuidCache.HitIff` | platform/cf/cache.go:26-40 | after any writes get answers a GUID iff the newest set of that key stored it at most ttl ago |
| `GuidCache.GuidCache.Get` | platform/cf/cache.go:26-34 | the object's answer in terms of the writes made so far, both ways |
| `GuidCache.GuidCache.Set` | platform/cf/cache.go:36-40 | the whole new map, and the write recorded |
| `CfTheorems.GuidsAreAnswers` | platform/cf/adapter.go:112-144 | under any interleaving and any changes of the directory, both GUIDs a call works with are answers the directory's maps gave, stored at most ttl before the call took them: in the dedicated tier for the tenant's own org and its space muto-agents, in the shared tier for the shared org and the tenant's own space |
| `CfTheorems.DirectIff` | platform/cf/adapter.go:112-144 | the uncached two-step lookup, on the directory's maps in either tier |
| `CfTheorems.AgreesWithDirect` | platform/cf/adapter.go:112-144 | as long as the directory's answers for its tenant do not change, the cached resolve equals the uncached two-step lookup, also in failing |
| `CfTheorems.ResolvesIff` | platform/cf/adapter.go:112-144 | as long as the directory's answers for its tenant do not change: a call gets a space iff the maps lead to one and no lookup of the call failed, and it is that one |
| `CfTheorems.AsksIff` | platform/cf/cache.go:26-40 | a call asks the API iff no call has stored an answer to that very question in the last ttl, and otherwise takes the newest one |
| `CfTheorems.TenantsApart` | platform/cf/adapter.go:112-144 | in both tiers calls that resolve to the same space are of the same tenant; in the shared tier org names and GUIDs need not be stable |
| `CfTheorems.ShareSpaceIff` | platform/cf/adapter.go:112-144 | with stable space GUIDs alone: calls that share a space have one org GUID and one space name, and if they do they share it as long as that space has not been given another GUID; so two tenants of the dedicated tier share a space iff their org names were answered with one GUID |
| `CfTheorems.RemadeSpaceParts` | platform/cf/adapter.go:134-141 | the condition on the space is needed: a concrete run in which a space is made anew |
| `CfTheorems.RunsOnItsOwnApp` | platform/cf/adapter.go:49-62 | space and runner name tell tenant and role: a task always runs on an app pushed for its own tenant and role |
| `CfTheorems.RunnerNamesCollide` | platform/cf/adapter.go:49 | the runner name alone does not tell tenants apart |
| `CfTheorems.RenamedOrgsMix` | platform/cf/adapter.go:122-131 | a renamed org in the dedicated tier: a concrete run in which two tenants share a space within the ttl although the directory keeps them apart |
| `CfAdapter.CFAdapter.ResolveSpaceGUID` | platform/cf/adapter.go:112-144 | the method follows the transition system under any interference; none means an unknown name, or a failed call if its last call failed; while the directory's answers for the tenant do not change it is the space the maps lead to, and none only if they lead nowhere or a lookup failed |
| `CfAdapter.CFAdapter.CachedLookup` | platform/cf/adapter.go:122-143 | one of its two lookups: from the cache, or from the API and then stored |
| `CfAdapter.CFAdapter.EnsureRunnerApp` | platform/cf/adapter.go:150-164 | an app of that name found in that space is taken and nothing is pushed; otherwise, whatever the error, one is pushed for this tenant and role, and none means that the push failed |
| `CfAdapter.CFAdapter.SpawnAgent` | platform/cf/adapter.go:38-63 | an app iff the call ran a task; otherwise its last call failed or a name was unknown; the task's app has the call's space and runner name; under the assumptions it was pushed for this tenant and role, and its space is the one the directory leads to |

## Left out

- Logging, tracing, environment, shutdown, OTLP export and the commands: wiring and pass-through wrappers.
- The MCP server and tools, AgentFleet counting, `tenant.Validate` and `TopicPrefix`: argument parsing or one branch each.
- The Kubernetes, Cloud Foundry, NATS, Kafka and A2A clients: only what their calls may answer and change is modelled.
- Pod and container contents, labels other than the job label, owner references, and how tokens are drawn: no bearing on the lifecycles.
- Graceful pod deletion and garbage collection: a delete takes effect at once.
- Histograms, `JobDuration`, `ReconciliationsTotal` and `ObserveReconcile`: they are only ever added to. The status label of JobsTotal is the phase, not its lower-case spelling.
- `Status`, the caller's pointer to a scheduled job, and reads of it outside the mutex: the record holds the job by value.
- `TerminateAgent` of the adapters and `isTerminalTaskError`: for the scheduler a termination succeeds or fails, and the text search in error messages decides only that.
- Several tenants in one namespace, changing specs, and reuse of a deleted job's name: outside the stated conditions.
- Restarts of the process, which reset the gauges.
- A failing or empty first Get of a job, and a failing one of a Tenant: the reconcile returns without having done anything.
- Scheduler.DefaultScheduler.WatchJob: runs for as many rounds as its script has, where a receive that finds nothing is a round of its own instead of a wait; that events arrive at all is not promised, as there is no fairness in the model (`ReportedJobsGetTheirVerdict` and `NothingDelaysTheVerdict` say that nothing keeps them from it).
- JobProgress.CleanReconcileDescends: gives one reconcile whose calls succeed; that the workqueue runs one eventually is not modelled, nor what an outdated list would make of it.
- JobTheorems.VerdictIsThePods: says nothing for pods removed from outside or outdated lists; `VerdictTrueIff` does, for the state the list shows, as nothing keeps a verdict true once pods are removed.
- AgentJobReconciler.AgentJobReconciler.ReconcileTerminal: works on unbounded times; that int64 agrees with them, and when, is in module `Ttl`.
- CfTheorems.GuidsAreAnswers: bounds the age of the stored answer, not the time between asking the directory and storing.
