# Flowgency: a verified model of its step-by-step protocols

Flowgency orchestrates agent jobs on one machine. Its guarantees live in a few protocols
that several processes, or several asynchronous callbacks, carry out step by step. This
project models eight of them in Dafny and proves what they keep, over every input, every run
and every interleaving.

| file | what it models |
|---|---|
| `JobRecords.dfy` | the durable job record, its status graph and the writes under its lock |
| `JobProtocol.dfy` | submitters, cancellers, drainers, workers and reconcilers as one state machine |
| `JobExecution.dfy`, `JobPool.dfy`, `JobPoolLimits.dfy` | single execution, status histories, the pool bound, and the runs that break it |
| `QueueDrain.dfy`, `JobActors.dfy` | a drainer, a worker and a reconciler as they run, with everyone else free to act in between |
| `Schedule.dfy`, `Dispatch.dfy`, `DispatchSafety.dfy`, `DispatchOutcomes.dfy`, `DispatchCycle.dfy` | occurrences, markers, passes of the dispatcher, lateness |
| `TeamLocks.dfy` | canonical team locks and the callers that wait for them |
| `InstanceMove.dfy`, `InstanceTransaction.dfy` | moving an agent instance, with rollback |
| `LiveRefresh.dfy`, `LiveRefreshSafety.dfy`, `LiveRefreshHandle.dfy` | the live-refresh coordinator |
| `TicketReservations.dfy` | recovery of a ticket run reservation |
| `Permissions.dfy` | rule merging, path lookup, launch zones |
| `GitStreams.dfy`, `SourceDigest.dfy` | NUL-delimited Git streams; the source digest's pre-image |
| `StopGate.dfy` | the registry of connected-process stops and its launch gate |
| `Sorting.dfy`, `Wrappers.dfy` | stable sorting; optional values |

The whole project is checked by `dafny verify dfyconfig.toml`.

## How the model is built

Code that acts on shared state is modelled twice. A state machine has one step per critical
section (or per unlocked read), and its theorems quantify over all runs. Classes with mutable
fields then carry out the same steps with the program's own loops and branches, and each method
is proved to perform exactly those steps; whatever happens outside its own critical sections is
an arbitrary run of everyone else. Where a method reads in one state and decides in another, a ghost
`trace` keeps every state of the run, and its contract names the states it read and judged in; a
second clause says what it comes to when nobody else acts. Main contracts also state their
result in the fields of the records read, without the functions the program's branches use. Times are whole microseconds (seconds for job launches).
Hashes and revisions are represented by what they are hashes of.

### What the environment has to guarantee

- Queue: the teams and the pool are fixed; a drainer does not die between a launch and its claim;
  a launcher that raises started nothing; a worker launched without a pid begins within
  `LAUNCH_GRACE_SECONDS` or never; a process that is confirmed absent is gone, and its pid is not
  handed out again while a queued record remembers it. The last is exactly what a launch needs in order
  to occupy no slot but its own (`JobPool.LaunchRevivesExactly`). Only the pool bound needs these (`JobProtocol.Assumed`); single execution and
  the status histories hold without any of them. That recoverable jobs never ran
  rests on who sets the mark "failed before its runtime" (`JobExecution.Marks`): a worker that did not
  run the integration and will not, as `JobActors.Actors.MarkUnrun` does.
- Dispatch: one pass runs at a time, the clock does not go back, the schedule is fixed, routine ids
  are not shared within an agent, and a refused submission made no record or one that failed without
  reaching a worker (`Dispatch.Honest`). Markers are per (agent, routine): the program joins the two
  names with a hyphen, which does not keep all pairs apart.
- Team locks: distinct canonical keys name distinct files, and resolving a path twice changes nothing.
- Live refresh: adapters are not re-entrant, change the view's target only through `apply`,
  `flushDeferred` and `invalidate`, and keep the contract stated in `LiveRefresh.AdapterOk`; a server
  answers 304 only to the ETag it was sent, and an ETag names one snapshot.
- Instance moves: nothing else changes the two agents' memories and prompts meanwhile (the program
  holds their locks); writing the configuration file takes effect or fails as a whole.

### What turned out not to hold

- The pool can be exceeded although every obligation is met: a drainer reads a record as launched,
  the worker begins and dies, and only then is the entry judged by its pid. The bound
  that does hold leaves such torn jobs aside: an exceeded pool always has a torn job that still holds
  its slot, and the bound is back once those have ended (`JobPool.PoolBound`,
  `JobPool.EvaluationMissesIffTorn`, `JobPoolLimits.TornEntryBreaksPool`). A pid handed out while a
  queued record remembers it as dead breaks the bound as well (`JobPool.LaunchRevivesExactly`,
  `JobPoolLimits.RecycledPidBreaksPool`).
- `_settle` reports a failed job as never started when `launched_at` is empty. A worker that outran its
  claim leaves it empty too, so its occurrence is submitted a second time
  (`DispatchOutcomes.RefusalIsSafeIffRecoverable`, `DispatchOutcomes.OutrunClaimRepeatsOccurrence`).
- With `catch_up: today` an occurrence just before midnight can be dropped, however young, and the
  routine reported overdue (`Schedule.TodayCanBeOverdue`). Every cycle leaves a routine caught up exactly
  when no cycle drops the occurrence it meets (`Schedule.CaughtUpIffNoneDropped`), which under `today`
  means that no midnight lies between the two (`Schedule.TodayDropsNothingIff`); a dropped occurrence
  leaves the marker where it was until the next one (`Schedule.DroppedIsOverdue`).
- A move that fails after copying prompts leaves the target's empty prompt directory behind, which
  blocks every retry (`InstanceTransaction.RetryIsBlockedIff`). A move of an agent with prompts that
  fails before copying them, or after taking the copies back itself, is reported as a failed prompt
  rollback although nothing is left to undo (`InstanceTransaction.FalseAlarmIff`,
  `InstanceTransaction.FalseAlarm`).
- A reconciliation's ticket operations are named by job and reason, and storage replays a name it has a
  receipt for. A pending run that has to be cleared a second time for the same reason stays
  (`TicketReservations.ReconciliationJustifiesIff`, `TicketReservations.SecondStaleTargetIsNotCleared`).
- Launch zones hold against every configured rule only while the launch directory's own name is not
  much shorter than its resolved name (`Permissions.ZonesHoldIff`).
- Keys that alias one file make a caller wait for a lock it holds (`TeamLocks.AliasWaitsForItself`).
- The launch gate does not wait for stops that begin after its wait, and for no others: what is
  undecided when the launch goes ahead began after it (`StopGate.GateIsClear`,
  `StopGate.LaterStopHoldsNothingUp`, `StopGate.LaterStopSlipsThrough`).

## Model

| member | source | states |
|---|---|---|
| JobRecords.JobFile.TransitionJob | flowgency/jobs/store.py:167-185 | compare-and-set along the status graph; anything else raises and writes nothing |
| JobRecords.JobFile.CancelJob | flowgency/jobs/store.py:188-197 | only queued and waiting jobs become cancelled |
| JobRecords.JobFile.ClaimJob | flowgency/jobs/store.py:252-270 | stamps pid and launch time of a queued job and leaves its status |
| JobRecords.QueuedHoldsOrWaits | flowgency/jobs/store.py:216-249 | a queued job either holds a slot or may be launched, never both; a launched one may be launched again exactly when its pid is confirmed absent or, without a pid, when its launch is older than the grace |
| JobRecords.TargetsAreEdges | flowgency/jobs/store.py:27-34 | which statuses may follow which, written out; exactly the terminal ones have no successor |
| JobExecution.SingleExecution | flowgency/jobs/execution.py:468-473 | in every run at most one worker takes a job out of the queue, so the integration runs at most once per record, relaunches included |
| JobExecution.StatusHistoryIsAPath | flowgency/jobs/store.py:27-34 | in every run each record's statuses start queued, follow the transition graph and never leave complete, failed or cancelled; every change is one of the listed edges |
| JobExecution.FailedUnlaunchedIsPermanent | flowgency/jobs/store.py:216-217 | a record that failed without a launch says so for ever, with its due date |
| JobExecution.RecoverableNeverRan | flowgency/jobs/execution.py:786-801 | in every run, a job whose record has no pid or is marked as failed before its runtime never had its integration run by any worker; so none the dispatcher takes for recoverable did |
| JobExecution.RecordMoves | flowgency/jobs/execution.py:717-732 | even the write-back of a record read without its lock only moves the record along the graph |
| JobPool.PoolBound | flowgency/jobs/queue.py:132-175 | in every run that meets the assumptions, the occupied slots of jobs that were never torn fit in the pool; an exceeded pool has a torn job that still holds its slot |
| JobPool.EvaluationMissesIffTorn | flowgency/jobs/queue.py:76-80 | a snapshot entry misses an occupied slot exactly when its record was read before the worker began and judged afterwards |
| JobPool.StepOccupancy | flowgency/jobs/store.py:236-249 | no step of anyone makes a job hold a slot that did not hold one, except the job a drainer has just launched |
| JobPool.LaunchKeepsCover | flowgency/jobs/queue.py:101-109 | a relaunch starts only when no earlier worker of the job can begin any more |
| JobPool.CopyStaysFaithful | flowgency/jobs/queue.py:96-102 | a drainer's copy of a record stays right about whether the job can be in a slot |
| JobPool.LaunchRevivesExactly | flowgency/jobs/store.py:220-223 | a launch occupies exactly the slots of the queued jobs that remember its pid as dead, and none when there is no such job |
| JobPoolLimits.TornEntryBreaksPool | flowgency/jobs/queue.py:75-80 | a run meeting every assumption in which a pool of one has two occupied slots, one of them torn |
| JobPoolLimits.RecycledPidBreaksPool | flowgency/jobs/store.py:220-223 | a pid that a queued record remembers as dead, handed to a new worker, overbooks the pool without a torn entry |
| QueueDrain.Queue.Drain | flowgency/jobs/queue.py:132-175 | on the actual run: the waiting list is exactly the entries launchable when judged, in order, the capacity is the pool minus the entries that held a slot when counted, the launches follow the order and are exactly the tried entries launchable when judged whose launcher returned, and it ends only with the capacity used up or every entry tried; left alone with a working launcher it launches exactly the first launchable jobs that fit, claims them and changes no other record; in the records' own fields: entries go by due or creation time and job id, and a queued job is left out exactly when its worker may still come |
| QueueDrain.Queue.StartWaiting | flowgency/jobs/queue.py:168-174 | the loop tries a prefix of the waiting entries, each judged in a state of the run, starts each exactly when it can be started, and stops at the capacity |
| QueueDrain.Queue.Start | flowgency/jobs/queue.py:94-129 | True exactly when the record just read was launchable in a later state of the run and the launcher returned there; a launch that failed has left the queue |
| QueueDrain.Queue.Snapshot | flowgency/jobs/queue.py:72-81 | the view: listed, read, judged and counted in states of the run; left alone it shows the store, all launchable jobs and the number of occupied slots |
| QueueDrain.Queue.WaitingEntries | flowgency/jobs/queue.py:68-79 | exactly the entries launchable in the state each is judged in, ordered by due or creation time and then job id, each once |
| QueueDrain.Queue.CountRunning | flowgency/jobs/queue.py:80-81 | exactly the number of entries whose copy held a slot in the state it was judged in |
| QueueDrain.Queue.ReadEntries | flowgency/jobs/queue.py:52-65 | every record of the listing is read once, each copy being the record in the state it was read in; left alone the copies are the store |
| QueueDrain.SucceededFollowOrder | flowgency/jobs/queue.py:168-174 | an attempted prefix of an ordered list passes over nobody: each entry not after a launched one was attempted |
| JobActors.Actors.ExecuteJob | flowgency/jobs/execution.py:449-810 | a worker that takes its job leaves the record terminal however it ends short of being killed, and runs the integration at most once; undisturbed it runs it and completes or fails the record by its exit; it marks the record as failed before its runtime only if it did not run it |
| JobActors.Actors.MarkUnrun | flowgency/jobs/execution.py:790-801 | a worker that did not get to its integration marks the failed record so, unless an authority error was the cause |
| JobActors.Actors.RetireJob | flowgency/jobs/execution.py:451-467 | an unsupported trigger fails a queued job without running it |
| JobActors.Actors.TerminalizeFailure | flowgency/jobs/execution.py:171-208 | afterwards the record is terminal, by this call or by whoever was faster |
| JobActors.Actors.Publish | flowgency/jobs/execution.py:695-717 | a publication that does not raise has completed the record |
| JobActors.OthersOnlyEndRecord | flowgency/jobs/store.py:167-197 | nobody but its worker moves an active record except to its end |
| JobActors.Actors.ReconcileJobs | flowgency/jobs/reconciliation.py:231-345 | a sweep reads every record once in a state of the run and fails exactly the active, unblocked ones whose pid is among the absent ones of a later state and whose status has not moved when it is written; the two counts are right; left alone, each active record asked for whose pid is absent is failed and every other record, those without a pid among them, is as before |
| Sorting.SortOrders | flowgency/jobs/queue.py:76-79 | sorting gives an ordered permutation |
| Sorting.OrderedIsUnique | flowgency/fs/snapshot.py:184 | without ties there is only one ordered arrangement |
| Schedule.LastAtIsNewest | flowgency/dispatch/schedule.py:78-87 | the newest daily occurrence is the one in the last 24 hours |
| Schedule.LastEveryIsGreatest | flowgency/dispatch/schedule.py:90-103 | it is the greatest anchor + k*period, k >= 1, not after now, and exists exactly when there is one |
| Schedule.NoDrift | flowgency/dispatch/schedule.py:90-103 | advancing through any intermediate times gives the same anchor as advancing once |
| Schedule.LateIffOwed | flowgency/health.py:184-212 | a routine is reported late exactly when the dispatcher finds an occurrence owed |
| Schedule.CycleCatchesUp | flowgency/dispatch/run.py:162-174 | when no cycle drops an occurrence, nothing is owed right after a cycle, and the marker is whole periods after the first cycle, under every bound |
| Schedule.NeverOverdue | flowgency/health.py:184-212 | with cycles at most an interval apart that all submit and drop nothing, no instant finds the routine overdue |
| Schedule.CaughtUpIffNoneDropped | flowgency/dispatch/run.py:162-174 | every cycle leaves the marker at the newest occurrence exactly when none drops the occurrence it is the first to meet |
| Schedule.DroppedIsOverdue | flowgency/dispatch/schedule.py:60-75 | a dropped occurrence leaves the marker where it was through all cycles before the next occurrence, and past the grace the routine is overdue |
| Schedule.TolerantDropsNothing | flowgency/dispatch/schedule.py:69-75 | with cycles at most an interval apart, no bound but `today` and durations below the interval drops anything |
| Schedule.TodayDropsNothingIff | flowgency/dispatch/schedule.py:71-72 | `today` drops nothing exactly when no midnight lies between a new occurrence and the cycle that first meets it |
| Schedule.TodayCanBeOverdue | flowgency/dispatch/schedule.py:71-72 | cycles under which the `today` bound drops an occurrence and leaves the routine overdue |
| Dispatch.LostOccurrences | flowgency/dispatch/run.py:88-118 | per routine the newest lost occurrence, kept exactly if it is later than every served one; in the records' fields: nothing is owed at or before an occurrence whose job was launched and is not marked as failed before its runtime with settled cleanup |
| Dispatch.LostIsOrderIndependent | flowgency/dispatch/run.py:102-118 | the records' order does not matter |
| Dispatch.DecisionIsOwed | flowgency/dispatch/run.py:135-175 | what a visit submits is exactly what the routine owes, by arithmetic on minutes, periods and the catch-up bound |
| DispatchSafety.ResubmissionIsSafe | flowgency/dispatch/run.py:230-279 | in every run of passes an occurrence is submitted only if every earlier record of it, when the pass read it, had failed and was never launched or was marked as failed before its runtime with settled cleanup |
| DispatchSafety.MarkersDoNotDrift | flowgency/dispatch/run.py:275-279 | in every run each `every` marker is a whole number of periods after the routine's first one |
| DispatchSafety.UnrunIsAnchor | flowgency/dispatch/run.py:29-40 | the second of slack never confuses two occurrences: a lost one within it of the marker is the marker |
| DispatchSafety.VisitIsSafe | flowgency/dispatch/run.py:239-259 | one visit offers an occurrence again only if it is the lost one |
| DispatchSafety.SubmissionFacts | flowgency/dispatch/run.py:135-175 | a submission moves an `every` marker forward by whole periods and hits the minute of an `at` rule |
| DispatchOutcomes.AtMostOneServed | flowgency/dispatch/run.py:68-118 | while recoverable failures stay what they are, of all records of one occurrence at most the newest has not failed before its runtime |
| DispatchOutcomes.RefusalIsSafeIffRecoverable | flowgency/jobs/submission.py:96-119 | the next pass submits a refused fresh occurrence again, `at` or `every`, safely exactly when the refused record has no worker pid or is a settled pre-runtime failure |
| DispatchOutcomes.OutrunClaimRepeatsOccurrence | flowgency/jobs/submission.py:109-119 | a run in which an occurrence that ran is submitted again |
| DispatchOutcomes.RunFollowsCycles | flowgency/dispatch/run.py:239-279 | over a run, a routine's marker is what its visits' times alone determine |
| DispatchOutcomes.RunIsNeverOverdue | flowgency/health.py:105-127 | in every run that visits the routine often enough, submits and drops nothing, it is never overdue, and due exactly when the occurrence function finds one owed |
| DispatchCycle.Dispatcher.RunPass | flowgency/dispatch/run.py:200-279 | a pass visits every routine once, in order, and is a run of the state machine from the first state on |
| DispatchCycle.Dispatcher.VisitRoutine | flowgency/dispatch/run.py:215-279 | one visit does exactly one step, and what it submits was owed |
| DispatchCycle.Dispatcher.Decide | flowgency/dispatch/run.py:217-259 | the branches decide what the specification says, and find an occurrence exactly when it is owed |
| DispatchCycle.Dispatcher.TeamLostOccurrences | flowgency/dispatch/run.py:121-132 | records are read one by one while they change, before any routine is visited |
| TeamLocks.CanonicalTeamOperationLockPaths | flowgency/jobs/store.py:49-56 | one path per distinct lock, in strictly increasing order of the lock table's own keys, covering every root |
| TeamLocks.NoWaitCycle | flowgency/fs/locks.py:27-38 | in every run callers never wait in a cycle of any length, a caller for itself included |
| TeamLocks.SomeoneCanGoOn | flowgency/fs/locks.py:69-97 | while anyone is inside, someone is not waiting |
| TeamLocks.LocksExclude | flowgency/jobs/store.py:59-67 | no two callers hold one team's lock at the same time |
| TeamLocks.AliasWaitsForItself | flowgency/fs/locks.py:27-28 | two keys for one file make a caller wait for a lock it holds |
| InstanceMove.MovedMeansTargetOnly | flowgency/instances.py:739-762 | after the patch the agent is in the target team only and every other entry keeps its place |
| InstanceMove.ResolveOwnedMemoryPairs | flowgency/instances.py:609-644 | exactly the memories the agent owns, each once, with the same memory of the target team |
| InstanceMove.PairsAreDisjoint | flowgency/instances.py:641-644 | no destination is used twice and no memory is both source and destination |
| InstanceMove.OwnedMemoriesAreSelected | flowgency/instances.py:647-666 | the memories that move are exactly the agent- and routine-scoped ones: the default and what each routine runs with |
| InstanceTransaction.Workspace.Move | flowgency/instances.py:230-402 | an objection changes nothing; otherwise the move is completed, or restored, or reports what its rollback left; without faults it completes, and if only its first memory write fails it restores everything and still reports a failed prompt rollback; it is refused exactly when the previewed world or the room in the target is gone; after a finished move each target memory holds its source's files in copy mode, if there were any, and one empty file otherwise |
| InstanceTransaction.Workspace.CheckMove | flowgency/instances.py:236-325 | the checks in the program's order, naming the first objection |
| InstanceTransaction.NoObjectionIff | flowgency/instances.py:236-325 | nothing is objected to exactly when everything previewed is unchanged and the target has room |
| InstanceTransaction.ObjectionIsTrue | flowgency/instances.py:236-325 | what each objection says is so |
| InstanceTransaction.Workspace.Transact | flowgency/instances.py:326-398 | whichever step fails, configuration, memories and prompt files are as before unless rollback itself fails; on success destinations equal sources or are one empty file |
| InstanceTransaction.Workspace.CreateTargets | flowgency/instances.py:327-343 | whatever fails, only memories in the created list differ |
| InstanceTransaction.Workspace.RollbackMemories | flowgency/instances.py:364-374 | everything created is gone unless it is reported |
| InstanceTransaction.Workspace.CopyRegistered | flowgency/prompts/store.py:262-308 | all prompts are copied, or the files written are undone, or the failed undo touches only the target |
| InstanceTransaction.Workspace.DeleteRegistered | flowgency/prompts/store.py:310-343 | all registered prompts or none are checked before the first is deleted; the directory stays |
| InstanceTransaction.Workspace.PatchConfig | flowgency/instances.py:739-762 | the two lists are edited as one change or not at all |
| InstanceTransaction.RetryIsBlockedIff | flowgency/instances.py:717-723 | a failed and restored move can be repeated exactly when the agent has no prompts |
| InstanceTransaction.FalseAlarmIff | flowgency/instances.py:375-386 | a fully restored workspace is reported as a failed prompt rollback exactly when the agent has prompts and none was copied or all copies were taken back already |
| InstanceTransaction.FalseAlarm | flowgency/instances.py:375-386 | a move whose first write fails, and nothing else, ends that way |
| LiveRefreshSafety.ApplicationsAreFresh | tools/live-refresh.js:165-207 | in every run applied snapshots come from strictly increasing reads, none requested before an action or rebinding that preceded its application |
| LiveRefreshSafety.NotModifiedIsTrue | tools/live-refresh.js:203-206 | a 304 reported healthy means the view shows what the server has |
| LiveRefreshSafety.RetainedEtagNamesTarget | tools/live-refresh.js:253-279 | a retained ETag names the view's current target |
| LiveRefreshSafety.PollingGoesOn | tools/live-refresh.js:155-170 | while live, visible and idle, a timer is set or the current read is unfinished, and there is at most one timer; otherwise no timer is set |
| LiveRefreshSafety.EtagStaysTrueIff | tools/live-refresh.js:262-279 | what an adapter may report without leaving an ETag that names another snapshot |
| LiveRefreshSafety.AcceptedIsShown | tools/live-refresh.js:253-279 | an accepted snapshot of a current read is shown, reported healthy, and its ETag retained |
| LiveRefreshSafety.DisturbedIsIgnored | tools/live-refresh.js:179-187 | a read that was overtaken or cut off changes neither view, ETag nor status |
| LiveRefreshSafety.AnswersAreTold | tools/live-refresh.js:203-214 | an answer without a body is reported as what it is and leaves the view alone |
| LiveRefreshHandle.Coordinator.BeginRead | tools/live-refresh.js:165-177 | a read is refused while disposed, hidden or paused; otherwise it replaces timer and active read |
| LiveRefreshHandle.Coordinator.Answer | tools/live-refresh.js:189-214 | resuming after the fetch is one step and keeps the invariant |
| LiveRefreshHandle.Coordinator.AnswerBody | tools/live-refresh.js:216-299 | resuming with the body is one step and keeps the invariant |
| LiveRefreshHandle.Coordinator.HandleResult | tools/live-refresh.js:253-279 | what apply() reports decides ETag, status and application |
| LiveRefreshHandle.Coordinator.Settle | tools/live-refresh.js:286-299 | only the current read schedules the next one |
| LiveRefreshHandle.Coordinator.Rebind | tools/live-refresh.js:307-319 | a rebinding outdates reads in flight, drops the ETag and reads again |
| LiveRefreshHandle.Coordinator.OpenAction | tools/live-refresh.js:320-326 | an action pauses polling and outdates reads in flight |
| LiveRefreshHandle.Coordinator.CloseAction | tools/live-refresh.js:327-334 | the last action to finish reads again, and finishing twice does nothing |
| LiveRefreshHandle.Coordinator.Flush | tools/live-refresh.js:335-342 | a dropped region clears the ETag and reads again |
| TicketReservations.ReconcilingTwiceIsOnce | flowgency/jobs/tickets.py:136-161 | a second reconciliation leaves ticket and job as the first did; only the standing may turn from stale to linked |
| TicketReservations.ReconciliationJustifiesIff | flowgency/jobs/tickets.py:355-488 | afterwards a pending run of the job stands for a job made for the reservation, live while assignment and binding are as they were or ended and not clearable, exactly when no spent receipt or failed verification blocks the clearing, all by the fields of ticket, job and binding |
| TicketReservations.RetryRecovers | flowgency/jobs/tickets.py:374-486 | the same holds after a reconciliation that failed anywhere and is repeated |
| TicketReservations.StandingTells | flowgency/jobs/tickets.py:374-486 | retryable means the job is missing, linked that it has ended or is on target, stale that it lives and is not; a job not made for the reservation changes nothing; a missing pending run is written anew |
| TicketReservations.SecondStaleTargetIsNotCleared | flowgency/tickets/storages/local.py:522-527 | a running job whose binding changes twice keeps a pending run on a stale target |
| TicketReservations.ReconciliationKeepsMoved | flowgency/jobs/tickets.py:437-438 | a job cleared for a stale target was cancelled first unless it ran already |
| TicketReservations.Coordinator.ReconcilePending | flowgency/jobs/tickets.py:355-488 | the branches do what the specification says, whichever storage call fails |
| TicketReservations.Coordinator.Apply | flowgency/tickets/storages/local.py:506-536 | an operation with a receipt is not applied again |
| Permissions.ToolsFor | flowgency/integrations/models.py:39-52 | the first of the longest rules the target lies under decides; with none, every tool when unrestricted and no tool when restricted |
| Permissions.BestIsLongest | flowgency/integrations/models.py:43-49 | no covering rule has a longer path |
| Permissions.MergeRules | flowgency/configuration/effective.py:62-90 | one merged rule per path granting the union of its configured rules |
| Permissions.MergedToolsMeaning | flowgency/configuration/effective.py:62-90 | lookup in the merged rules is the union at the longest covering configured path, else every tool or none by mode |
| Permissions.MergeIgnoresOrder | flowgency/configuration/effective.py:71-88 | the order of team and agent rules does not matter |
| Permissions.GrantAtMembers | flowgency/configuration/effective.py:81-85 | an unbounded rule absorbs, otherwise exactly the named tools are granted |
| Permissions.RelativeIsBelowWorkspace | flowgency/configuration/effective.py:55-59 | a relative rule path is the same path below the workspace |
| Permissions.ZonesHoldIff | flowgency/integrations/models.py:110-118 | every path in a zone gets exactly the zone's tools under every policy, exactly when the launch directory's name is long enough for its resolved name |
| Permissions.ThreeZones | flowgency/permissions/zones.py:14-37 | the zones and their tools: instructions can be read, outbox and memory also written |
| Permissions.ZoneRuleWins | flowgency/permissions/zones.py:19-37 | inside a zone its own rule wins over every configured rule |
| Permissions.MergedRulesResolved | flowgency/configuration/effective.py:55-59 | merged rules name resolved paths, which the zones' guarantee rests on |
| Permissions.GrantsOutsideUnchanged | flowgency/integrations/models.py:113-118 | grants outside the launch directory are unchanged |
| Permissions.LaunchZonesIdempotent | flowgency/integrations/models.py:113-118 | generating the zones twice is generating them once |
| Permissions.UnscopedIffUniform | flowgency/integrations/models.py:55-85 | no tool is scoped exactly when all authored rules with a path grant alike |
| Permissions.ScopedToolMeans | flowgency/integrations/models.py:55-85 | a tool is scoped exactly when one authored rule names it and another grants everything or not it |
| Permissions.ZonesAreNotScoped | flowgency/integrations/models.py:67-71 | generated zones never make a tool scoped |
| GitStreams.ParseRaw | flowgency/git_evidence/capture.py:109-149 | the index-driven loop returns the records the stream denotes, or the error |
| GitStreams.ParseNumstat | flowgency/git_evidence/capture.py:152-175 | the loop returns one pair of counts per record, or the error |
| GitStreams.RawRoundTrip | flowgency/git_evidence/capture.py:109-149 | parsing the printed raw stream returns exactly the printed records, renames and odd paths included |
| GitStreams.NumstatRoundTrip | flowgency/git_evidence/capture.py:152-175 | parsing the printed numstat stream returns exactly the printed counts in order |
| GitStreams.CaptureChanges | flowgency/git_evidence/capture.py:300-322 | both streams of one diff parsed together give back its changes |
| GitStreams.RawBytes | flowgency/git_evidence/capture.py:109-149 | the raw stream byte by byte, for each kind of change |
| GitStreams.NumstatBytes | flowgency/git_evidence/capture.py:152-175 | the numstat stream byte by byte |
| SourceDigest.ComputeSourceDigest | flowgency/fs/snapshot.py:182-190 | what is fed to the digest, piece by piece, is the pre-image |
| SourceDigest.PreImageIgnoresOrder | flowgency/fs/snapshot.py:184 | files in any order give the same pre-image |
| SourceDigest.PreImageLayout | flowgency/fs/snapshot.py:182-190 | files go in by ascending path, each part behind eight bytes that read, most significant first, as its length |
| SourceDigest.PreImageNamesTheFiles | flowgency/fs/snapshot.py:182-190 | file sets with distinct paths and lengths below 2^64 share a pre-image exactly when they are equal |
| SourceDigest.FindFile | flowgency/fs/snapshot.py:37-42 | the file of that path, and KeyError exactly when there is none |
| StopGate.ListAndCounterAreExact | flowgency/jobs/connected_process.py:177-196 | in every interleaving a process is listed exactly when its last completed stop was unconfirmed, and the counter counts the stops in flight |
| StopGate.ConfirmedIsPermanent | flowgency/jobs/connected_process.py:271-291 | a confirmed stop is never revoked |
| StopGate.GateIsClear | flowgency/jobs/connected_process.py:149-165 | a launch passes only when every stop that began before its wait was over is over itself, what is undecided began after it, and no last completed stop is unconfirmed |
| StopGate.WaitSettles | flowgency/jobs/connected_process.py:149-155 | whatever began before the wait was over is over then and in every continuation |
| StopGate.LaterStopHoldsNothingUp | flowgency/jobs/connected_process.py:150-160 | any stop that can begin once the wait is over leaves the launch free to pass |
| StopGate.LaterStopSlipsThrough | flowgency/jobs/connected_process.py:150-160 | a stop that begins after the wait may be undecided when the launch passes |
| StopGate.TrackedMembers | flowgency/jobs/connected_process.py:177-183 | recording an outcome decides about that process and no other |
| StopGate.OwnedTerminal.StopTree | flowgency/jobs/connected_process.py:271-291 | the counter is restored, a confirmed stop is remembered, an exception records nothing |

## Left out

- Reading: malformed job records, unparsable launch times and unreadable configuration are skipped by the program with a warning; the model has only records that parse.
- Parsing of `every`, `at` and `catch_up` texts: rules enter the model parsed, with a case for texts that do not parse.
- Times: float round trips of marker files, local time zones and daylight saving, and the string comparison of due dates in the waiting order.
- Windows path case in permission rules and locks: paths compare as resolved sequences of parts, and lock keys as the result of an arbitrary `normcase`.
- `exclusive_lock` as a polling loop: it has no bound on its iterations, so its attempts are steps of the lock state machine.
- `revision_bound_team_operation` and the retry loop of `submit_job_request`: what they bind to is checked once more under the lock; a submission is one step.
- Crashes of the dispatcher between a submission and its marker, and of a drainer between a launch and its claim.
- DispatchOutcomes.AtMostOneServed: needs that a recoverable failure is never withdrawn, because a later ticket cleanup could in principle replace settled metadata.
- DispatchSafety.ResubmissionIsSafe: speaks of each record as its pass read it, because a launched record's metadata may still change afterwards.
- JobActors.Actors.ExecuteJob: memory staging, ticket brokers, logs and changed files are operations that may raise; publication completes the record or raises.
- JobActors.Actors.ReconcileJobs: pin release, memory recovery and ticket cleanup; the sweep's own cleanup metadata is a metadata write of the state machine, so the clause for a sweep left alone is without it.
- QueueDrain.Queue.Drain: the reconciliation before the snapshot is part of what others do in between, and proved by itself as `JobActors.Actors.ReconcileJobs`.
- InstanceTransaction.Workspace.Move: memory pairs are created in order of first mention where the program orders them by hash; active jobs are given, not computed.
- TicketReservations.ReconcilingTwiceIsOnce: one reservation with one ticket; several reservations of one ticket, `_reserve` and `cleanup` are not modelled.
- LiveRefresh: capture(), isCurrent(), validate() and body parsing appear as the outcomes they lead to; DOM reconciliation is not modelled.
- GitStreams.ParseRaw: modes and object ids stay bytes; decoding them as ASCII and authorizing paths comes later in the program.
- SourceDigest.ComputeSourceDigest: scanning the tree, SHA-256 itself and UTF-8 encoding (any injective encoding of paths).
- StopGate.OwnedTerminal.StopTree: terminating a tree, draining and releasing its terminal is one outcome; read and write bookkeeping of the terminal is not modelled.
- `schedule_lateness`, `_at_lateness`, `next_occurrence` and the health colours: each is settled by reading one branch.
- Configuration validation, web routes, the command line and the setup terminal.
