/**
 The durable queue as a state machine. Any number of submitters, cancellers,
 reconcilers and detached workers act on shared records; drainers exclude one
 another through the queue lock. Each step is one critical section (or one
 unlocked read) of one actor, and a run interleaves them freely.

 Steps that the code performs only after checking something outside the lock
 (a reconciler's liveness probe, a worker's exit code) are enabled without that
 check, so the theorems cover more runs than the program has.
 */
module JobProtocol {
  import opened Wrappers
  import opened JobRecords

  type JobId = nat
  type WorkerId = nat

  // Where a detached worker stands in execute_job. Holding keeps the terminal
  // record it has read and will write back without taking the record lock.
  datatype Phase = Fresh | Waiting | Started | Invoked | Holding(copy: Record)

  datatype Worker = Worker(job: JobId, pid: int, reported: bool, claimedAt: Option<int>, phase: Phase)

  // The drainer that holds the queue lock.
  datatype Drainer =
    | NoDrainer
    | Scanning(todo: set<JobId>, copies: map<JobId, Record>, counted: set<JobId>)
    | Draining(capacity: int)
    | Starting(job: JobId, copy: Record, capacity: int)
    | Launched(job: JobId, worker: WorkerId, pid: Option<int>, capacity: int)

  // `begun` and `invoked` count, per job, how often a worker passed
  // queued -> waiting_for_memory and how often the integration was run;
  // `tornJobs` are the jobs that once had a torn snapshot entry (see Torn).
  datatype State = State(
    pool: nat,
    now: int,
    dead: set<int>,
    jobs: map<JobId, Record>,
    workers: map<WorkerId, Worker>,
    drainer: Drainer,
    tornJobs: set<JobId>,
    beginner: map<JobId, WorkerId>,
    begun: multiset<JobId>,
    invoked: multiset<JobId>)

  datatype Step =
    | Submit(j: JobId, dueAt: Option<int>)
    | Tick(d: nat)
    | ConfirmDead(pid: int)
    | Cancel(j: JobId)
    | MergeMetadata(j: JobId, metadata: Metadata)
    | Finish(j: JobId, expected: Status, to: Status)
    | Begin(w: WorkerId)
    | Retire(w: WorkerId)
    | Run(w: WorkerId)
    | Invoke(w: WorkerId)
    | Hold(w: WorkerId)
    | WriteBack(w: WorkerId)
    | Exit(w: WorkerId)
    | DrainBegin
    | ReadEntry(j: JobId)
    | EvaluateEntry(j: JobId)
    | ScanDone
    | StartRead(j: JobId)
    | SkipStart
    | Launch(w: WorkerId, pid: int, reported: bool)
    | LaunchFails
    | Claim
    | DrainEnd
    | DrainerDies

  function Init(pool: nat, now: int): State {
    State(pool, now, {}, map[], map[], NoDrainer, {}, map[], multiset{}, multiset{})
  }

  // ---- Steps -------------------------------------------------------------

  /** What the code itself guards. */
  predicate Enabled(s: State, step: Step) {
    match step
    case Submit(j, _) => j !in s.jobs
    case Tick(_) => true
    case ConfirmDead(_) => true
    case Cancel(j) => j in s.jobs
    case MergeMetadata(j, _) => j in s.jobs
    case Finish(j, expected, to) =>
      && j in s.jobs && (expected.WaitingForMemory? || expected.Running?) && (to.Complete? || to.Failed?)
    case Begin(w) => w in s.workers && s.workers[w].phase.Fresh? && s.workers[w].job in s.jobs
    case Retire(w) => w in s.workers && s.workers[w].phase.Fresh? && s.workers[w].job in s.jobs
    case Run(w) => w in s.workers && s.workers[w].phase.Waiting? && s.workers[w].job in s.jobs
    case Invoke(w) => w in s.workers && s.workers[w].phase.Started?
    case Hold(w) =>
      && w in s.workers && s.workers[w].phase.Invoked? && s.workers[w].job in s.jobs
      && (s.jobs[s.workers[w].job].status.Complete? || s.jobs[s.workers[w].job].status.Failed?)
    case WriteBack(w) => w in s.workers && s.workers[w].phase.Holding?
    case Exit(w) => w in s.workers
    case DrainBegin => s.drainer.NoDrainer?
    case ReadEntry(j) => s.drainer.Scanning? && j in s.drainer.todo && j in s.jobs
    case EvaluateEntry(j) => s.drainer.Scanning? && j in s.drainer.copies && j in s.jobs
    case ScanDone => s.drainer.Scanning? && s.drainer.todo == {} && s.drainer.copies == map[]
    case StartRead(j) => s.drainer.Draining? && s.drainer.capacity > 0 && j in s.jobs
    case SkipStart => s.drainer.Starting? && !IsLaunchable(s.drainer.copy, s.now, s.dead)
    case Launch(w, _, _) => s.drainer.Starting? && IsLaunchable(s.drainer.copy, s.now, s.dead) && w !in s.workers
    case LaunchFails =>
      s.drainer.Starting? && IsLaunchable(s.drainer.copy, s.now, s.dead) && s.drainer.job in s.jobs
    case Claim => s.drainer.Launched? && s.drainer.job in s.jobs
    case DrainEnd => s.drainer.Draining?
    case DrainerDies => !s.drainer.NoDrainer?
  }

  /** What the environment has to guarantee for the pool bound. A worker that
      reported no pid begins within the grace period or never; "confirmed
      absent" is only said of processes that are gone, and their pids are not
      handed out again while a queued record remembers them; no drainer dies
      between its launch and its claim. */
  predicate Assumed(s: State, step: Step) {
    match step
    case Begin(w) => w in s.workers ==> MayBegin(s, s.workers[w])
    case ConfirmDead(pid) => forall w :: w in s.workers ==> s.workers[w].pid != pid
    case Launch(_, pid, _) => !Remembered(s, pid)
    case DrainerDies => !s.drainer.Launched?
    case _ => true
  }

  /** A queued record still carries the pid of a worker that was confirmed absent. */
  predicate Remembered(s: State, pid: int) {
    pid in s.dead && exists j :: j in s.jobs && s.jobs[j].status.Queued? && s.jobs[j].workerPid == Some(pid)
  }

  predicate MayBegin(s: State, w: Worker) {
    w.reported || w.claimedAt.None? || s.now - w.claimedAt.value <= LAUNCH_GRACE_SECONDS
  }

  /** Write a record when the compare-and-set succeeded. */
  function Put(jobs: map<JobId, Record>, j: JobId, updated: Option<Record>): map<JobId, Record> {
    if updated.Some? then jobs[j := updated.value] else jobs
  }

  function WithPhase(s: State, w: WorkerId, phase: Phase): map<WorkerId, Worker>
    requires w in s.workers
  {
    s.workers[w := s.workers[w].(phase := phase)]
  }

  /** A snapshot entry is torn when its record was read before the worker began
      but judged afterwards, by the liveness or the age of the launch alone. */
  predicate Torn(copy: Record, current: Record, now: int, dead: set<int>) {
    && copy.status.Queued? && IsLaunched(copy) && LaunchAbandoned(copy, now, dead)
    && (current.status.WaitingForMemory? || current.status.Running?)
  }

  function Next(s: State, step: Step): State
    requires Enabled(s, step)
  {
    match step
    case Submit(j, dueAt) => s.(jobs := s.jobs[j := NewRecord(dueAt)])
    case Tick(d) => s.(now := s.now + d)
    case ConfirmDead(pid) => s.(dead := s.dead + {pid})
    case Cancel(j) => s.(jobs := Put(s.jobs, j, CancelledRecord(s.jobs[j])))
    case MergeMetadata(j, metadata) => s.(jobs := s.jobs[j := s.jobs[j].(metadata := metadata)])
    case Finish(j, expected, to) => s.(jobs := Put(s.jobs, j, Transitioned(s.jobs[j], expected, to, Keep)))
    case Begin(w) => BeginStep(s, w)
    case Retire(w) =>
      var j := s.workers[w].job;
      s.(jobs := Put(s.jobs, j, Transitioned(s.jobs[j], Queued, Failed, Keep)), workers := s.workers - {w})
    case Run(w) =>
      var j := s.workers[w].job;
      var updated := Transitioned(s.jobs[j], WaitingForMemory, Running, SetWorkerPid(s.workers[w].pid));
      s.(jobs := Put(s.jobs, j, updated),
         workers := if updated.Some? then WithPhase(s, w, Started) else s.workers - {w})
    case Invoke(w) =>
      s.(workers := WithPhase(s, w, Invoked), invoked := s.invoked + multiset{s.workers[w].job})
    case Hold(w) => s.(workers := WithPhase(s, w, Holding(s.jobs[s.workers[w].job])))
    case WriteBack(w) =>
      s.(jobs := s.jobs[s.workers[w].job := s.workers[w].phase.copy], workers := WithPhase(s, w, Invoked))
    case Exit(w) => s.(workers := s.workers - {w})
    case DrainBegin => s.(drainer := Scanning(s.jobs.Keys, map[], {}))
    case ReadEntry(j) =>
      s.(drainer := s.drainer.(todo := s.drainer.todo - {j}, copies := s.drainer.copies[j := s.jobs[j]]))
    case EvaluateEntry(j) => EvaluateStep(s, j)
    case ScanDone => s.(drainer := Draining(s.pool - |s.drainer.counted|))
    case StartRead(j) => s.(drainer := Starting(j, s.jobs[j], s.drainer.capacity))
    case SkipStart => s.(drainer := Draining(s.drainer.capacity))
    case Launch(w, pid, reported) => LaunchStep(s, w, pid, reported)
    case LaunchFails =>
      var j := s.drainer.job;
      s.(jobs := Put(s.jobs, j, Transitioned(s.jobs[j], Queued, Failed, Keep)),
         drainer := Draining(s.drainer.capacity))
    case Claim => ClaimStep(s)
    case DrainEnd => s.(drainer := NoDrainer)
    case DrainerDies => s.(drainer := NoDrainer)
  }

  function BeginStep(s: State, w: WorkerId): State
    requires Enabled(s, Begin(w))
  {
    var j := s.workers[w].job;
    var updated := Transitioned(s.jobs[j], Queued, WaitingForMemory, SetWorkerPid(s.workers[w].pid));
    if updated.Some? then
      s.(jobs := s.jobs[j := updated.value], workers := WithPhase(s, w, Waiting),
         beginner := s.beginner[j := w], begun := s.begun + multiset{j})
    else s.(workers := s.workers - {w})
  }

  function EvaluateStep(s: State, j: JobId): State
    requires Enabled(s, EvaluateEntry(j))
  {
    var copy := s.drainer.copies[j];
    var occupied := OccupiesSlot(copy, s.now, s.dead);
    var tear := Torn(copy, s.jobs[j], s.now, s.dead);
    s.(drainer := s.drainer.(copies := s.drainer.copies - {j},
                             counted := if occupied then s.drainer.counted + {j} else s.drainer.counted),
       tornJobs := if tear then s.tornJobs + {j} else s.tornJobs)
  }

  /** The operating system hands out `pid`, so it is alive again if it was not. */
  function LaunchStep(s: State, w: WorkerId, pid: int, reported: bool): State
    requires Enabled(s, Launch(w, pid, reported))
  {
    s.(dead := s.dead - {pid},
       workers := s.workers[w := Worker(s.drainer.job, pid, reported, None, Fresh)],
       drainer := Launched(s.drainer.job, w, if reported then Some(pid) else None, s.drainer.capacity))
  }

  function ClaimStep(s: State): State
    requires Enabled(s, Claim)
  {
    var d := s.drainer;
    s.(jobs := Put(s.jobs, d.job, ClaimedRecord(s.jobs[d.job], d.pid, s.now)),
       workers := if d.worker in s.workers
                  then s.workers[d.worker := s.workers[d.worker].(claimedAt := Some(s.now))] else s.workers,
       drainer := Draining(d.capacity - 1))
  }

  // ---- Runs --------------------------------------------------------------

  function Exec(s: State, steps: seq<Step>): State
    requires EnabledRun(s, steps)
    decreases |steps|
  {
    if steps == [] then s else Exec(Next(s, steps[0]), steps[1..])
  }

  predicate EnabledRun(s: State, steps: seq<Step>)
    decreases |steps|
  {
    steps == [] || (Enabled(s, steps[0]) && EnabledRun(Next(s, steps[0]), steps[1..]))
  }

  predicate AssumedRun(s: State, steps: seq<Step>)
    requires EnabledRun(s, steps)
    decreases |steps|
  {
    steps == [] || (Assumed(s, steps[0]) && AssumedRun(Next(s, steps[0]), steps[1..]))
  }

  ghost predicate Occupies(s: State, j: JobId) {
    j in s.jobs && OccupiesSlot(s.jobs[j], s.now, s.dead)
  }

  ghost function Occupied(s: State): set<JobId> {
    set j | j in s.jobs && Occupies(s, j)
  }
}
