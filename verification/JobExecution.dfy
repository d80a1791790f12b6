/**
 What every interleaving keeps, with no assumption about the environment: a job
 is executed at most once however many workers are launched for it, and every
 record's status walks the transition graph even though a worker writes its
 terminal record back without taking the record lock.
 */
module JobExecution {
  import opened Wrappers
  import opened JobRecords
  import opened JobProtocol

  ghost predicate SameLaunch(a: Record, b: Record) {
    a.workerPid == b.workerPid && a.launchedAt == b.launchedAt && a.dueAt == b.dueAt
  }

  ghost predicate WorkerOk(s: State, w: WorkerId)
    requires w in s.workers
  {
    var k := s.workers[w];
    && k.job in s.jobs
    && (!k.phase.Fresh? ==> k.job in s.beginner && s.beginner[k.job] == w)
    && (k.phase.Waiting? || k.phase.Started? ==> s.invoked[k.job] == 0)
    && (k.phase.Holding? ==>
          && Terminal(k.phase.copy.status)
          && s.jobs[k.job].status == k.phase.copy.status
          && SameLaunch(s.jobs[k.job], k.phase.copy))
  }

  ghost predicate JobOk(s: State, j: JobId) {
    && (j in s.beginner ==> j in s.jobs && !s.jobs[j].status.Queued?)
    && s.begun[j] == (if j in s.beginner then 1 else 0)
    && s.invoked[j] <= s.begun[j]
  }

  ghost predicate ExecInv(s: State) {
    && (forall w :: w in s.workers ==> WorkerOk(s, w))
    && (forall j :: JobOk(s, j))
    && (s.drainer.Starting? || s.drainer.Launched? ==> s.drainer.job in s.jobs)
  }

  /** One step moves a record along the graph or leaves its status alone. */
  ghost predicate Moves(before: Record, after: Record) {
    && (after.status == before.status || after.status in ValidTargets(before.status))
    && (Terminal(before.status) ==> SameLaunch(before, after))
  }

  lemma RecordMoves(s: State, step: Step, j: JobId)
    requires ExecInv(s) && Enabled(s, step) && j in s.jobs
    ensures j in Next(s, step).jobs && Moves(s.jobs[j], Next(s, step).jobs[j])
  {
    if step.WriteBack? {
      assert WorkerOk(s, step.w);
    }
  }

  lemma StepKeepsRecords(s: State, step: Step)
    requires ExecInv(s) && Enabled(s, step)
    ensures forall j :: j in s.jobs ==> j in Next(s, step).jobs && Moves(s.jobs[j], Next(s, step).jobs[j])
  {
    forall j | j in s.jobs
      ensures j in Next(s, step).jobs && Moves(s.jobs[j], Next(s, step).jobs[j])
    {
      RecordMoves(s, step, j);
    }
  }

  /** Only the worker that takes a job out of the queue becomes its beginner. */
  lemma BeginnerKept(s: State, step: Step, w: WorkerId)
    requires ExecInv(s) && Enabled(s, step) && w in s.workers && !s.workers[w].phase.Fresh?
    ensures var j := s.workers[w].job; j in Next(s, step).beginner && Next(s, step).beginner[j] == w
  {
    assert WorkerOk(s, w) && JobOk(s, s.workers[w].job);
  }

  /** Only the beginner of a job can run the integration for it. */
  lemma NotInvokedKept(s: State, step: Step, w: WorkerId)
    requires ExecInv(s) && Enabled(s, step) && w in s.workers && w in Next(s, step).workers
    requires s.workers[w].phase.Waiting? || s.workers[w].phase.Started?
    requires Next(s, step).workers[w].phase == s.workers[w].phase
    ensures Next(s, step).invoked[s.workers[w].job] == 0
  {
    assert WorkerOk(s, w);
    if step.Invoke? {
      assert WorkerOk(s, step.w);
    } else {
      OnlyInvokeInvokes(s, step);
    }
  }

  lemma OnlyInvokeInvokes(s: State, step: Step)
    requires Enabled(s, step) && !step.Invoke?
    ensures Next(s, step).invoked == s.invoked
  {
  }

  lemma JobOfWorkerKept(s: State, step: Step, w: WorkerId)
    requires Enabled(s, step) && w in s.workers && w in Next(s, step).workers
    ensures Next(s, step).workers[w].job == s.workers[w].job
  {
  }

  /** A step that does not act on worker `w` leaves it as good as it was. */
  lemma OtherWorkerKept(s: State, step: Step, w: WorkerId)
    requires ExecInv(s) && Enabled(s, step)
    requires w in s.workers && w in Next(s, step).workers
    requires Next(s, step).workers[w].phase == s.workers[w].phase
    ensures WorkerOk(Next(s, step), w)
  {
    var k := s.workers[w];
    assert WorkerOk(s, w);
    StepKeepsRecords(s, step);
    JobOfWorkerKept(s, step, w);
    hide Next;
    assert Moves(s.jobs[k.job], Next(s, step).jobs[k.job]);
    if !k.phase.Fresh? {
      BeginnerKept(s, step, w);
    }
    if k.phase.Waiting? || k.phase.Started? {
      NotInvokedKept(s, step, w);
    }
  }

  lemma StepKeepsWorkers(s: State, step: Step)
    requires ExecInv(s) && Enabled(s, step)
    ensures forall w :: w in Next(s, step).workers ==> WorkerOk(Next(s, step), w)
  {
    var t := Next(s, step);
    forall w | w in t.workers
      ensures WorkerOk(t, w)
    {
      if w in s.workers && t.workers[w].phase == s.workers[w].phase {
        OtherWorkerKept(s, step, w);
      } else if w in s.workers {
        assert WorkerOk(s, w) && JobOk(s, s.workers[w].job);
      }
    }
  }

  lemma StepKeepsJobs(s: State, step: Step)
    requires ExecInv(s) && Enabled(s, step)
    ensures forall j :: JobOk(Next(s, step), j)
  {
    var t := Next(s, step);
    StepKeepsRecords(s, step);
    forall j
      ensures JobOk(t, j)
    {
      assert JobOk(s, j);
      match step
      case Begin(v) => assert WorkerOk(s, v) && JobOk(s, s.workers[v].job);
      case Invoke(v) => assert WorkerOk(s, v) && JobOk(s, s.workers[v].job);
      case _ =>
    }
  }

  lemma StepKeepsInv(s: State, step: Step)
    requires ExecInv(s) && Enabled(s, step)
    ensures ExecInv(Next(s, step))
  {
    StepKeepsWorkers(s, step);
    StepKeepsJobs(s, step);
    StepKeepsRecords(s, step);
  }

  lemma {:induction false} RunKeepsInv(s: State, steps: seq<Step>)
    requires ExecInv(s) && EnabledRun(s, steps)
    ensures ExecInv(Exec(s, steps))
    decreases |steps|
  {
    if steps != [] {
      StepKeepsInv(s, steps[0]);
      RunKeepsInv(Next(s, steps[0]), steps[1..]);
    }
  }

  /** At most one worker ever leaves `queued`, so the integration runs at most
      once per record: relaunches after an abandoned launch included. */
  lemma SingleExecution(pool: nat, now: int, steps: seq<Step>, j: JobId)
    requires EnabledRun(Init(pool, now), steps)
    ensures Exec(Init(pool, now), steps).begun[j] <= 1
    ensures Exec(Init(pool, now), steps).invoked[j] <= Exec(Init(pool, now), steps).begun[j]
  {
    RunKeepsInv(Init(pool, now), steps);
    assert JobOk(Exec(Init(pool, now), steps), j);
  }

  // ---- Status histories --------------------------------------------------

  /** The statuses one record shows at every point of a run. */
  ghost function History(s: State, steps: seq<Step>, j: JobId): seq<Status>
    requires EnabledRun(s, steps)
    decreases |steps|
  {
    (if j in s.jobs then [s.jobs[j].status] else [])
    + (if steps == [] then [] else History(Next(s, steps[0]), steps[1..], j))
  }

  ghost predicate IsPath(h: seq<Status>) {
    forall i :: 0 <= i < |h| - 1 ==> h[i + 1] == h[i] || h[i + 1] in ValidTargets(h[i])
  }

  lemma PathContinues(before: seq<Status>, rest: seq<Status>)
    requires |before| <= 1 && IsPath(rest)
    requires before != [] && rest != [] ==> rest[0] == before[0] || rest[0] in ValidTargets(before[0])
    ensures IsPath(before + rest)
  {
    var h := before + rest;
    forall i | 0 <= i < |h| - 1
      ensures h[i + 1] == h[i] || h[i + 1] in ValidTargets(h[i])
    {
      if i >= |before| {
        assert h[i] == rest[i - |before|] && h[i + 1] == rest[i - |before| + 1];
      }
    }
  }

  /** Only a submission makes a record. */
  lemma NewRecordIsQueued(s: State, step: Step, j: JobId)
    requires ExecInv(s) && Enabled(s, step) && j !in s.jobs && j in Next(s, step).jobs
    ensures Next(s, step).jobs[j].status.Queued? && !IsLaunched(Next(s, step).jobs[j])
  {
    forall w | w in s.workers
      ensures s.workers[w].job in s.jobs
    {
      assert WorkerOk(s, w);
    }
  }

  lemma {:induction false} HistoryFrom(s: State, steps: seq<Step>, j: JobId)
    requires ExecInv(s) && EnabledRun(s, steps)
    ensures IsPath(History(s, steps, j))
    ensures j in s.jobs ==> |History(s, steps, j)| > 0 && History(s, steps, j)[0] == s.jobs[j].status
    ensures j !in s.jobs && History(s, steps, j) != [] ==> History(s, steps, j)[0].Queued?
    decreases |steps|
  {
    if steps != [] {
      StepKeepsInv(s, steps[0]);
      StepKeepsRecords(s, steps[0]);
      if j !in s.jobs && j in Next(s, steps[0]).jobs {
        NewRecordIsQueued(s, steps[0], j);
      }
      hide Next;
      HistoryFrom(Next(s, steps[0]), steps[1..], j);
      assert j in s.jobs ==> Moves(s.jobs[j], Next(s, steps[0]).jobs[j]);
      PathContinues(if j in s.jobs then [s.jobs[j].status] else [], History(Next(s, steps[0]), steps[1..], j));
    }
  }

  lemma {:induction false} TerminalStays(h: seq<Status>, i: nat, k: nat)
    requires IsPath(h) && i <= k < |h| && Terminal(h[i])
    ensures h[k] == h[i]
    decreases k
  {
    if i < k {
      TerminalStays(h, i, k - 1);
      assert h[k - 1 + 1] == h[k - 1] || h[k - 1 + 1] in ValidTargets(h[k - 1]);
    }
  }

  lemma PathTakesEdges(h: seq<Status>, i: nat)
    requires IsPath(h) && i + 1 < |h|
    ensures h[i + 1] == h[i] || Edge(h[i], h[i + 1])
  {
    TargetsAreEdges(h[i], h[i + 1]);
  }

  /** Every record starts queued, follows the transition graph, and never leaves
      complete, failed or cancelled, under all writers. */
  lemma StatusHistoryIsAPath(pool: nat, now: int, steps: seq<Step>, j: JobId)
    requires EnabledRun(Init(pool, now), steps)
    ensures var h := History(Init(pool, now), steps, j);
            && IsPath(h)
            && (h != [] ==> h[0].Queued?)
            && (forall i :: 0 <= i < |h| - 1 ==> h[i + 1] == h[i] || Edge(h[i], h[i + 1]))
            && (forall i, k :: 0 <= i <= k < |h| && Terminal(h[i]) ==> h[k] == h[i])
  {
    var h := History(Init(pool, now), steps, j);
    HistoryFrom(Init(pool, now), steps, j);
    forall i | 0 <= i < |h| - 1
      ensures h[i + 1] == h[i] || Edge(h[i], h[i + 1])
    {
      PathTakesEdges(h, i);
    }
    forall i, k | 0 <= i <= k < |h| && Terminal(h[i])
      ensures h[k] == h[i]
    {
      TerminalStays(h, i, k);
    }
  }

  /** A record that failed without a launch keeps saying so: what the dispatcher
      concludes from it is never revised. */
  lemma {:induction false} FailedUnlaunchedIsPermanent(s: State, steps: seq<Step>, j: JobId)
    requires ExecInv(s) && EnabledRun(s, steps)
    requires j in s.jobs && s.jobs[j].status.Failed? && !IsLaunched(s.jobs[j])
    ensures j in Exec(s, steps).jobs
    ensures var r := Exec(s, steps).jobs[j]; r.status.Failed? && !IsLaunched(r) && r.dueAt == s.jobs[j].dueAt
    decreases |steps|
  {
    if steps != [] {
      StepKeepsInv(s, steps[0]);
      StepKeepsRecords(s, steps[0]);
      FailedUnlaunchedIsPermanent(Next(s, steps[0]), steps[1..], j);
    }
  }

  // ---- Jobs that never ran -----------------------------------------------

  /** The mark that a job failed before its runtime is set on failed jobs whose
      integration was not run, and a worker that set it does not run it any more. */
  predicate Marks(s: State, step: Step)
    requires Enabled(s, step)
  {
    match step
    case MergeMetadata(j, metadata) =>
      metadata.failedBeforeRuntime ==> s.jobs[j].metadata.failedBeforeRuntime || s.invoked[j] == 0
    case Invoke(w) =>
      s.workers[w].job in s.jobs ==> !s.jobs[s.workers[w].job].metadata.failedBeforeRuntime
    case _ => true
  }

  predicate MarkedRun(s: State, steps: seq<Step>)
    requires EnabledRun(s, steps)
    decreases |steps|
  {
    steps == [] || (Marks(s, steps[0]) && MarkedRun(Next(s, steps[0]), steps[1..]))
  }

  ghost predicate JobUnrun(s: State, j: JobId) {
    j in s.jobs ==>
      && (j in s.beginner ==> s.jobs[j].workerPid.Some?)
      && (s.jobs[j].metadata.failedBeforeRuntime ==> s.invoked[j] == 0)
  }

  /** A worker past its integration has run it, and holds no mark to the contrary. */
  ghost predicate WorkerRan(s: State, w: WorkerId)
    requires w in s.workers
  {
    var k := s.workers[w];
    && (k.phase.Invoked? || k.phase.Holding? ==> s.invoked[k.job] > 0)
    && (k.phase.Holding? ==> !k.phase.copy.metadata.failedBeforeRuntime)
  }

  ghost predicate UnrunInv(s: State) {
    && ExecInv(s) && (forall j :: JobUnrun(s, j)) && (forall w :: w in s.workers ==> WorkerRan(s, w))
  }

  lemma StepKeepsUnrun(s: State, step: Step)
    requires UnrunInv(s) && Enabled(s, step) && Marks(s, step)
    ensures UnrunInv(Next(s, step))
  {
    StepKeepsInv(s, step);
    forall j
      ensures JobUnrun(Next(s, step), j)
    {
      JobStaysUnrun(s, step, j);
    }
    forall w | w in Next(s, step).workers
      ensures WorkerRan(Next(s, step), w)
    {
      WorkerStaysRan(s, step, w);
    }
  }

  lemma JobStaysUnrun(s: State, step: Step, j: JobId)
    requires UnrunInv(s) && Enabled(s, step) && Marks(s, step)
    ensures JobUnrun(Next(s, step), j)
  {
    assert JobUnrun(s, j) && JobOk(s, j);
    if step.WriteBack? {
      WriteBackStaysUnrun(s, step.w, j);
    } else if step.Begin? || step.Claim? {
      PidStaysSet(s, step, j);
    } else {
      OthersStayUnrun(s, step, j);
    }
  }

  lemma WriteBackStaysUnrun(s: State, w: WorkerId, j: JobId)
    requires UnrunInv(s) && Enabled(s, WriteBack(w))
    ensures JobUnrun(Next(s, WriteBack(w)), j)
  {
    assert JobUnrun(s, j) && WorkerOk(s, w) && WorkerRan(s, w);
  }

  lemma PidStaysSet(s: State, step: Step, j: JobId)
    requires UnrunInv(s) && Enabled(s, step) && (step.Begin? || step.Claim?)
    ensures JobUnrun(Next(s, step), j)
  {
    assert JobUnrun(s, j) && JobOk(s, j);
  }

  lemma OthersStayUnrun(s: State, step: Step, j: JobId)
    requires UnrunInv(s) && Enabled(s, step) && Marks(s, step) && !step.WriteBack? && !step.Begin? && !step.Claim?
    ensures JobUnrun(Next(s, step), j)
  {
    assert JobUnrun(s, j) && JobOk(s, j);
  }

  lemma InvokedOnlyGrows(s: State, step: Step)
    requires Enabled(s, step)
    ensures forall j :: s.invoked[j] <= Next(s, step).invoked[j]
  {
  }

  lemma NewWorkerIsFresh(s: State, step: Step, w: WorkerId)
    requires Enabled(s, step) && w !in s.workers && w in Next(s, step).workers
    ensures Next(s, step).workers[w].phase.Fresh?
  {
  }

  /** A worker enters its integration by running it, and reads the record after. */
  lemma PhaseMoves(s: State, step: Step, w: WorkerId)
    requires Enabled(s, step) && w in s.workers && w in Next(s, step).workers
    requires Next(s, step).workers[w].phase != s.workers[w].phase
    ensures var phase := Next(s, step).workers[w].phase;
      && (phase.Invoked? ==> step == Invoke(w) || step == WriteBack(w))
      && (phase.Holding? ==> step == Hold(w) && s.workers[w].job in s.jobs && phase.copy == s.jobs[s.workers[w].job])
  {
  }

  lemma WorkerStaysRan(s: State, step: Step, w: WorkerId)
    requires UnrunInv(s) && Enabled(s, step) && Marks(s, step) && w in Next(s, step).workers
    ensures WorkerRan(Next(s, step), w)
  {
    if w !in s.workers {
      NewWorkerIsFresh(s, step, w);
    } else {
      assert WorkerRan(s, w) && JobUnrun(s, s.workers[w].job);
      InvokedOnlyGrows(s, step);
      JobOfWorkerKept(s, step, w);
      assert step == Invoke(w) ==> Next(s, step).invoked[s.workers[w].job] > 0;
      hide Next;
      if Next(s, step).workers[w].phase != s.workers[w].phase {
        PhaseMoves(s, step, w);
      }
    }
  }

  lemma {:induction false} RunKeepsUnrun(s: State, steps: seq<Step>)
    requires UnrunInv(s) && EnabledRun(s, steps) && MarkedRun(s, steps)
    ensures UnrunInv(Exec(s, steps))
    decreases |steps|
  {
    if steps != [] {
      StepKeepsUnrun(s, steps[0]);
      RunKeepsUnrun(Next(s, steps[0]), steps[1..]);
    }
  }

  /** In every run: a job whose record carries no pid, or the mark that it failed
      before its runtime, has never had its integration run, by any worker. So what
      the dispatcher takes for recoverable never ran. */
  lemma RecoverableNeverRan(pool: nat, now: int, steps: seq<Step>, j: JobId)
    requires EnabledRun(Init(pool, now), steps) && MarkedRun(Init(pool, now), steps)
    requires j in Exec(Init(pool, now), steps).jobs
    ensures var s := Exec(Init(pool, now), steps);
      var r := s.jobs[j];
      && (r.workerPid.None? || r.metadata.failedBeforeRuntime ==> s.invoked[j] == 0)
      && (RecoverablePreRuntime(r) ==> s.invoked[j] == 0)
  {
    RunKeepsUnrun(Init(pool, now), steps);
    var s := Exec(Init(pool, now), steps);
    assert JobUnrun(s, j) && JobOk(s, j);
  }
}
