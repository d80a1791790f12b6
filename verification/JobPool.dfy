/**
 The pool bound. In every run that meets the environment's obligations, the
 records that hold a slot, those aside whose snapshot entry was torn, never
 outnumber the pool: an exceeded pool always has a torn job that still holds its
 slot. Torn entries and recycled pids do exceed it (JobPoolLimits).
 */
module JobPool {
  import opened Wrappers
  import opened JobRecords
  import opened JobProtocol
  import opened JobExecution

  // The job a drainer has launched and not claimed yet.
  ghost function PendingLaunch(s: State): set<JobId> {
    if s.drainer.Launched? then {s.drainer.job} else {}
  }

  // Launched workers that could still take their job out of the queue.
  ghost predicate CouldBegin(s: State, w: WorkerId)
    requires w in s.workers
  {
    var k := s.workers[w];
    k.phase.Fresh? && MayBegin(s, k) && k.job in s.jobs && s.jobs[k.job].status.Queued?
  }

  ghost predicate IsPendingWorker(s: State, w: WorkerId) {
    s.drainer.Launched? && s.drainer.worker == w
  }

  /** A worker that could still begin is accounted for: it is the drainer's
      pending launch, or its own launch is what the record carries. */
  ghost predicate Covered(s: State, w: WorkerId)
    requires w in s.workers && s.workers[w].job in s.jobs
  {
    var k, r := s.workers[w], s.jobs[s.workers[w].job];
    || (IsPendingWorker(s, w) && s.drainer.job == k.job)
    || (k.reported && r.workerPid == Some(k.pid))
    || (!k.reported && k.claimedAt.Some? && r.workerPid.None? && r.launchedAt == k.claimedAt)
  }

  ghost predicate WorkerCovered(s: State, w: WorkerId)
    requires w in s.workers
  {
    && s.workers[w].pid !in s.dead
    && (CouldBegin(s, w) ==> Covered(s, w))
    && (CouldBegin(s, w) && s.drainer.Launched? && s.drainer.job == s.workers[w].job ==> s.drainer.worker == w)
    && (IsPendingWorker(s, w) ==>
          && s.workers[w].job == s.drainer.job
          && s.workers[w].claimedAt.None?
          && s.drainer.pid == (if s.workers[w].reported then Some(s.workers[w].pid) else None))
  }

  /** What a drainer's copy still says about the record it was read from. */
  ghost predicate CopyFaithful(copy: Record, r: Record) {
    && (r.status.Queued? ==> copy.status.Queued? && copy.workerPid == r.workerPid && copy.launchedAt == r.launchedAt)
    && (r.status.WaitingForMemory? || r.status.Running? ==>
          !Terminal(copy.status) && (copy.status.Queued? ==> IsLaunched(copy)))
  }

  ghost predicate CopiesFaithful(s: State) {
    && (s.drainer.Scanning? ==>
          forall j :: j in s.drainer.copies ==> j in s.jobs && CopyFaithful(s.drainer.copies[j], s.jobs[j]))
    && (s.drainer.Starting? ==> s.drainer.job in s.jobs && CopyFaithful(s.drainer.copy, s.jobs[s.drainer.job]))
  }

  function Room(capacity: int): nat {
    if capacity > 0 then capacity else 0
  }

  /** The jobs that hold a slot and were never torn. */
  ghost function Sound(s: State): set<JobId> {
    Occupied(s) - s.tornJobs
  }

  /** Slots held, slots about to be held and slots still promised to the drainer
      fit in the pool, torn jobs aside. */
  ghost predicate CapacityOk(s: State) {
    match s.drainer
    case NoDrainer => |Sound(s)| <= s.pool
    case Scanning(todo, copies, counted) =>
      |Sound(s)| <= s.pool && Sound(s) <= todo + copies.Keys + counted
    case Draining(capacity) => |Sound(s)| + Room(capacity) <= s.pool
    case Starting(_, _, capacity) => capacity > 0 && |Sound(s)| + capacity <= s.pool
    case Launched(j, _, _, capacity) => capacity > 0 && |Sound(s) + {j}| + capacity - 1 <= s.pool
  }

  ghost predicate PoolInv(s: State) {
    && ExecInv(s)
    && (forall w :: w in s.workers ==> WorkerCovered(s, w))
    && CopiesFaithful(s)
    && CapacityOk(s)
  }

  // ---- Occupancy only grows by a claim -----------------------------------

  lemma CoveredOccupies(s: State, w: WorkerId)
    requires w in s.workers && WorkerCovered(s, w) && CouldBegin(s, w)
    ensures Occupies(s, s.workers[w].job) || s.workers[w].job in PendingLaunch(s)
  {
  }

  /** Only a claim rewrites the launch of a record that stays queued. */
  lemma QueuedLaunchKept(s: State, step: Step, j: JobId)
    requires ExecInv(s) && Enabled(s, step) && !step.Claim?
    requires j in s.jobs && Next(s, step).jobs[j].status.Queued?
    ensures s.jobs[j].status.Queued?
    ensures Next(s, step).jobs[j].workerPid == s.jobs[j].workerPid
    ensures Next(s, step).jobs[j].launchedAt == s.jobs[j].launchedAt
  {
    if step.WriteBack? {
      assert WorkerOk(s, step.w);
    }
  }

  /** Only a beginning worker makes a job active. */
  lemma ActiveStays(s: State, step: Step, j: JobId)
    requires ExecInv(s) && Enabled(s, step) && !step.Begin? && j in s.jobs
    requires Next(s, step).jobs[j].status.WaitingForMemory? || Next(s, step).jobs[j].status.Running?
    ensures s.jobs[j].status.WaitingForMemory? || s.jobs[j].status.Running?
  {
    if step.WriteBack? {
      assert WorkerOk(s, step.w);
    }
  }

  ghost predicate HasDeadWorker(s: State, r: Record) {
    r.status.Queued? && r.workerPid.Some? && r.workerPid.value in s.dead
  }

  /** The clock goes on, and a queued record's dead worker stays known as dead. */
  lemma ClockAndDeadGrow(s: State, step: Step)
    requires Enabled(s, step) && Assumed(s, step)
    ensures s.now <= Next(s, step).now
    ensures forall j :: j in s.jobs && HasDeadWorker(s, s.jobs[j]) ==> HasDeadWorker(Next(s, step), s.jobs[j])
  {
  }

  lemma BeginsFromSlot(s: State, w: WorkerId, j: JobId)
    requires PoolInv(s) && Enabled(s, Begin(w)) && Assumed(s, Begin(w)) && j in s.jobs
    requires OccupiesSlot(Next(s, Begin(w)).jobs[j], s.now, s.dead)
    ensures Occupies(s, j) || j in PendingLaunch(s)
  {
    assert WorkerCovered(s, w);
    if CouldBegin(s, w) {
      CoveredOccupies(s, w);
    }
  }

  lemma ClaimsOnlyItsJob(s: State, j: JobId)
    requires Enabled(s, Claim) && j in s.jobs
    ensures Next(s, Claim).jobs[j] == s.jobs[j] || j in PendingLaunch(s)
  {
  }

  /** A job that holds a slot after a step held it before or was being launched. */
  lemma OccupiedBefore(s: State, step: Step, j: JobId)
    requires PoolInv(s) && Enabled(s, step) && Assumed(s, step) && j in s.jobs && j in Next(s, step).jobs
    requires Occupies(Next(s, step), j)
    ensures Occupies(s, j) || j in PendingLaunch(s)
  {
    ClockAndDeadGrow(s, step);
    if step.Begin? {
      BeginsFromSlot(s, step.w, j);
    } else if step.Claim? {
      ClaimsOnlyItsJob(s, j);
    } else if Next(s, step).jobs[j].status.Queued? {
      QueuedLaunchKept(s, step, j);
    } else {
      ActiveStays(s, step, j);
    }
  }

  lemma StepOccupancy(s: State, step: Step)
    requires PoolInv(s) && Enabled(s, step) && Assumed(s, step)
    ensures Occupied(Next(s, step)) <= Occupied(s) + PendingLaunch(s)
  {
    forall j | j in Occupied(Next(s, step))
      ensures j in Occupied(s) + PendingLaunch(s)
    {
      if j in s.jobs {
        OccupiedBefore(s, step, j);
      } else {
        NewRecordIsQueued(s, step, j);
      }
    }
  }

  // ---- Workers stay accounted for ----------------------------------------

  /** What a step other than a launch or a claim leaves alone. */
  lemma WorkerFrame(s: State, step: Step, w: WorkerId)
    requires Enabled(s, step) && Assumed(s, step) && !step.Claim? && !step.Launch?
    requires w in s.workers && w in Next(s, step).workers && s.workers[w].pid !in s.dead
    ensures Next(s, step).workers[w] == s.workers[w].(phase := Next(s, step).workers[w].phase)
    ensures Next(s, step).drainer == s.drainer || (!s.drainer.Launched? && !Next(s, step).drainer.Launched?)
    ensures s.workers[w].pid !in Next(s, step).dead
  {
  }

  lemma FreshWasFresh(s: State, step: Step, w: WorkerId)
    requires Enabled(s, step) && w in s.workers && w in Next(s, step).workers
    ensures Next(s, step).workers[w].phase.Fresh? ==> s.workers[w].phase.Fresh?
  {
  }

  lemma OtherWorkerCovered(s: State, step: Step, w: WorkerId)
    requires PoolInv(s) && Enabled(s, step) && Assumed(s, step)
    requires w in s.workers && w in Next(s, step).workers
    requires !step.Claim? && !step.Launch?
    ensures WorkerCovered(Next(s, step), w)
  {
    assert WorkerCovered(s, w) && WorkerOk(s, w);
    WorkerFrame(s, step, w);
    ClockAndDeadGrow(s, step);
    FreshWasFresh(s, step, w);
    hide Next;
    if CouldBegin(Next(s, step), w) {
      QueuedLaunchKept(s, step, s.workers[w].job);
    }
  }

  /** A launch starts only from an abandoned or unlaunched record, so no earlier
      worker of the job can begin any more. */
  lemma LaunchKeepsCover(s: State, step: Step)
    requires PoolInv(s) && step.Launch? && Enabled(s, step) && Assumed(s, step)
    ensures forall w :: w in Next(s, step).workers ==> WorkerCovered(Next(s, step), w)
  {
    var t, j := Next(s, step), s.drainer.job;
    forall w | w in t.workers
      ensures WorkerCovered(t, w)
    {
      if w != step.w {
        assert WorkerCovered(s, w);
        if CouldBegin(t, w) && s.workers[w].job == j {
          assert false;
        }
      }
    }
  }

  lemma ClaimKeepsCover(s: State)
    requires PoolInv(s) && Enabled(s, Claim)
    ensures forall w :: w in Next(s, Claim).workers ==> WorkerCovered(Next(s, Claim), w)
  {
    var t, j := Next(s, Claim), s.drainer.job;
    forall w | w in t.workers
      ensures WorkerCovered(t, w)
    {
      assert WorkerCovered(s, w);
      if CouldBegin(t, w) && w != s.drainer.worker {
        assert CouldBegin(s, w);
      }
    }
  }

  lemma StepKeepsCover(s: State, step: Step)
    requires PoolInv(s) && Enabled(s, step) && Assumed(s, step)
    ensures forall w :: w in Next(s, step).workers ==> WorkerCovered(Next(s, step), w)
  {
    if step.Launch? {
      LaunchKeepsCover(s, step);
    } else if step.Claim? {
      ClaimKeepsCover(s);
    } else {
      forall w | w in Next(s, step).workers
        ensures WorkerCovered(Next(s, step), w)
      {
        OtherWorkerCovered(s, step, w);
      }
    }
  }

  // ---- Copies stay faithful ----------------------------------------------

  lemma BeginKeepsCopy(s: State, w: WorkerId, j: JobId, copy: Record)
    requires PoolInv(s) && Enabled(s, Begin(w)) && Assumed(s, Begin(w)) && !s.drainer.Launched?
    requires j in s.jobs && CopyFaithful(copy, s.jobs[j])
    ensures CopyFaithful(copy, Next(s, Begin(w)).jobs[j])
  {
    assert WorkerCovered(s, w);
  }

  /** While a drainer only looks, a record moves on only as its copy foresees:
      a worker can take it out of the queue only if it was launched. */
  lemma CopyStaysFaithful(s: State, step: Step, j: JobId, copy: Record)
    requires PoolInv(s) && Enabled(s, step) && Assumed(s, step)
    requires !s.drainer.Launched?
    requires j in s.jobs && CopyFaithful(copy, s.jobs[j])
    ensures j in Next(s, step).jobs && CopyFaithful(copy, Next(s, step).jobs[j])
  {
    StepKeepsRecords(s, step);
    if step.Begin? {
      BeginKeepsCopy(s, step.w, j, copy);
    } else {
      assert !step.Claim?;
      hide Next;
      var r := Next(s, step).jobs[j];
      if r.status.Queued? {
        QueuedLaunchKept(s, step, j);
      } else if !Terminal(r.status) {
        ActiveStays(s, step, j);
      }
    }
  }

  lemma StepKeepsCopies(s: State, step: Step)
    requires PoolInv(s) && Enabled(s, step) && Assumed(s, step)
    ensures CopiesFaithful(Next(s, step))
  {
    var t := Next(s, step);
    StepKeepsRecords(s, step);
    if s.drainer.Scanning? && t.drainer.Scanning? {
      forall j | j in t.drainer.copies
        ensures j in t.jobs && CopyFaithful(t.drainer.copies[j], t.jobs[j])
      {
        if j in s.drainer.copies && !step.ReadEntry? {
          CopyStaysFaithful(s, step, j, s.drainer.copies[j]);
        }
      }
    } else if s.drainer.Starting? && t.drainer.Starting? {
      CopyStaysFaithful(s, step, s.drainer.job, s.drainer.copy);
    }
  }

  // ---- Capacity ----------------------------------------------------------

  lemma SubsetSize<T>(a: set<T>, b: set<T>)
    requires a <= b
    ensures |a| <= |b|
  {
    assert b == a + (b - a);
  }

  lemma UnionSize<T>(a: set<T>, b: set<T>)
    ensures |a + b| <= |a| + |b|
  {
    assert a + b == a + (b - a);
    SubsetSize(b - a, b);
  }

  /** Judging one snapshot entry misses an occupied slot exactly when it is torn. */
  lemma EvaluationMissesIffTorn(s: State, j: JobId)
    requires PoolInv(s) && Enabled(s, EvaluateEntry(j))
    ensures var copy := s.drainer.copies[j];
            (!OccupiesSlot(copy, s.now, s.dead) && Occupies(s, j)) <==> Torn(copy, s.jobs[j], s.now, s.dead)
  {
    assert CopyFaithful(s.drainer.copies[j], s.jobs[j]);
  }

  lemma TornGrows(s: State, step: Step)
    requires Enabled(s, step)
    ensures s.tornJobs <= Next(s, step).tornJobs && Next(s, step).pool == s.pool
  {
  }

  lemma StepSound(s: State, step: Step)
    requires PoolInv(s) && Enabled(s, step) && Assumed(s, step)
    ensures Sound(Next(s, step)) <= Sound(s) + PendingLaunch(s)
  {
    StepOccupancy(s, step);
    TornGrows(s, step);
  }

  lemma ScanningKeepsCapacity(s: State, step: Step)
    requires PoolInv(s) && Enabled(s, step) && Assumed(s, step) && s.drainer.Scanning?
    ensures CapacityOk(Next(s, step))
  {
    var t := Next(s, step);
    StepSound(s, step);
    SubsetSize(Sound(t), Sound(s));
    match step
    case EvaluateEntry(j) => EvaluationMissesIffTorn(s, j);
    case ScanDone => SubsetSize(Sound(t), s.drainer.counted);
    case _ =>
  }

  lemma LaunchedKeepsCapacity(s: State, step: Step)
    requires PoolInv(s) && Enabled(s, step) && Assumed(s, step) && s.drainer.Launched?
    ensures CapacityOk(Next(s, step))
  {
    var t, j := Next(s, step), s.drainer.job;
    StepSound(s, step);
    SubsetSize(Sound(t), Sound(s) + {j});
    SubsetSize(Sound(t) + {j}, Sound(s) + {j});
  }

  lemma StartingKeepsCapacity(s: State, step: Step)
    requires PoolInv(s) && Enabled(s, step) && Assumed(s, step) && s.drainer.Starting?
    ensures CapacityOk(Next(s, step))
  {
    var t, j := Next(s, step), s.drainer.job;
    StepSound(s, step);
    SubsetSize(Sound(t), Sound(s));
    SubsetSize(Sound(t) + {j}, Sound(s) + {j});
    UnionSize(Sound(s), {j});
  }

  lemma RestingKeepsCapacity(s: State, step: Step)
    requires PoolInv(s) && Enabled(s, step) && Assumed(s, step) && (s.drainer.NoDrainer? || s.drainer.Draining?)
    ensures CapacityOk(Next(s, step))
  {
    StepSound(s, step);
    SubsetSize(Sound(Next(s, step)), Sound(s));
  }

  lemma StepKeepsCapacity(s: State, step: Step)
    requires PoolInv(s) && Enabled(s, step) && Assumed(s, step)
    ensures CapacityOk(Next(s, step))
  {
    match s.drainer
    case Scanning(_, _, _) => ScanningKeepsCapacity(s, step);
    case Launched(_, _, _, _) => LaunchedKeepsCapacity(s, step);
    case Starting(_, _, _) => StartingKeepsCapacity(s, step);
    case _ => RestingKeepsCapacity(s, step);
  }

  lemma StepKeepsPool(s: State, step: Step)
    requires PoolInv(s) && Enabled(s, step) && Assumed(s, step)
    ensures PoolInv(Next(s, step))
  {
    StepKeepsInv(s, step);
    StepKeepsCover(s, step);
    StepKeepsCopies(s, step);
    StepKeepsCapacity(s, step);
  }

  lemma {:induction false} RunKeepsPool(s: State, steps: seq<Step>)
    requires PoolInv(s) && EnabledRun(s, steps) && AssumedRun(s, steps)
    ensures PoolInv(Exec(s, steps)) && Exec(s, steps).pool == s.pool
    decreases |steps|
  {
    if steps != [] {
      StepKeepsPool(s, steps[0]);
      RunKeepsPool(Next(s, steps[0]), steps[1..]);
    }
  }

  /** The pool bound over every run: torn jobs aside, the slots held fit in the
      pool, so an exceeded pool has a torn job that still holds its slot, and the
      bound is back as soon as those jobs have ended. */
  lemma PoolBound(pool: nat, now: int, steps: seq<Step>)
    requires EnabledRun(Init(pool, now), steps) && AssumedRun(Init(pool, now), steps)
    ensures var t := Exec(Init(pool, now), steps);
      && |Occupied(t) - t.tornJobs| <= pool
      && |Occupied(t)| <= pool + |Occupied(t) * t.tornJobs|
      && (|Occupied(t)| > pool ==> exists j :: j in Occupied(t) && j in t.tornJobs)
  {
    var s := Init(pool, now);
    assert Occupied(s) == {};
    RunKeepsPool(s, steps);
    var t := Exec(s, steps);
    match t.drainer {
      case Launched(j, _, _, _) => SubsetSize(Sound(t), Sound(t) + {j});
      case _ =>
    }
    var torn := Occupied(t) * t.tornJobs;
    assert Occupied(t) == Sound(t) + torn;
    UnionSize(Sound(t), torn);
    if |Occupied(t)| > pool {
      assert torn != {};
      var j :| j in torn;
    }
  }

  // ---- What a launch may not do ------------------------------------------

  /** The queued jobs whose dead worker's pid is handed out. */
  ghost function Revived(s: State, pid: int): set<JobId> {
    set j | j in s.jobs && s.jobs[j].status.Queued? && s.jobs[j].workerPid == Some(pid) && pid in s.dead
  }

  /** A launch makes exactly those jobs hold a slot that remember its pid as dead:
      it adds no slot of its own exactly when the pid is not remembered. */
  lemma LaunchRevivesExactly(s: State, w: WorkerId, pid: int, reported: bool)
    requires Enabled(s, Launch(w, pid, reported))
    ensures Occupied(Next(s, Launch(w, pid, reported))) == Occupied(s) + Revived(s, pid)
    ensures Occupied(s) !! Revived(s, pid)
    ensures Occupied(Next(s, Launch(w, pid, reported))) == Occupied(s) <==> !Remembered(s, pid)
  {
    var t := Next(s, Launch(w, pid, reported));
    forall j
      ensures j in Occupied(t) <==> j in Occupied(s) + Revived(s, pid)
    {
      assert j in Occupied(t) <==> j in s.jobs && OccupiesSlot(s.jobs[j], s.now, t.dead);
    }
    if Remembered(s, pid) {
      var j :| j in s.jobs && s.jobs[j].status.Queued? && s.jobs[j].workerPid == Some(pid);
      assert j in Revived(s, pid);
    }
  }
}
