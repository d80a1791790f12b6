/**
 A worker executing its job and a reconciler sweeping the records, as they run:
 loops and branches over single critical sections of the state machine, with every
 other actor free to move in between.
 */
module JobActors {
  import opened Wrappers
  import opened JobRecords
  import opened JobProtocol
  import opened JobExecution

  /** A step of worker `w` itself. */
  predicate OwnStep(step: Step, w: WorkerId) {
    match step
    case Begin(v) => v == w
    case Retire(v) => v == w
    case Run(v) => v == w
    case Invoke(v) => v == w
    case Hold(v) => v == w
    case WriteBack(v) => v == w
    case Exit(v) => v == w
    case Launch(v, _, _) => v == w
    case _ => false
  }

  /** What a worker can rely on while others act: it stands where it stood, its
      record stays as it is or ends, and what has ended stays so. */
  ghost predicate Unmoved(before: State, after: State, w: Option<WorkerId>) {
    && (w.Some? && w.value in before.workers ==> Standing(before, after, w.value))
    && (forall j :: before.invoked[j] <= after.invoked[j])
    && (forall j :: j in before.jobs ==> j in after.jobs)
    && (forall j :: j in before.jobs && Terminal(before.jobs[j].status) ==> after.jobs[j].status == before.jobs[j].status)
  }

  ghost predicate Standing(before: State, after: State, w: WorkerId)
    requires w in before.workers
  {
    var j := before.workers[w].job;
    && w in after.workers && after.workers[w].job == j && after.workers[w].phase == before.workers[w].phase
    && (!before.workers[w].phase.Fresh? && j in before.jobs && j in after.jobs ==>
          after.jobs[j].status == before.jobs[j].status || Terminal(after.jobs[j].status))
  }

  lemma OthersLeaveWorker(s: State, step: Step, w: WorkerId)
    requires Enabled(s, step) && !OwnStep(step, w) && w in s.workers
    ensures w in Next(s, step).workers
    ensures Next(s, step).workers[w].job == s.workers[w].job && Next(s, step).workers[w].phase == s.workers[w].phase
  {
  }

  /** Nobody else moves the record of a worker that has begun, except to its end. */
  lemma OthersOnlyEndRecord(s: State, step: Step, w: WorkerId)
    requires ExecInv(s) && Enabled(s, step) && !OwnStep(step, w) && w in s.workers && !s.workers[w].phase.Fresh?
    ensures var j := s.workers[w].job;
      j in s.jobs && j in Next(s, step).jobs
      && (Next(s, step).jobs[j].status == s.jobs[j].status || Terminal(Next(s, step).jobs[j].status))
  {
    assert WorkerOk(s, w) && JobOk(s, s.workers[w].job);
    if step.Run? || step.WriteBack? {
      assert WorkerOk(s, step.w);
    }
  }

  lemma OthersLeaveUnmoved(s: State, step: Step, w: Option<WorkerId>)
    requires ExecInv(s) && Enabled(s, step) && (w.Some? ==> !OwnStep(step, w.value))
    ensures Unmoved(s, Next(s, step), w)
  {
    StepKeepsRecords(s, step);
    InvokedOnlyGrows(s, step);
    if w.Some? && w.value in s.workers {
      OthersLeaveWorker(s, step, w.value);
      if !s.workers[w.value].phase.Fresh? {
        OthersOnlyEndRecord(s, step, w.value);
      }
    }
    hide Next;
    forall j | j in s.jobs && Terminal(s.jobs[j].status)
      ensures Next(s, step).jobs[j].status == s.jobs[j].status
    {
      assert Moves(s.jobs[j], Next(s, step).jobs[j]);
    }
  }

  lemma UnmovedTwice(a: State, b: State, c: State, w: Option<WorkerId>)
    requires Unmoved(a, b, w) && Unmoved(b, c, w)
    ensures Unmoved(a, c, w)
  {
  }

  // ---- The states of a run -----------------------------------------------

  ghost predicate Follows(a: State, b: State) {
    exists step :: Enabled(a, step) && b == Next(a, step)
  }

  /** Every state comes from the one before by a step some actor can take. */
  ghost predicate IsRun(trace: seq<State>) {
    forall i :: 0 <= i < |trace| - 1 ==> Follows(trace[i], trace[i + 1])
  }

  lemma RunGrows(trace: seq<State>, step: Step)
    requires trace != [] && IsRun(trace) && Enabled(trace[|trace| - 1], step)
    ensures IsRun(trace + [Next(trace[|trace| - 1], step)])
  {
    var longer := trace + [Next(trace[|trace| - 1], step)];
    forall i | 0 <= i < |longer| - 1
      ensures Follows(longer[i], longer[i + 1])
    {
      if i < |trace| - 1 {
        assert Follows(trace[i], trace[i + 1]);
      } else {
        assert longer[i] == trace[|trace| - 1];
      }
    }
  }

  class Actors {
    var s: State
    var tick: nat
    ghost var trace: seq<State>  // every state of the run so far
    const env: nat -> seq<Step>
    const raises: nat -> bool  // whether the next operation outside the model raises
    const authority: nat -> bool   // whether what was raised is an authority error
    const exits: WorkerId -> bool  // whether a worker's integration exits with code zero

    constructor (s: State, env: nat -> seq<Step>, raises: nat -> bool, authority: nat -> bool, exits: WorkerId -> bool)
      requires ExecInv(s)
      ensures this.s == s && this.env == env && this.raises == raises
      ensures this.authority == authority && this.exits == exits
      ensures Valid() && trace == [s]
    {
      this.s, this.env, this.raises, this.authority, this.exits, tick := s, env, raises, authority, exits, 0;
      trace := [s];
    }

    ghost predicate Valid()
      reads this
    {
      ExecInv(s) && trace != [] && IsRun(trace) && trace[|trace| - 1] == s
    }

    ghost predicate RecordIs(w: WorkerId, status: Status)
      reads this
    {
      w in s.workers && s.workers[w].job in s.jobs && s.jobs[s.workers[w].job].status == status
    }

    /** Nothing outside the worker happens: nobody else acts, nothing raises. */
    ghost predicate Undisturbed() {
      forall n :: env(n) == [] && !raises(n)
    }

    /** The run goes on by one step. */
    method Go(step: Step)
      requires Valid() && Enabled(s, step)
      modifies this`s, this`trace
      ensures Valid() && s == Next(old(s), step) && trace == old(trace) + [s]
    {
      StepKeepsInv(s, step);
      RunGrows(trace, step);
      s := Next(s, step);
      trace := trace + [s];
    }

    /** Nobody else acts. */
    ghost predicate Quiet() {
      forall n :: env(n) == []
    }

    method Interfere(w: Option<WorkerId>)
      requires Valid()
      modifies this`s, this`trace, this`tick
      ensures Valid() && old(trace) <= trace && Unmoved(old(s), s, w)
      ensures Quiet() ==> s == old(s)
    {
      var steps := env(tick);
      tick := tick + 1;
      for i := 0 to |steps|
        invariant Valid() && old(trace) <= trace && Unmoved(old(s), s, w) && (steps == [] ==> s == old(s))
      {
        if Enabled(s, steps[i]) && (w.Some? ==> !OwnStep(steps[i], w.value)) {
          OthersLeaveUnmoved(s, steps[i], w);
          UnmovedTwice(old(s), s, Next(s, steps[i]), w);
          Go(steps[i]);
        }
      }
    }

    /** Something outside the model, which may raise, while others act. */
    method Raises(w: Option<WorkerId>) returns (raised: bool)
      requires Valid()
      modifies this
      ensures Valid() && Unmoved(old(s), s, w)
      ensures Undisturbed() ==> s == old(s) && !raised
    {
      raised := raises(tick);
      Interfere(w);
    }

    // ---- The worker's own critical sections ----

    /** queued -> waiting_for_memory; a worker that fails to take it is over. */
    method TakeJob(w: WorkerId) returns (raised: bool)
      requires Valid() && w in s.workers && s.workers[w].phase.Fresh?
      modifies this`s, this`trace
      ensures Valid() && old(s).workers[w].job in s.jobs
      ensures raised <==> !old(s).jobs[old(s).workers[w].job].status.Queued?
      ensures !raised ==>
        w in s.workers && s.workers[w].phase.Waiting? && s.workers[w].job == old(s).workers[w].job
        && s.jobs[s.workers[w].job].status.WaitingForMemory?
      ensures raised ==> w !in s.workers && s.jobs == old(s).jobs
    {
      assert WorkerOk(s, w);
      raised := !s.jobs[s.workers[w].job].status.Queued?;
      Go(Begin(w));
    }

    /** waiting_for_memory -> running. */
    method StartRunning(w: WorkerId) returns (raised: bool)
      requires Valid() && w in s.workers && s.workers[w].phase.Waiting? && s.workers[w].job in s.jobs
      modifies this`s, this`trace
      ensures Valid() && Unmoved(old(s), s, None)
      ensures !raised ==> w in s.workers && s.workers[w].phase.Started? && s.workers[w].job == old(s).workers[w].job
      ensures raised ==> s == old(s)
      ensures raised <==> !old(s).jobs[old(s).workers[w].job].status.WaitingForMemory?
      ensures !raised ==> s.jobs[s.workers[w].job].status.Running?
    {
      assert WorkerOk(s, w);
      if !s.jobs[s.workers[w].job].status.WaitingForMemory? {
        return true;
      }
      OthersLeaveUnmoved(s, Run(w), None);
      Go(Run(w));
      return false;
    }

    method RunIntegration(w: WorkerId)
      requires Valid() && w in s.workers && s.workers[w].phase.Started?
      modifies this`s, this`trace
      ensures Valid() && Unmoved(old(s), s, None)
      ensures w in s.workers && s.workers[w].phase.Invoked? && s.workers[w].job == old(s).workers[w].job
      ensures old(s).invoked[s.workers[w].job] == 0 && s.invoked[s.workers[w].job] == 1 && s.jobs == old(s).jobs
    {
      assert WorkerOk(s, w);
      OthersLeaveUnmoved(s, Invoke(w), None);
      Go(Invoke(w));
    }

    method Transition(j: JobId, expected: Status, to: Status) returns (raised: bool)
      requires Valid() && j in s.jobs && (expected.WaitingForMemory? || expected.Running?)
      requires to.Failed? || to.Complete?
      modifies this`s, this`trace
      ensures Valid() && trace == old(trace) + [s] && Unmoved(old(s), s, None)
      ensures raised <==> old(s).jobs[j].status != expected
      ensures s == if raised then old(s) else old(s).(jobs := old(s).jobs[j := old(s).jobs[j].(status := to)])
    {
      raised := s.jobs[j].status != expected;
      OthersLeaveUnmoved(s, Finish(j, expected, to), None);
      Go(Finish(j, expected, to));
    }

    /** Read the terminal record, then write it back without its lock. */
    method WriteBackTerminal(w: WorkerId)
      requires Valid() && w in s.workers && s.workers[w].phase.Invoked? && s.workers[w].job in s.jobs
      requires s.jobs[s.workers[w].job].status.Complete? || s.jobs[s.workers[w].job].status.Failed?
      modifies this
      ensures Valid() && Unmoved(old(s), s, None)
      ensures Undisturbed() ==> s.jobs[old(s).workers[w].job] == old(s).jobs[old(s).workers[w].job]
    {
      OthersLeaveUnmoved(s, Hold(w), None);
      Go(Hold(w));
      Interfere(Some(w));
      OthersLeaveUnmoved(s, WriteBack(w), None);
      Go(WriteBack(w));
    }

    /** `_terminalize_failure`: afterwards the record is terminal, by this call or
        by whoever was faster. */
    method TerminalizeFailure(w: WorkerId)
      requires Valid() && w in s.workers && !s.workers[w].phase.Fresh? && s.workers[w].job in s.jobs
      modifies this
      ensures Valid() && old(s).workers[w].job in s.jobs
      ensures w in s.workers && s.workers[w].job == old(s).workers[w].job && s.workers[w].phase == old(s).workers[w].phase
      ensures Terminal(s.jobs[old(s).workers[w].job].status)
      ensures forall i :: old(s).invoked[i] <= s.invoked[i]
      ensures Undisturbed() && !Terminal(old(s).jobs[old(s).workers[w].job].status) ==>
        s.jobs[old(s).workers[w].job].status.Failed?
    {
      var j := s.workers[w].job;
      assert WorkerOk(s, w) && JobOk(s, j);
      var expected := s.jobs[j].status;
      if !expected.Running? && !expected.WaitingForMemory? {
        return;
      }
      Interfere(Some(w));
      var raised := Transition(j, expected, Failed);
    }

    /** A worker that did not get to its integration says so on the failed record,
        unless the job's authority was what failed. */
    method MarkUnrun(w: WorkerId) returns (marked: bool)
      requires Valid() && w in s.workers && s.workers[w].job in s.jobs && s.invoked[s.workers[w].job] == 0
      modifies this`s, this`trace
      ensures Valid() && s.workers == old(s).workers && s.invoked == old(s).invoked
      ensures var j := old(s).workers[w].job;
        && marked == (!authority(tick) && old(s).jobs[j].status.Failed?)
        && s.jobs == if marked
                     then old(s).jobs[j := old(s).jobs[j].(metadata := old(s).jobs[j].metadata.(failedBeforeRuntime := true))]
                     else old(s).jobs
    {
      var j := s.workers[w].job;
      marked := !authority(tick) && s.jobs[j].status.Failed?;
      if marked {
        var metadata := s.jobs[j].metadata.(failedBeforeRuntime := true);
        assert Marks(s, MergeMetadata(j, metadata));
        Go(MergeMetadata(j, metadata));
      }
    }

    // ---- execute_job ----

    /** From the memory lock to the started process; `false` is any exception, or
        the record was cancelled while waiting. */
    method Prepare(w: WorkerId) returns (ok: bool)
      requires Valid() && w in s.workers && s.workers[w].phase.Waiting?
      modifies this
      ensures Valid() && w in s.workers && s.workers[w].job == old(s).workers[w].job
      ensures ok ==> s.workers[w].phase.Started?
      ensures !ok ==> s.workers[w].phase.Waiting? || s.workers[w].phase.Started?
      ensures s.workers[w].job in s.jobs
      ensures Undisturbed() && old(RecordIs(w, WaitingForMemory)) ==> ok && RecordIs(w, Running)
    {
      ghost var j := s.workers[w].job;
      var raised := Raises(Some(w));
      assert WorkerOk(s, w);
      if raised {
        return false;
      }
      if s.jobs[s.workers[w].job].status.Cancelled? {
        return false;
      }
      raised := Raises(Some(w));
      assert WorkerOk(s, w);
      if raised {
        return false;
      }
      raised := StartRunning(w);
      assert WorkerOk(s, w);
      if raised {
        return false;
      }
      raised := Raises(Some(w));
      assert WorkerOk(s, w);
      return !raised;
    }

    /** Publication completes the record or raises. */
    method Publish(w: WorkerId) returns (raised: bool)
      requires Valid() && w in s.workers && s.workers[w].phase.Invoked?
      modifies this
      ensures Valid() && w in s.workers && s.workers[w].job == old(s).workers[w].job && s.workers[w].phase.Invoked?
      ensures s.workers[w].job in s.jobs && (!raised ==> s.jobs[s.workers[w].job].status.Complete?)
      ensures forall i :: old(s).invoked[i] <= s.invoked[i]
      ensures Undisturbed() && old(RecordIs(w, Running)) ==> !raised
    {
      raised := Raises(Some(w));
      assert WorkerOk(s, w);
      if raised {
        return;
      }
      raised := Transition(s.workers[w].job, Running, Complete);
    }

    /** What follows the integration's own end. */
    method Conclude(w: WorkerId, exitedWell: bool)
      requires Valid() && w in s.workers && s.workers[w].phase.Invoked?
      modifies this
      ensures Valid() && old(s).workers[w].job in s.jobs && Terminal(s.jobs[old(s).workers[w].job].status)
      ensures forall i :: old(s).invoked[i] <= s.invoked[i]
      ensures Undisturbed() && old(RecordIs(w, Running)) ==>
        s.jobs[old(s).workers[w].job].status == if exitedWell then Complete else Failed
    {
      if !exitedWell {
        TerminalizeFailure(w);
        return;
      }
      var raised := Publish(w);
      if raised && !s.jobs[s.workers[w].job].status.Failed? {
        TerminalizeFailure(w);
        return;
      }
      WriteBackTerminal(w);
    }

    /** A trigger that is no longer supported: the job fails without being taken. */
    method RetireJob(w: WorkerId)
      requires Valid() && w in s.workers && s.workers[w].phase.Fresh?
      modifies this`s, this`trace
      ensures Valid() && w !in s.workers && s.invoked == old(s).invoked && old(s).workers[w].job in old(s).jobs
      ensures var j := old(s).workers[w].job;
        s.jobs == Put(old(s).jobs, j, Transitioned(old(s).jobs[j], Queued, Failed, Keep))
    {
      assert WorkerOk(s, w);
      Go(Retire(w));
    }

    /** The end of a worker whose job never came to its integration. */
    method GiveUp(w: WorkerId) returns (marked: bool)
      requires Valid() && w in s.workers && s.workers[w].job in s.jobs
      requires s.workers[w].phase.Waiting? || s.workers[w].phase.Started?
      modifies this
      ensures Valid() && old(s).workers[w].job in s.jobs && Terminal(s.jobs[old(s).workers[w].job].status)
      ensures s.invoked[old(s).workers[w].job] == 0
      ensures marked ==> s.jobs[old(s).workers[w].job].status.Failed?
                         && s.jobs[old(s).workers[w].job].metadata.failedBeforeRuntime
    {
      TerminalizeFailure(w);
      assert WorkerOk(s, w);
      hide ExecInv, IsRun, Undisturbed;
      marked := MarkUnrun(w);
    }

    /** A worker that took its job leaves the record terminal however it ends short
        of being killed, and runs the integration at most once, on a record that no
        worker ran it on before. */
    method ExecuteJob(w: WorkerId) returns (took: bool, ran: bool, exitedWell: bool, marked: bool)
      requires Valid() && w in s.workers && s.workers[w].phase.Fresh?
      modifies this
      ensures Valid() && old(s).workers[w].job in s.jobs
      ensures took <==> old(s).jobs[old(s).workers[w].job].status.Queued?
      ensures took ==> Terminal(s.jobs[old(s).workers[w].job].status)
      ensures ran ==> took && s.invoked[old(s).workers[w].job] == 1 && exitedWell == exits(w)
      ensures !took ==> s.jobs == old(s).jobs
      ensures marked ==> took && !ran && s.invoked[old(s).workers[w].job] == 0
                         && s.jobs[old(s).workers[w].job].metadata.failedBeforeRuntime
      ensures Undisturbed() && took ==>
        ran && s.jobs[old(s).workers[w].job].status == if exitedWell then Complete else Failed
    {
      ghost var j := s.workers[w].job;
      var raised := TakeJob(w);
      ran, exitedWell, marked := false, false, false;
      if raised {
        return false, false, false, false;
      }
      took := true;
      var ok := Prepare(w);
      if !ok {
        marked := GiveUp(w);
        return;
      }
      assert WorkerOk(s, w);
      RunIntegration(w);
      ran, exitedWell := true, exits(w);
      raised := Raises(Some(w));
      if raised {
        TerminalizeFailure(w);
      } else {
        Conclude(w, exitedWell);
      }
      assert JobOk(s, j);
    }

    // ---- reconcile_jobs ----

    /** Fail a record whose worker is absent, unless its status has moved. */
    method FailAbsent(j: JobId, status: Status) returns (verdict: Verdict, ghost wroteAt: nat)
      requires Valid() && j in s.jobs && (status.WaitingForMemory? || status.Running?)
      modifies this`s, this`trace, this`tick
      ensures Valid() && old(trace) <= trace && Unmoved(old(s), s, None)
      ensures |old(trace)| - 1 <= wroteAt < |trace| && j in trace[wroteAt].jobs && j in s.jobs
      ensures verdict == if trace[wroteAt].jobs[j].status == status then Swept else Overtaken
      ensures verdict.Swept? ==> s.jobs[j].status.Failed?
      ensures Quiet() && old(s).jobs[j].status == status ==>
        s == old(s).(jobs := old(s).jobs[j := old(s).jobs[j].(status := Failed)])
    {
      hide ExecInv, IsRun, Quiet;
      Interfere(None);
      ghost var before := s;
      wroteAt := |trace| - 1;
      var raised := Transition(j, status, Failed);
      UnmovedTwice(old(s), before, s, None);
      verdict := if raised then Overtaken else Swept;
    }

    /** The branches in front of the probe. */
    method Decides(record: Record, j: JobId, statuses: Option<set<Status>>, blocked: set<JobId>)
      returns (considered: bool)
      ensures considered == Considered(record, j, statuses, blocked)
    {
      if statuses.Some? && record.status !in statuses.value {
        return false;
      }
      if j in blocked {
        return false;
      }
      return record.status.Running? || record.status.WaitingForMemory?;
    }

    /** Probe the worker of an active record, and fail the record if it is absent. */
    method ProbeAndFail(j: JobId, record: Record)
      returns (verdict: Verdict, ghost probedAt: nat, ghost wroteAt: nat)
      requires Valid() && j in s.jobs && (record.status.WaitingForMemory? || record.status.Running?)
      modifies this`s, this`trace, this`tick
      ensures Valid() && old(trace) <= trace && Unmoved(old(s), s, None)
      ensures |old(trace)| - 1 <= probedAt <= wroteAt < |trace| && j in trace[wroteAt].jobs && j in s.jobs
      ensures verdict == if !WorkerAbsent(record, trace[probedAt].dead) then Left
                         else if trace[wroteAt].jobs[j].status == record.status then Swept
                         else Overtaken
      ensures verdict.Swept? ==> s.jobs[j].status.Failed?
      ensures Quiet() && old(s).jobs[j] == record ==>
        s == if WorkerAbsent(record, old(s).dead)
             then old(s).(jobs := old(s).jobs[j := record.(status := Failed)]) else old(s)
    {
      hide ExecInv, IsRun, Quiet, Unmoved;
      Interfere(None);
      UnmovedJobs(old(s), s, j);
      probedAt, wroteAt := |trace| - 1, |trace| - 1;
      if !WorkerAbsent(record, s.dead) {
        return Left, probedAt, wroteAt;
      }
      ghost var probed := s;
      verdict, wroteAt := FailAbsent(j, record.status);
      UnmovedTwice(old(s), probed, s, None);
    }

    /** One record: left alone, left running, failed, or overtaken by another writer. */
    method ReconcileOne(j: JobId, statuses: Option<set<Status>>, blocked: set<JobId>)
      returns (verdict: Verdict, ghost look: Look)
      requires Valid()
      modifies this`s, this`trace, this`tick
      ensures Valid() && old(trace) <= trace && Unmoved(old(s), s, None)
      ensures look.job == j && look.verdict == verdict && LookOk(trace, |old(trace)| - 1, statuses, blocked, look)
      ensures (j in old(s).jobs ==> look.record.Some?) && (look.record.Some? ==> j in s.jobs)
      ensures verdict.Swept? ==> j in s.jobs && s.jobs[j].status.Failed?
      ensures Quiet() ==> s == old(s).(jobs := SweptJobs(old(s), {j}, statuses, blocked))
    {
      hide ExecInv, IsRun, Quiet, Unmoved, LookOk, SweptJobs;
      Interfere(None);
      ghost var readAt, read := |trace| - 1, s;
      UnmovedJobs(old(s), s, j);
      OneSwept(s, j, statuses, blocked);
      if j !in s.jobs {
        look := Look(j, None, readAt, readAt, readAt, Skipped);
        SkipIsOk(trace, |old(trace)| - 1, statuses, blocked, look);
        return Skipped, look;
      }
      var record := s.jobs[j];
      var considered := Decides(record, j, statuses, blocked);
      if !considered {
        look := Look(j, Some(record), readAt, readAt, readAt, Skipped);
        SkipIsOk(trace, |old(trace)| - 1, statuses, blocked, look);
        return Skipped, look;
      }
      ghost var probedAt, wroteAt;
      verdict, probedAt, wroteAt := ProbeAndFail(j, record);
      look := Look(j, Some(record), readAt, probedAt, wroteAt, verdict);
      UnmovedTwice(old(s), read, s, None);
      UnmovedJobs(read, s, j);
      ActIsOk(trace, |old(trace)| - 1, statuses, blocked, look);
    }

    /** A sweep looks at every record once, in order, fails exactly those whose
        worker is confirmed absent and whose status has not moved since, and counts
        what it failed and what it left running. Left alone, it fails exactly the
        active records it was given whose worker is absent. */
    method ReconcileJobs(ids: seq<JobId>, statuses: Option<set<Status>>, blocked: set<JobId>, unavailable: bool)
      returns (failed: nat, leftRunning: nat, ghost looks: seq<Look>)
      requires Valid()
      modifies this`s, this`trace, this`tick
      ensures Valid() && old(trace) <= trace && Unmoved(old(s), s, None)
      ensures |looks| == if unavailable then 0 else |ids|
      ensures forall i :: 0 <= i < |looks| ==> looks[i].job == ids[i]
      ensures LooksOk(trace, |old(trace)| - 1, statuses, blocked, looks)
      ensures NoneMissed(old(s), looks)
      ensures SweptFailed(s, looks)
      ensures failed == Count(looks, Swept) && leftRunning == Count(looks, Left)
      ensures unavailable ==> s == old(s)
      ensures Quiet() && !unavailable ==> s == old(s).(jobs := SweptJobs(old(s), Among(ids), statuses, blocked))
      ensures Quiet() && !unavailable ==> FailsExactly(old(s), s, ids, statuses, blocked)
    {
      hide ExecInv, IsRun, Quiet, Unmoved, LookOk, LooksOk, SweptFailed, NoneMissed, SweptJobs, Count, FailsExactly;
      NothingYet(trace, |trace| - 1, s, statuses, blocked);
      failed, leftRunning, looks := 0, 0, [];
      if unavailable {
        return;
      }
      for n := 0 to |ids|
        invariant Valid() && old(trace) <= trace && Unmoved(old(s), s, None) && |looks| == n
        invariant forall i :: 0 <= i < n ==> looks[i].job == ids[i]
        invariant LooksOk(trace, |old(trace)| - 1, statuses, blocked, looks)
        invariant NoneMissed(old(s), looks) && SweptFailed(s, looks)
        invariant failed == Count(looks, Swept) && leftRunning == Count(looks, Left)
        invariant Quiet() ==> s == old(s).(jobs := SweptJobs(old(s), Among(ids[..n]), statuses, blocked))
      {
        ghost var before, was := s, trace;
        var verdict;
        ghost var look;
        verdict, look := ReconcileOne(ids[n], statuses, blocked);
        UnmovedTwice(old(s), before, s, None);
        UnmovedFacts(old(s), before, s, looks);
        LooksGrow(was, trace, |old(trace)| - 1, statuses, blocked, looks, look);
        SweepGrows(old(s), ids, n, statuses, blocked);
        LooksCounted(looks, look, s, old(s));
        looks := looks + [look];
        if verdict.Swept? {
          failed := failed + 1;
        } else if verdict.Left? {
          leftRunning := leftRunning + 1;
        }
      }
      assert ids[..|ids|] == ids;
      SweptExactly(old(s), ids, statuses, blocked);
    }
  }

  // ---- What a sweep says -------------------------------------------------

  datatype Verdict = Skipped | Left | Swept | Overtaken

  // What a sweep did about one record: when it was read, when its worker was
  // probed, and when the record was written.
  datatype Look =
    Look(job: JobId, record: Option<Record>, readAt: nat, probedAt: nat, wroteAt: nat, verdict: Verdict)

  /** The records a sweep decides about. */
  predicate Considered(record: Record, j: JobId, statuses: Option<set<Status>>, blocked: set<JobId>) {
    && (statuses.Some? ==> record.status in statuses.value)
    && j !in blocked
    && (record.status.Running? || record.status.WaitingForMemory?)
  }

  /** `worker_alive(...) is False`; no pid is never confirmed absent. */
  predicate WorkerAbsent(record: Record, dead: set<int>) {
    record.workerPid.Some? && record.workerPid.value in dead
  }

  /** A sweep takes a record as it was in the state of its read, goes on only with
      active ones, and writes exactly those whose worker was confirmed absent in the
      state of the probe and whose status was still the one read. */
  ghost predicate LookOk(trace: seq<State>, from: nat, statuses: Option<set<Status>>, blocked: set<JobId>, look: Look) {
    && from <= look.readAt <= look.probedAt <= look.wroteAt < |trace|
    && look.record == Lookup(trace[look.readAt].jobs, look.job)
    && var considered := look.record.Some?
         && (look.record.value.status.Running? || look.record.value.status.WaitingForMemory?)
         && (statuses.Some? ==> look.record.value.status in statuses.value) && look.job !in blocked;
       var dead := considered && look.record.value.workerPid.Some?
         && look.record.value.workerPid.value in trace[look.probedAt].dead;
       && (look.verdict.Skipped? <==> !considered)
       && (look.verdict.Left? <==> considered && !dead)
       && (look.verdict.Swept? <==> dead && Lookup(trace[look.wroteAt].jobs, look.job).Some?
                                    && trace[look.wroteAt].jobs[look.job].status == look.record.value.status)
  }

  function Lookup(jobs: map<JobId, Record>, j: JobId): Option<Record> {
    if j in jobs then Some(jobs[j]) else None
  }

  ghost predicate LooksOk(trace: seq<State>, from: nat, statuses: Option<set<Status>>, blocked: set<JobId>,
                          looks: seq<Look>)
  {
    && (forall i :: 0 <= i < |looks| ==> LookOk(trace, from, statuses, blocked, looks[i]))
    && (forall i, k :: 0 <= i < k < |looks| ==> looks[i].wroteAt <= looks[k].readAt)
  }

  lemma LooksGrow(trace: seq<State>, longer: seq<State>, from: nat, statuses: Option<set<Status>>, blocked: set<JobId>,
                  looks: seq<Look>, look: Look)
    requires from < |trace| && trace <= longer && LooksOk(trace, from, statuses, blocked, looks)
    requires LookOk(longer, |trace| - 1, statuses, blocked, look)
    ensures LooksOk(longer, from, statuses, blocked, looks + [look])
  {
    forall i | 0 <= i < |looks|
      ensures LookOk(longer, from, statuses, blocked, looks[i])
    {
      assert LookOk(trace, from, statuses, blocked, looks[i]);
    }
  }

  function Among(ids: seq<JobId>): set<JobId> {
    set j | j in ids
  }

  /** What an undisturbed sweep over `ids` makes of the store. */
  ghost function SweptJobs(s: State, ids: set<JobId>, statuses: Option<set<Status>>, blocked: set<JobId>): map<JobId, Record> {
    map j | j in s.jobs ::
      if j in ids && Considered(s.jobs[j], j, statuses, blocked) && WorkerAbsent(s.jobs[j], s.dead)
      then s.jobs[j].(status := Failed) else s.jobs[j]
  }

  /** What was active, asked for and without a worker has failed; nothing else has
      changed. */
  ghost predicate FailsExactly(before: State, after: State, ids: seq<JobId>, statuses: Option<set<Status>>,
                               blocked: set<JobId>)
  {
    && after.jobs.Keys == before.jobs.Keys
    && (forall j :: j in before.jobs ==>
          var r := before.jobs[j];
          var lost := j in ids && j !in blocked && (statuses.Some? ==> r.status in statuses.value)
            && (r.status.Running? || r.status.WaitingForMemory?)
            && r.workerPid.Some? && r.workerPid.value in before.dead;
          after.jobs[j] == if lost then r.(status := Failed) else r)
  }

  lemma SweptExactly(s: State, ids: seq<JobId>, statuses: Option<set<Status>>, blocked: set<JobId>)
    ensures FailsExactly(s, s.(jobs := SweptJobs(s, Among(ids), statuses, blocked)), ids, statuses, blocked)
  {
  }

  lemma SweepGrows(s: State, ids: seq<JobId>, n: nat, statuses: Option<set<Status>>, blocked: set<JobId>)
    requires n < |ids|
    ensures SweptJobs(s.(jobs := SweptJobs(s, Among(ids[..n]), statuses, blocked)), {ids[n]}, statuses, blocked)
         == SweptJobs(s, Among(ids[..n + 1]), statuses, blocked)
  {
    assert Among(ids[..n + 1]) == Among(ids[..n]) + {ids[n]};
  }

  lemma NothingYet(trace: seq<State>, from: nat, s: State, statuses: Option<set<Status>>, blocked: set<JobId>)
    ensures Unmoved(s, s, None) && SweptJobs(s, Among([]), statuses, blocked) == s.jobs
    ensures LooksOk(trace, from, statuses, blocked, []) && SweptFailed(s, []) && NoneMissed(s, [])
    ensures Count([], Swept) == Count([], Left) == 0
  {
  }

  lemma UnmovedJobs(a: State, b: State, j: JobId)
    requires Unmoved(a, b, None)
    ensures j in a.jobs ==> j in b.jobs
  {
  }

  lemma SkipIsOk(trace: seq<State>, from: nat, statuses: Option<set<Status>>, blocked: set<JobId>, look: Look)
    requires from <= look.readAt == look.probedAt == look.wroteAt < |trace| && look.verdict.Skipped?
    requires look.record == Lookup(trace[look.readAt].jobs, look.job)
    requires look.record.Some? ==> !Considered(look.record.value, look.job, statuses, blocked)
    ensures LookOk(trace, from, statuses, blocked, look)
  {
  }

  lemma ActIsOk(trace: seq<State>, from: nat, statuses: Option<set<Status>>, blocked: set<JobId>, look: Look)
    requires from <= look.readAt <= look.probedAt <= look.wroteAt < |trace|
    requires look.record.Some? && look.record == Lookup(trace[look.readAt].jobs, look.job)
    requires Considered(look.record.value, look.job, statuses, blocked) && look.job in trace[look.wroteAt].jobs
    requires look.verdict == if !WorkerAbsent(look.record.value, trace[look.probedAt].dead) then Left
                             else if trace[look.wroteAt].jobs[look.job].status == look.record.value.status then Swept
                             else Overtaken
    ensures LookOk(trace, from, statuses, blocked, look)
  {
  }

  lemma OneSwept(s: State, j: JobId, statuses: Option<set<Status>>, blocked: set<JobId>)
    ensures j !in s.jobs || !Considered(s.jobs[j], j, statuses, blocked) || !WorkerAbsent(s.jobs[j], s.dead)
      ==> SweptJobs(s, {j}, statuses, blocked) == s.jobs
    ensures j in s.jobs && Considered(s.jobs[j], j, statuses, blocked) && WorkerAbsent(s.jobs[j], s.dead)
      ==> SweptJobs(s, {j}, statuses, blocked) == s.jobs[j := s.jobs[j].(status := Failed)]
  {
  }

  lemma UnmovedFacts(a: State, b: State, c: State, looks: seq<Look>)
    requires Unmoved(a, b, None) && Unmoved(b, c, None)
    ensures forall j :: j in a.jobs ==> j in b.jobs
    ensures SweptFailed(b, looks) ==> SweptFailed(c, looks)
  {
  }

  lemma LooksCounted(looks: seq<Look>, look: Look, s: State, was: State)
    ensures Count(looks + [look], Swept) == Count(looks, Swept) + (if look.verdict.Swept? then 1 else 0)
    ensures Count(looks + [look], Left) == Count(looks, Left) + (if look.verdict.Left? then 1 else 0)
    ensures NoneMissed(was, looks) && (look.job in was.jobs ==> look.record.Some?) ==> NoneMissed(was, looks + [look])
    ensures SweptFailed(s, looks) && (look.verdict.Swept? ==> look.job in s.jobs && s.jobs[look.job].status.Failed?)
      ==> SweptFailed(s, looks + [look])
  {
    assert (looks + [look])[..|looks|] == looks;
  }

  /** The records that were there before the sweep were all read. */
  ghost predicate NoneMissed(was: State, looks: seq<Look>) {
    forall i :: 0 <= i < |looks| && looks[i].job in was.jobs ==> looks[i].record.Some?
  }

  ghost predicate SweptFailed(s: State, looks: seq<Look>) {
    forall i :: 0 <= i < |looks| && looks[i].verdict.Swept? ==>
      looks[i].job in s.jobs && s.jobs[looks[i].job].status.Failed?
  }

  function Count(looks: seq<Look>, verdict: Verdict): nat {
    if looks == [] then 0
    else Count(looks[..|looks| - 1], verdict) + (if looks[|looks| - 1].verdict == verdict then 1 else 0)
  }
}
