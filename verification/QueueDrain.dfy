/**
 `drain` and `_start` of flowgency/jobs/queue.py as they run: a drainer holding
 the queue lock, with every other actor free to act between any two of its own
 steps. Each of its actions is one drainer step of the state machine, so the
 pool invariant holds throughout. `trace` keeps every state the run has passed
 through, and what the drainer read and judged is stated about those states.
 */
module QueueDrain {
  import opened Wrappers
  import opened JobRecords
  import opened JobProtocol
  import opened JobExecution
  import opened JobPool
  import opened Sorting

  // An entry's order key: (due_at or created_at, job_id).
  datatype Entry = Entry(when: int, job: JobId)

  predicate KeyLe(a: Entry, b: Entry) {
    a.when < b.when || (a.when == b.when && a.job <= b.job)
  }

  function EntryOf(j: JobId, r: Record, created: JobId -> int): Entry {
    Entry(if r.dueAt.Some? then r.dueAt.value else created(j), j)
  }

  function Jobs(entries: seq<Entry>): seq<JobId> {
    seq(|entries|, i requires 0 <= i < |entries| => entries[i].job)
  }

  ghost predicate DistinctEntries(entries: seq<Entry>) {
    forall i, j :: 0 <= i < j < |entries| ==> entries[i] != entries[j]
  }

  datatype LaunchOutcome = Raises | Starts(w: WorkerId, pid: int, reported: bool)

  /** A step of anyone but the drainer. */
  predicate EnvStep(step: Step) {
    || step.Submit? || step.Tick? || step.ConfirmDead? || step.Cancel? || step.MergeMetadata?
    || step.Finish? || step.Begin? || step.Retire? || step.Run? || step.Invoke? || step.Hold?
    || step.WriteBack? || step.Exit?
  }

  // ---- The states of a run -----------------------------------------------

  ghost predicate Follows(a: State, b: State) {
    exists step :: Enabled(a, step) && Assumed(a, step) && b == Next(a, step)
  }

  /** Every state comes from the one before by a step that meets its obligations. */
  ghost predicate IsRun(trace: seq<State>) {
    |trace| > 0 && forall i :: 0 <= i < |trace| - 1 ==> Follows(trace[i], trace[i + 1])
  }

  lemma RunGrows(trace: seq<State>, step: Step)
    requires IsRun(trace)
    requires var s := trace[|trace| - 1]; Enabled(s, step) && Assumed(s, step)
    ensures IsRun(trace + [Next(trace[|trace| - 1], step)])
  {
    var longer := trace + [Next(trace[|trace| - 1], step)];
    forall i | 0 <= i < |longer| - 1
      ensures Follows(longer[i], longer[i + 1])
    {
      if i < |trace| - 1 {
        assert Follows(trace[i], trace[i + 1]);
      } else {
        assert longer[i] == trace[|trace| - 1];
      }
    }
  }

  ghost predicate SameWorld(a: State, b: State) {
    a.jobs == b.jobs && a.now == b.now && a.dead == b.dead && a.workers == b.workers && a.pool == b.pool
  }

  /** Nothing but the drainer itself has moved since `from`. */
  ghost predicate AtRest(trace: seq<State>, from: nat) {
    from < |trace| && forall i :: from <= i < |trace| ==> SameWorld(trace[from], trace[i])
  }

  lemma RestGrows(trace: seq<State>, from: nat, s: State)
    requires AtRest(trace, from)
    ensures SameWorld(trace[|trace| - 1], s) ==> AtRest(trace + [s], from)
    ensures AtRest(trace + [s], |trace|)
  {
  }

  // ---- What a snapshot says ----------------------------------------------

  // A moment of the run for each job.
  type Moments = map<JobId, nat>

  ghost predicate Within(trace: seq<State>, from: nat, at: Moments) {
    forall j :: j in at ==> from <= at[j] < |trace|
  }

  /** Every copy has its moment, none before `from`. */
  ghost predicate Covers(trace: seq<State>, from: nat, copies: map<JobId, Record>, at: Moments) {
    at.Keys == copies.Keys && Within(trace, from, at)
  }

  /** Every copy is the record as it was at its moment. */
  ghost predicate CopiesOf(trace: seq<State>, from: nat, copies: map<JobId, Record>, at: Moments) {
    && Covers(trace, from, copies, at)
    && (forall j :: j in copies ==> j in trace[at[j]].jobs && copies[j] == trace[at[j]].jobs[j])
  }

  ghost predicate LaunchableAt(trace: seq<State>, copies: map<JobId, Record>, at: Moments, j: JobId) {
    j in copies && j in at && at[j] < |trace| && IsLaunchable(copies[j], trace[at[j]].now, trace[at[j]].dead)
  }

  ghost predicate OccupiedAt(trace: seq<State>, copies: map<JobId, Record>, at: Moments, j: JobId) {
    j in copies && j in at && at[j] < |trace| && OccupiesSlot(copies[j], trace[at[j]].now, trace[at[j]].dead)
  }

  /** The copies that held a slot when they were judged. */
  ghost function SlotHolders(trace: seq<State>, copies: map<JobId, Record>, at: Moments): set<JobId> {
    set j | j in at.Keys && OccupiedAt(trace, copies, at, j)
  }

  /** `found` is exactly the entries launchable when judged, once each. */
  ghost predicate FoundIs(trace: seq<State>, copies: map<JobId, Record>, at: Moments, created: JobId -> int,
                          found: seq<Entry>)
  {
    && DistinctEntries(found)
    && (forall e :: e in found <==>
          LaunchableAt(trace, copies, at, e.job) && e == EntryOf(e.job, copies[e.job], created))
  }

  /** The waiting list is those entries in order. */
  ghost predicate WaitingIs(trace: seq<State>, copies: map<JobId, Record>, at: Moments, created: JobId -> int,
                            waiting: seq<Entry>)
  {
    Ordered(KeyLe, waiting) && FoundIs(trace, copies, at, created, waiting)
  }

  /** Longer runs say the same about earlier moments. */
  lemma MomentsStay(trace: seq<State>, longer: seq<State>, from: nat, copies: map<JobId, Record>, at: Moments)
    requires trace <= longer && Within(trace, from, at)
    ensures Within(longer, from, at)
    ensures CopiesOf(trace, from, copies, at) ==> CopiesOf(longer, from, copies, at)
    ensures SlotHolders(longer, copies, at) == SlotHolders(trace, copies, at)
    ensures forall j :: LaunchableAt(trace, copies, at, j) <==> LaunchableAt(longer, copies, at, j)
  {
    assert forall i :: 0 <= i < |trace| ==> trace[i] == longer[i];
  }

  lemma NoneFound(trace: seq<State>, copies: map<JobId, Record>, created: JobId -> int)
    ensures FoundIs(trace, copies, map[], created, [])
  {
  }

  lemma FoundSorted(trace: seq<State>, copies: map<JobId, Record>, at: Moments, created: JobId -> int, found: seq<Entry>)
    requires FoundIs(trace, copies, at, created, found)
    ensures WaitingIs(trace, copies, at, created, Sort(KeyLe, found))
  {
    assert TotalOrder(KeyLe);
    SortOrders(KeyLe, found);
    DistinctAfterSort(found, Sort(KeyLe, found));
  }

  lemma FoundStays(trace: seq<State>, longer: seq<State>, copies: map<JobId, Record>, at: Moments,
                   created: JobId -> int, found: seq<Entry>)
    requires trace <= longer && Within(trace, 0, at) && FoundIs(trace, copies, at, created, found)
    ensures FoundIs(longer, copies, at, created, found)
  {
    MomentsStay(trace, longer, 0, copies, at);
  }

  function WithEntry(s: State, found: seq<Entry>, j: JobId, copy: Record, created: JobId -> int): seq<Entry> {
    if IsLaunchable(copy, s.now, s.dead) then found + [EntryOf(j, copy, created)] else found
  }

  /** One more entry is judged now. */
  lemma OneMoreFound(trace: seq<State>, copies: map<JobId, Record>, at: Moments, created: JobId -> int,
                     found: seq<Entry>, j: JobId)
    requires trace != [] && j in copies && j !in at && Within(trace, 0, at) && FoundIs(trace, copies, at, created, found)
    ensures FoundIs(trace, copies, at[j := |trace| - 1], created, WithEntry(trace[|trace| - 1], found, j, copies[j], created))
  {
    var s, e, now := trace[|trace| - 1], EntryOf(j, copies[j], created), at[j := |trace| - 1];
    assert e !in found;
    forall i
      ensures LaunchableAt(trace, copies, now, i)
        <==> (if i == j then IsLaunchable(copies[j], s.now, s.dead) else LaunchableAt(trace, copies, at, i))
    {
    }
  }

  lemma OneMoreHeld(trace: seq<State>, copies: map<JobId, Record>, at: Moments, j: JobId)
    requires trace != [] && j in copies && j !in at
    ensures var s := trace[|trace| - 1];
      (SlotHolders(trace, copies, at[j := |trace| - 1])
       == SlotHolders(trace, copies, at) + (if OccupiesSlot(copies[j], s.now, s.dead) then {j} else {}))
  {
    var s, now := trace[|trace| - 1], at[j := |trace| - 1];
    forall i
      ensures OccupiedAt(trace, copies, now, i)
        <==> (if i == j then OccupiesSlot(copies[j], s.now, s.dead) else OccupiedAt(trace, copies, at, i))
    {
    }
  }

  // One entry's turn: when its record was read, when it was judged, whether it started.
  datatype Try = Try(entry: Entry, readAt: nat, judgedAt: nat, ok: bool)

  function Tried(tries: seq<Try>): seq<Entry> {
    if tries == [] then [] else Tried(tries[..|tries| - 1]) + [tries[|tries| - 1].entry]
  }

  function Succeeded(tries: seq<Try>): seq<Entry> {
    if tries == [] then []
    else Succeeded(tries[..|tries| - 1]) + (if tries[|tries| - 1].ok then [tries[|tries| - 1].entry] else [])
  }

  /** An entry started exactly if its record, as read in its turn, was launchable
      when it was judged and the launcher returned. */
  ghost predicate TryOk(trace: seq<State>, from: nat, launcher: State -> LaunchOutcome, t: Try) {
    && from <= t.readAt < t.judgedAt < |trace| && t.entry.job in trace[t.readAt].jobs
    && var copy := trace[t.readAt].jobs[t.entry.job];
       (t.ok <==> IsLaunchable(copy, trace[t.judgedAt].now, trace[t.judgedAt].dead)
                  && launcher(trace[t.judgedAt]).Starts?)
  }

  ghost predicate TriesOk(trace: seq<State>, from: nat, launcher: State -> LaunchOutcome, tries: seq<Try>) {
    forall i :: 0 <= i < |tries| ==> TryOk(trace, from, launcher, tries[i])
  }

  ghost predicate Ready(s: State, j: JobId) {
    j in s.jobs && IsLaunchable(s.jobs[j], s.now, s.dead)
  }

  ghost predicate IsQueued(s: State, j: JobId) {
    j in s.jobs && s.jobs[j].status.Queued?
  }

  /** A claim stamps pid and launch time and nothing else. */
  predicate IsClaimed(before: Record, after: Record, now: int) {
    after.(workerPid := before.workerPid) == before.(launchedAt := Some(now))
  }

  /** What a drainer that is left alone makes of the records: the launched ones are
      claimed, one that was tried in vain may have failed, the rest are as before. */
  ghost predicate Settles(before: State, after: State, launched: set<JobId>, tried: set<JobId>) {
    && after.now == before.now && after.jobs.Keys == before.jobs.Keys
    && (forall j :: j in before.jobs ==>
          if j in launched then IsClaimed(before.jobs[j], after.jobs[j], before.now)
          else after.jobs[j] == before.jobs[j]
               || (j in tried && after.jobs[j] == before.jobs[j].(status := Failed)))
  }

  function JobSet(entries: seq<Entry>): set<JobId> {
    set e | e in entries :: e.job
  }

  ghost predicate OthersReady(before: State, after: State, j: JobId) {
    forall i :: i != j && Ready(before, i) ==> Ready(after, i)
  }

  lemma TriesStay(trace: seq<State>, longer: seq<State>, late: nat, from: nat, launcher: State -> LaunchOutcome,
                  tries: seq<Try>)
    requires trace <= longer && from <= late && TriesOk(trace, late, launcher, tries)
    ensures TriesOk(longer, from, launcher, tries)
  {
    forall i | 0 <= i < |tries|
      ensures TryOk(longer, from, launcher, tries[i])
    {
      assert TryOk(trace, late, launcher, tries[i]);
    }
  }

  /** Nobody is passed over: an entry not after a launched one was tried. */
  ghost predicate FollowsOrder(waiting: seq<Entry>, attempted: seq<Entry>, launched: seq<Entry>) {
    && attempted <= waiting
    && multiset(launched) <= multiset(attempted)
    && Ordered(KeyLe, launched)
    && (forall e, l :: e in waiting && l in launched && KeyLe(e, l) ==> e in attempted)
  }

  class Queue {
    var s: State
    var tick: nat
    var launches: seq<JobId>  // the launcher calls that succeeded, oldest first
    ghost var trace: seq<State>
    ghost var since: nat      // nothing but the drainer has moved since this state
    const env: nat -> seq<Step>
    const launcher: State -> LaunchOutcome
    const created: JobId -> int

    constructor (s: State, env: nat -> seq<Step>, launcher: State -> LaunchOutcome, created: JobId -> int)
      requires PoolInv(s)
      ensures this.s == s && this.env == env && this.launcher == launcher && this.created == created
      ensures launches == [] && trace == [s] && Valid()
    {
      this.s, this.env, this.launcher, this.created := s, env, launcher, created;
      this.tick, this.launches, trace, since := 0, [], [s], 0;
    }

    ghost predicate Valid()
      reads this
    {
      PoolInv(s) && trace != [] && IsRun(trace) && trace[|trace| - 1] == s
      && since < |trace| && AtRest(trace, since)
    }

    /** A launcher that returns has started a process of its own, and has not given
        it the pid of a dead worker that a queued record remembers. */
    ghost predicate LauncherOk() {
      forall t :: launcher(t).Starts? ==> launcher(t).w !in t.workers && !Remembered(t, launcher(t).pid)
    }

    /** Nobody else acts. */
    ghost predicate Quiet() {
      forall n :: env(n) == []
    }

    ghost predicate AlwaysStarts() {
      forall t :: launcher(t).Starts?
    }

    /** The run goes on by one step. */
    method Act(step: Step)
      requires Valid() && Enabled(s, step) && Assumed(s, step)
      modifies this`s, this`trace, this`since
      ensures Valid() && s == Next(old(s), step) && trace == old(trace) + [s]
      ensures SameWorld(old(s), s) ==> since == old(since)
      ensures forall j :: j in old(s.jobs) ==> j in s.jobs
    {
      StepKeepsPool(s, step);
      StepKeepsRecords(s, step);
      RunGrows(trace, step);
      RestGrows(trace, since, Next(s, step));
      since := if SameWorld(s, Next(s, step)) then since else |trace|;
      s := Next(s, step);
      trace := trace + [s];
    }

    method EnvAct(step: Step)
      requires Valid() && EnvStep(step) && Enabled(s, step) && Assumed(s, step)
      modifies this`s, this`trace, this`since
      ensures Valid() && old(trace) <= trace
      ensures s.drainer == old(s.drainer) && s.pool == old(s.pool)
      ensures forall j :: j in old(s.jobs) ==> j in s.jobs
    {
      Act(step);
    }

    /** Everyone else acts for a while; steps that are not possible are skipped. */
    method Interfere()
      requires Valid()
      modifies this`s, this`trace, this`since, this`tick
      ensures Valid() && old(trace) <= trace && s.drainer == old(s.drainer) && s.pool == old(s.pool)
      ensures forall j :: j in old(s.jobs) ==> j in s.jobs
      ensures Quiet() ==> s == old(s) && since == old(since)
    {
      var steps := env(tick);
      tick := tick + 1;
      for i := 0 to |steps|
        invariant Valid() && old(trace) <= trace && s.drainer == old(s.drainer) && s.pool == old(s.pool)
        invariant forall j :: j in old(s.jobs) ==> j in s.jobs
        invariant steps == [] ==> s == old(s) && since == old(since)
      {
        if EnvStep(steps[i]) && Enabled(s, steps[i]) && Assumed(s, steps[i]) {
          EnvAct(steps[i]);
        }
      }
    }

    // ---- The drainer's steps, one record or one lock at a time ----

    method EnterQueue()
      requires Valid() && s.drainer.NoDrainer?
      modifies this`s, this`trace, this`since
      ensures Valid() && trace == old(trace) + [s] && since == old(since)
      ensures s == old(s).(drainer := Scanning(s.jobs.Keys, map[], {}))
    {
      Act(DrainBegin);
    }

    method ReadOne(j: JobId)
      requires Valid() && s.drainer.Scanning? && j in s.drainer.todo && j in s.jobs
      modifies this`s, this`trace, this`since
      ensures Valid() && trace == old(trace) + [s] && since == old(since)
      ensures s == old(s).(drainer := old(s.drainer).(todo := old(s.drainer.todo) - {j},
                                                      copies := old(s.drainer.copies)[j := old(s.jobs)[j]]))
    {
      Act(ReadEntry(j));
    }

    /** Count one entry by its copy; its real occupancy is missed iff it is torn. */
    method CountOne(j: JobId)
      requires Valid() && s.drainer.Scanning? && j in s.drainer.copies
      modifies this`s, this`trace, this`since
      ensures Valid() && trace == old(trace) + [s] && since == old(since) && SameWorld(old(s), s) && s.drainer.Scanning?
      ensures s.drainer.todo == old(s.drainer.todo) && s.drainer.copies == old(s.drainer.copies) - {j}
      ensures s.drainer.counted == (if OccupiesSlot(old(s.drainer.copies)[j], s.now, s.dead)
                                    then old(s.drainer.counted) + {j} else old(s.drainer.counted))
    {
      CopiesHaveRecords(s);
      Act(EvaluateEntry(j));
    }

    method LeaveScan() returns (running: nat)
      requires Valid() && s.drainer.Scanning? && s.drainer.todo == {} && s.drainer.copies.Keys == {}
      modifies this`s, this`trace, this`since
      ensures Valid() && trace == old(trace) + [s] && since == old(since) && running == |old(s.drainer.counted)|
      ensures s == old(s).(drainer := Draining(s.pool - running))
    {
      hide PoolInv, IsRun, AtRest, Next;
      running := |s.drainer.counted|;
      ScanEnds(s);
      Act(ScanDone);
    }

    method TakeEntry(j: JobId)
      requires Valid() && j in s.jobs && s.drainer.Draining? && s.drainer.capacity > 0
      modifies this`s, this`trace, this`since
      ensures Valid() && trace == old(trace) + [s] && since == old(since)
      ensures s == old(s).(drainer := Starting(j, old(s.jobs)[j], old(s.drainer.capacity)))
    {
      Act(StartRead(j));
    }

    method SkipEntry()
      requires Valid() && s.drainer.Starting? && !IsLaunchable(s.drainer.copy, s.now, s.dead)
      modifies this`s, this`trace, this`since
      ensures Valid() && trace == old(trace) + [s] && since == old(since)
      ensures s == old(s).(drainer := Draining(old(s.drainer.capacity)))
    {
      Act(SkipStart);
    }

    /** A launcher that raised fails the record unless it has left the queue. */
    method FailEntry()
      requires Valid() && s.drainer.Starting? && IsLaunchable(s.drainer.copy, s.now, s.dead)
      modifies this`s, this`trace, this`since
      ensures Valid() && trace == old(trace) + [s] && s.now == old(s.now) && s.dead == old(s.dead)
      ensures s.pool == old(s.pool) && s.drainer == Draining(old(s.drainer.capacity))
      ensures old(s.drainer.job) in old(s.jobs)
      ensures var j := old(s.drainer.job);
              s.jobs == (if old(s.jobs)[j].status.Queued? then old(s.jobs)[j := old(s.jobs)[j].(status := Failed)]
                         else old(s.jobs))
    {
      Act(LaunchFails);
    }

    method LaunchEntry(w: WorkerId, pid: int, reported: bool)
      requires Valid() && s.drainer.Starting? && IsLaunchable(s.drainer.copy, s.now, s.dead)
      requires w !in s.workers && !Remembered(s, pid)
      modifies this`s, this`trace, this`since, this`launches
      ensures Valid() && trace == old(trace) + [s] && launches == old(launches) + [old(s.drainer.job)]
      ensures s.pool == old(s.pool) && s.jobs == old(s.jobs) && s.now == old(s.now)
      ensures s.dead == old(s.dead) - {pid}
      ensures s.workers == old(s.workers)[w := Worker(old(s.drainer.job), pid, reported, None, Fresh)]
      ensures s.drainer
           == Launched(old(s.drainer.job), w, if reported then Some(pid) else None, old(s.drainer.capacity))
    {
      launches := launches + [s.drainer.job];
      Act(Launch(w, pid, reported));
    }

    /** Stamp the claim; a worker that was faster keeps its own record. */
    method ClaimEntry()
      requires Valid() && s.drainer.Launched?
      modifies this`s, this`trace, this`since
      ensures Valid() && trace == old(trace) + [s] && s.now == old(s.now) && s.dead == old(s.dead)
      ensures s.pool == old(s.pool) && s.drainer == Draining(old(s.drainer.capacity) - 1)
      ensures old(s.drainer.job) in old(s.jobs)
      ensures var j := old(s.drainer.job);
              s.jobs == Put(old(s.jobs), j, ClaimedRecord(old(s.jobs)[j], old(s.drainer.pid), s.now))
    {
      Act(Claim);
    }

    method LeaveQueue()
      requires Valid() && s.drainer.Draining?
      modifies this`s, this`trace, this`since
      ensures Valid() && trace == old(trace) + [s] && since == old(since) && s == old(s).(drainer := NoDrainer)
    {
      Act(DrainEnd);
    }

    // ---- queue_snapshot ----

    /** Read one of the records still to be read. */
    method ReadNext(ghost from: nat, ghost readAt: Moments) returns (ghost at: Moments)
      requires Valid() && s.drainer.Scanning? && s.drainer.todo != {} && s.drainer.todo <= s.jobs.Keys
      requires from < |trace| && CopiesOf(trace, from, s.drainer.copies, readAt)
      modifies this`s, this`trace, this`since, this`tick
      ensures Valid() && old(trace) <= trace && s.pool == old(s.pool) && s.drainer.Scanning?
      ensures s.drainer.counted == old(s.drainer.counted)
      ensures s.drainer.todo < old(s.drainer.todo) && s.drainer.todo <= s.jobs.Keys
      ensures s.drainer.todo + s.drainer.copies.Keys == old(s.drainer.todo + s.drainer.copies.Keys)
      ensures CopiesOf(trace, from, s.drainer.copies, at)
      ensures Quiet() ==> since == old(since)
    {
      hide Quiet, PoolInv, IsRun, AtRest, CopiesOf;
      Interfere();
      CopiesStay(old(trace), trace, from, s.drainer.copies, readAt);
      var j :| j in s.drainer.todo;
      KeysMoved(s.drainer.todo, s.drainer.copies, j, s.jobs[j]);
      CopyAdded(trace, from, s.drainer.copies, readAt, j);
      at := readAt[j := |trace| - 1];
      ghost var before := trace;
      ReadOne(j);
      CopiesStay(before, trace, from, s.drainer.copies, at);
    }

    /** `_entries`: every record of the listing is read, one after the other. */
    method ReadEntries() returns (entries: map<JobId, Record>, ghost readAt: Moments)
      requires Valid() && s.drainer.NoDrainer?
      modifies this`s, this`trace, this`since, this`tick
      ensures Valid() && old(trace) <= trace && s.drainer == Scanning({}, entries, {}) && s.pool == old(s.pool)
      ensures entries.Keys == old(s.jobs).Keys && CopiesOf(trace, |old(trace)| - 1, entries, readAt)
      ensures Quiet() ==> since == old(since) && entries == old(s.jobs)
    {
      hide Quiet, PoolInv, IsRun;
      ghost var from := |trace| - 1;
      EnterQueue();
      readAt := map[];
      while s.drainer.todo != {}
        invariant Valid() && old(trace) <= trace && s.pool == old(s.pool) && s.drainer.Scanning?
        invariant s.drainer.todo <= s.jobs.Keys && s.drainer.counted == {}
        invariant s.drainer.todo + s.drainer.copies.Keys == old(s.jobs).Keys
        invariant CopiesOf(trace, from, s.drainer.copies, readAt)
        invariant Quiet() ==> since == old(since)
        decreases s.drainer.todo
      {
        readAt := ReadNext(from, readAt);
      }
      entries := s.drainer.copies;
      if since == old(since) {
        CopiesAtRest(trace, since, from, entries, readAt);
      }
    }

    /** One entry's turn in the list of waiting entries. */
    method JudgeNext(entries: map<JobId, Record>, ghost from: nat, ghost seenAt: Moments, found: seq<Entry>, j: JobId)
      returns (more: seq<Entry>, ghost at: Moments)
      requires Valid() && j in entries && j !in seenAt && from < |trace|
      requires Within(trace, from, seenAt) && FoundIs(trace, entries, seenAt, created, found)
      modifies this`s, this`trace, this`since, this`tick
      ensures Valid() && old(trace) <= trace && s.drainer == old(s.drainer) && s.pool == old(s.pool)
      ensures at.Keys == seenAt.Keys + {j} && Within(trace, from, at) && FoundIs(trace, entries, at, created, more)
      ensures Quiet() ==> s == old(s) && since == old(since)
    {
      hide Quiet, PoolInv, IsRun, AtRest, FoundIs;
      Interfere();
      FoundStays(old(trace), trace, entries, seenAt, created, found);
      OneMoreFound(trace, entries, seenAt, created, found, j);
      at := seenAt[j := |trace| - 1];
      more := found;
      if IsLaunchable(entries[j], s.now, s.dead) {
        more := found + [EntryOf(j, entries[j], created)];
      }
    }

    /** The launchable entries, by (due_at or created_at, job_id): each is judged
        by its copy, at its own moment. */
    method WaitingEntries(entries: map<JobId, Record>) returns (waiting: seq<Entry>, ghost seenAt: Moments)
      requires Valid()
      modifies this`s, this`trace, this`since, this`tick
      ensures Valid() && old(trace) <= trace && s.drainer == old(s.drainer) && s.pool == old(s.pool)
      ensures Covers(trace, |old(trace)| - 1, entries, seenAt)
      ensures WaitingIs(trace, entries, seenAt, created, waiting)
      ensures Quiet() ==> s == old(s) && since == old(since)
    {
      hide Quiet, PoolInv, IsRun, FoundIs;
      ghost var from := |trace| - 1;
      var rest, found := entries.Keys, [];
      seenAt := map[];
      NoneFound(trace, entries, created);
      while rest != {}
        invariant Valid() && old(trace) <= trace && s.drainer == old(s.drainer) && s.pool == old(s.pool)
        invariant rest <= entries.Keys && seenAt.Keys == entries.Keys - rest
        invariant Within(trace, from, seenAt) && FoundIs(trace, entries, seenAt, created, found)
        invariant Quiet() ==> s == old(s) && since == old(since)
        decreases rest
      {
        var j :| j in rest;
        found, seenAt := JudgeNext(entries, from, seenAt, found, j);
        rest := rest - {j};
      }
      waiting := Sort(KeyLe, found);
      FoundSorted(trace, entries, seenAt, created, found);
    }

    /** Judge one of the entries still to be judged. */
    method CountNext(ghost entries: map<JobId, Record>, ghost from: nat, ghost countedAt: Moments)
      returns (ghost at: Moments)
      requires Valid() && s.drainer.Scanning? && s.drainer.todo == {} && s.drainer.copies.Keys != {}
      requires from < |trace| && Counting(trace, from, entries, s.drainer, countedAt)
      modifies this`s, this`trace, this`since, this`tick
      ensures Valid() && old(trace) <= trace && s.pool == old(s.pool) && s.drainer.Scanning?
      ensures s.drainer.todo == {} && s.drainer.copies.Keys < old(s.drainer.copies.Keys)
      ensures old(s.jobs).Keys <= s.jobs.Keys && Counting(trace, from, entries, s.drainer, at)
      ensures Quiet() ==> since == old(since)
    {
      hide Quiet, PoolInv, IsRun, AtRest, SlotHolders;
      Interfere();
      CountingStays(old(trace), trace, from, entries, s.drainer, countedAt);
      var j :| j in s.drainer.copies.Keys;
      ghost var before, d := trace, s.drainer;
      at := countedAt[j := |trace| - 1];
      CountingGrows(trace, from, entries, d, countedAt, j);
      CountOne(j);
      CountingStays(before, trace, from, entries, s.drainer, at);
    }

    /** The running count: each entry is judged by its copy, at its own moment. */
    method CountRunning(entries: map<JobId, Record>) returns (running: nat, ghost countedAt: Moments)
      requires Valid() && s.drainer == Scanning({}, entries, {})
      modifies this`s, this`trace, this`since, this`tick
      ensures Valid() && old(trace) <= trace && s.pool == old(s.pool) && s.drainer == Draining(s.pool - running)
      ensures entries.Keys <= s.jobs.Keys && Covers(trace, |old(trace)| - 1, entries, countedAt)
      ensures running == |SlotHolders(trace, entries, countedAt)|
      ensures Quiet() ==> since == old(since)
    {
      hide Quiet, PoolInv, IsRun, AtRest, SlotHolders;
      CopiesHaveRecords(s);
      ghost var from := |trace| - 1;
      countedAt := map[];
      CountingStarts(trace, from, entries);
      while s.drainer.copies.Keys != {}
        invariant Valid() && old(trace) <= trace && s.pool == old(s.pool) && s.drainer.Scanning?
        invariant s.drainer.todo == {} && entries.Keys <= s.jobs.Keys
        invariant Counting(trace, from, entries, s.drainer, countedAt)
        invariant Quiet() ==> since == old(since)
        decreases s.drainer.copies.Keys
      {
        countedAt := CountNext(entries, from, countedAt);
      }
      ghost var before := trace;
      running := LeaveScan();
      MomentsStay(before, trace, from, entries, countedAt);
    }

    /** List, read and judge. */
    method ListWaiting()
      returns (entries: map<JobId, Record>, waiting: seq<Entry>, ghost readAt: Moments, ghost seenAt: Moments)
      requires Valid() && s.drainer.NoDrainer?
      modifies this`s, this`trace, this`since, this`tick
      ensures Valid() && old(trace) <= trace && s.pool == old(s.pool) && s.drainer == Scanning({}, entries, {})
      ensures ListIs(trace, |old(trace)| - 1, created, entries, waiting, readAt, seenAt)
      ensures Quiet() ==> since == old(since)
    {
      hide Quiet, PoolInv, IsRun, AtRest, CopiesOf, Covers, WaitingIs;
      assert trace[|trace| - 1].jobs == s.jobs;
      entries, readAt := ReadEntries();
      ghost var read := trace;
      waiting, seenAt := WaitingEntries(entries);
      ListMade(read, trace, |old(trace)| - 1, created, entries, waiting, readAt, seenAt);
    }

    /** List, read, judge and count. */
    method TakeView() returns (v: View, ghost m: Sightings)
      requires Valid() && s.drainer.NoDrainer?
      modifies this`s, this`trace, this`since, this`tick
      ensures Valid() && old(trace) <= trace && s.pool == old(s.pool) && s.drainer == Draining(s.pool - v.running)
      ensures m.listedAt == |old(trace)| - 1 && ViewIs(trace, created, v, m) && v.entries.Keys <= s.jobs.Keys
      ensures Quiet() ==> since == old(since)
    {
      hide Quiet, PoolInv, IsRun, AtRest, Covers, SlotHolders, ViewIs, ListIs;
      var entries, waiting, readAt, seenAt := ListWaiting();
      ghost var listed := trace;
      var running, countedAt := CountRunning(entries);
      v, m := View(entries, waiting, running), Sightings(|old(trace)| - 1, readAt, seenAt, countedAt);
      ViewMade(listed, trace, created, v, m);
    }

    /** `queue_snapshot`: the waiting entries are judged before the count. */
    method Snapshot() returns (v: View, ghost m: Sightings)
      requires Valid() && s.drainer.NoDrainer?
      modifies this`s, this`trace, this`since, this`tick
      ensures Valid() && old(trace) <= trace && s.pool == old(s.pool) && s.drainer == Draining(s.pool - v.running)
      ensures m.listedAt == |old(trace)| - 1 && ViewIs(trace, created, v, m) && Startable(s, v.waiting)
      ensures Quiet() ==> QuietView(old(s), created, v) && AllReady(s, v.waiting, 0) && SameWorld(old(s), s)
    {
      hide Quiet, PoolInv, IsRun, AtRest, ViewIs, QuietView, Startable, AllReady;
      v, m := TakeView();
      WaitingJobs(trace, s, created, v, m);
      if since == old(since) {
        ViewAtRest(trace, since, created, v, m);
      }
    }

    // ---- _start and the loop of drain ----

    /** The launched worker may be faster than the claim that follows. */
    method LaunchAndClaim(outcome: LaunchOutcome)
      requires Valid() && s.drainer.Starting? && IsLaunchable(s.drainer.copy, s.now, s.dead)
      requires outcome.Starts? && outcome.w !in s.workers && !Remembered(s, outcome.pid)
      modifies this`s, this`trace, this`since, this`tick, this`launches
      ensures Valid() && old(trace) <= trace && s.pool == old(s.pool) && old(s.jobs).Keys <= s.jobs.Keys
      ensures s.drainer == Draining(old(s.drainer.capacity) - 1)
      ensures launches == old(launches) + [old(s.drainer.job)]
      ensures Quiet() ==> OthersReady(old(s), s, old(s.drainer.job))
      ensures Quiet() && IsQueued(old(s), old(s.drainer.job)) ==>
        Settles(old(s), s, {old(s.drainer.job)}, {old(s.drainer.job)})
    {
      hide Quiet, PoolInv, IsRun, AtRest;
      LaunchEntry(outcome.w, outcome.pid, outcome.reported);
      Interfere();
      ClaimEntry();
    }

    /** `_start`: False means the job did not start. A launch that failed has taken
        the record out of the queue. */
    method Start(j: JobId) returns (ok: bool, ghost judgedAt: nat)
      requires LauncherOk()
      requires Valid() && j in s.jobs && s.drainer.Draining? && s.drainer.capacity > 0
      modifies this`s, this`trace, this`since, this`tick, this`launches
      ensures Valid() && old(trace) <= trace && s.pool == old(s.pool) && old(s.jobs).Keys <= s.jobs.Keys
      ensures s.drainer == Draining(if ok then old(s.drainer.capacity) - 1 else old(s.drainer.capacity))
      ensures launches == (if ok then old(launches) + [j] else old(launches))
      ensures |old(trace)| <= judgedAt < |trace|
      ensures var judged := trace[judgedAt];
        (ok <==> IsLaunchable(old(s.jobs)[j], judged.now, judged.dead) && launcher(judged).Starts?)
      ensures !ok && IsLaunchable(old(s.jobs)[j], trace[judgedAt].now, trace[judgedAt].dead) ==> !s.jobs[j].status.Queued?
      ensures Quiet() ==> OthersReady(old(s), s, j) && Settles(old(s), s, if ok then {j} else {}, {j})
      ensures Quiet() && AlwaysStarts() && Ready(old(s), j) ==> ok
    {
      hide PoolInv, IsRun, AtRest;
      TakeEntry(j);
      Interfere();
      judgedAt := |trace| - 1;
      if !IsLaunchable(s.drainer.copy, s.now, s.dead) {
        SkipEntry();
        return false, judgedAt;
      }
      var outcome := launcher(s);
      if outcome.Raises? {
        FailEntry();
        return false, judgedAt;
      }
      LaunchAndClaim(outcome);
      return true, judgedAt;
    }

    /** The next entry's turn, after everyone else has acted. */
    method StartNext(e: Entry) returns (ok: bool, ghost t: Try)
      requires LauncherOk()
      requires Valid() && e.job in s.jobs && s.drainer.Draining? && s.drainer.capacity > 0
      modifies this`s, this`trace, this`since, this`tick, this`launches
      ensures Valid() && old(trace) <= trace && s.pool == old(s.pool) && old(s.jobs).Keys <= s.jobs.Keys
      ensures s.drainer == Draining(if ok then old(s.drainer.capacity) - 1 else old(s.drainer.capacity))
      ensures launches == (if ok then old(launches) + [e.job] else old(launches))
      ensures TryOk(trace, |old(trace)| - 1, launcher, t) && t.entry == e && t.ok == ok
      ensures Quiet() ==> OthersReady(old(s), s, e.job) && Settles(old(s), s, if ok then {e.job} else {}, {e.job})
      ensures Quiet() && AlwaysStarts() && Ready(old(s), e.job) ==> ok
    {
      hide LauncherOk, AlwaysStarts, Quiet, PoolInv, IsRun, AtRest, Ready, IsLaunchable, OthersReady;
      Interfere();
      ghost var readAt := |trace| - 1;
      ghost var judgedAt;
      ok, judgedAt := Start(e.job);
      t := Try(e, readAt, judgedAt, ok);
    }

    /** Entry `n` of the waiting list has its turn. */
    method TryNext(waiting: seq<Entry>, n: nat, ghost from: nat, ghost tries: seq<Try>)
      returns (ok: bool, ghost more: seq<Try>)
      requires LauncherOk()
      requires Valid() && s.drainer.Draining? && s.drainer.capacity > 0 && from < |trace|
      requires n < |waiting| && Startable(s, waiting)
      requires Tried(tries) == waiting[..n] && TriesOk(trace, from, launcher, tries)
      modifies this`s, this`trace, this`since, this`tick, this`launches
      ensures Valid() && old(trace) <= trace && s.pool == old(s.pool) && Startable(s, waiting)
      ensures s.drainer == Draining(if ok then old(s.drainer.capacity) - 1 else old(s.drainer.capacity))
      ensures launches == (if ok then old(launches) + [waiting[n].job] else old(launches))
      ensures Tried(more) == waiting[..n + 1] && TriesOk(trace, from, launcher, more)
      ensures Succeeded(more) == (if ok then Succeeded(tries) + [waiting[n]] else Succeeded(tries))
      ensures Quiet() && AlwaysStarts() && AllReady(old(s), waiting, n) ==> ok && AllReady(s, waiting, n + 1)
      ensures Quiet() ==> Settles(old(s), s, if ok then {waiting[n].job} else {}, {waiting[n].job})
    {
      hide LauncherOk, AlwaysStarts, Quiet, PoolInv, IsRun, AtRest, TryOk, TriesOk, Ready, OthersReady, Settles;
      ghost var t;
      ok, t := StartNext(waiting[n]);
      OneMoreTry(waiting, n, tries, t);
      MoreTriesOk(old(trace), trace, from, launcher, tries, t);
      StillReady(old(s), s, waiting, n);
      more := tries + [t];
    }

    /** The loop over the waiting entries: each is tried in its turn until the pool
        has no room. */
    method StartWaiting(waiting: seq<Entry>, capacity: int)
      returns (launched: seq<Entry>, started: nat, ghost tries: seq<Try>)
      requires LauncherOk()
      requires Valid() && s.drainer == Draining(capacity) && Startable(s, waiting)
      modifies this`s, this`trace, this`since, this`tick, this`launches
      ensures Valid() && old(trace) <= trace && s.drainer.Draining? && s.pool == old(s.pool)
      ensures Tried(tries) <= waiting && TriesOk(trace, |old(trace)| - 1, launcher, tries)
      ensures launched == Succeeded(tries) && started == |launched| <= Room(capacity)
      ensures Tried(tries) == waiting || started == Room(capacity)
      ensures launches == old(launches) + Jobs(launched)
      ensures Quiet() && AlwaysStarts() && AllReady(old(s), waiting, 0) ==> launched == Tried(tries)
      ensures Quiet() ==> Settles(old(s), s, JobSet(launched), JobSet(Tried(tries)))
    {
      hide LauncherOk, AlwaysStarts, Quiet, PoolInv, IsRun, AtRest, TriesOk, AllReady, Startable, Jobs, Settles, JobSet;
      hide Tried, Succeeded, Ready;
      launched, started, tries := [], 0, [];
      var remaining, n := capacity, 0;
      ghost var from := |trace| - 1;
      NothingTried(trace, from, launcher, s);
      while n < |waiting| && remaining > 0
        invariant Valid() && old(trace) <= trace && s.drainer == Draining(remaining) && s.pool == old(s.pool)
        invariant n <= |waiting| && Tried(tries) == waiting[..n] && launched == Succeeded(tries)
        invariant Startable(s, waiting) && TriesOk(trace, from, launcher, tries)
        invariant started == |launched| && remaining == capacity - started && started <= Room(capacity)
        invariant launches == old(launches) + Jobs(launched)
        invariant JobSet(launched) <= JobSet(waiting[..n])
        invariant Quiet() ==> Settles(old(s), s, JobSet(launched), JobSet(waiting[..n]))
        invariant Quiet() && AlwaysStarts() && AllReady(old(s), waiting, 0) ==>
                    AllReady(s, waiting, n) && launched == waiting[..n]
        decreases |waiting| - n
      {
        ghost var before := s;
        var ok;
        ok, tries := TryNext(waiting, n, from, tries);
        JobsAppend(launched, waiting[n]);
        SettlesMore(old(s), before, s, waiting, n, launched, ok);
        if ok {
          launched := launched + [waiting[n]];
          remaining := remaining - 1;
          started := started + 1;
        }
        n := n + 1;
      }
      assert waiting[..|waiting|] == waiting;
    }

    /** Start what the view has room for and leave the queue. */
    method StartView(v: View) returns (launched: seq<Entry>, started: nat, ghost tries: seq<Try>)
      requires LauncherOk()
      requires Valid() && s.drainer == Draining(s.pool - v.running) && Startable(s, v.waiting)
      modifies this`s, this`trace, this`since, this`tick, this`launches
      ensures Valid() && old(trace) <= trace && s.drainer.NoDrainer? && s.pool == old(s.pool)
      ensures TriesOk(trace, |old(trace)| - 1, launcher, tries) && launched == Succeeded(tries)
      ensures FollowsOrder(v.waiting, Tried(tries), launched) && started == |launched| <= Room(s.pool - v.running)
      ensures Tried(tries) == v.waiting || started == Room(s.pool - v.running)
      ensures launches == old(launches) + Jobs(launched)
      ensures Quiet() && AlwaysStarts() && AllReady(old(s), v.waiting, 0) ==> launched == Tried(tries)
      ensures Quiet() ==> Settles(old(s), s, JobSet(launched), JobSet(Tried(tries)))
    {
      hide LauncherOk, AlwaysStarts, Quiet, PoolInv, IsRun, AtRest, TriesOk, FollowsOrder, AllReady, Startable, Tried, Succeeded;
      hide JobSet;
      launched, started, tries := StartWaiting(v.waiting, s.pool - v.running);
      ghost var tried := trace;
      LeaveQueue();
      TriesStay(tried, trace, |old(trace)| - 1, |old(trace)| - 1, launcher, tries);
      StartedInOrder(old(s), v.waiting, tries);
    }

    /** Jobs start in order while the pool has room. Left alone with a launcher that
        works, a drain launches exactly the first launchable jobs that fit. */
    method Drain() returns (v: View, launched: seq<Entry>, started: nat, ghost m: Sightings, ghost tries: seq<Try>)
      requires LauncherOk()
      requires Valid() && s.drainer.NoDrainer?
      modifies this`s, this`trace, this`since, this`tick, this`launches
      ensures Valid() && old(trace) <= trace && s.drainer.NoDrainer? && s.pool == old(s.pool)
      ensures |old(trace)| - 1 <= m.listedAt && ViewIs(trace, created, v, m)
      ensures TriesOk(trace, |old(trace)| - 1, launcher, tries) && launched == Succeeded(tries)
      ensures FollowsOrder(v.waiting, Tried(tries), launched) && started == |launched| <= Room(s.pool - v.running)
      ensures Tried(tries) == v.waiting || started == Room(s.pool - v.running)
      ensures launches == old(launches) + Jobs(launched)
      ensures Quiet() ==> QuietView(old(s), created, v) && Settles(old(s), s, JobSet(launched), JobSet(Tried(tries)))
      ensures Quiet() && AlwaysStarts() ==> launched == Take(v.waiting, Room(s.pool - v.running))
      ensures OldestFirst(v, created) && (Quiet() ==> NobodyForgotten(old(s), v.waiting))
    {
      hide LauncherOk, AlwaysStarts, Quiet, PoolInv, IsRun, AtRest, TriesOk, ViewIs, QuietView, FollowsOrder, AllReady, Startable, Tried, Succeeded;
      hide JobSet, OldestFirst, NobodyForgotten;
      Interfere();
      v, m := Snapshot();
      ghost var before := trace;
      launched, started, tries := StartView(v);
      ViewStays(before, trace, created, v, m);
      TriesStay(trace, trace, |before| - 1, |old(trace)| - 1, launcher, tries);
      WaitingOldestFirst(trace, created, v, m);
      QuietForgetsNobody(old(s), created, v);
      if launched == Tried(tries) {
        AllStarted(v.waiting, launched, Room(s.pool - v.running));
      }
    }
  }

  // ---- What a view says --------------------------------------------------

  // queue_snapshot's result, with the entries it was taken from.
  datatype View = View(entries: map<JobId, Record>, waiting: seq<Entry>, running: nat)

  // When the records were listed, and each read, judged launchable and counted.
  datatype Sightings = Sightings(listedAt: nat, readAt: Moments, seenAt: Moments, countedAt: Moments)

  /** Every listed record was read once. The waiting list is exactly those
      launchable when judged, in order; the count is exactly those that held a slot
      when they were counted. */
  ghost predicate ViewIs(trace: seq<State>, created: JobId -> int, v: View, m: Sightings) {
    && ListIs(trace, m.listedAt, created, v.entries, v.waiting, m.readAt, m.seenAt)
    && Covers(trace, m.listedAt, v.entries, m.countedAt)
    && v.running == |SlotHolders(trace, v.entries, m.countedAt)|
  }

  ghost predicate ListIs(trace: seq<State>, listedAt: nat, created: JobId -> int, entries: map<JobId, Record>,
                         waiting: seq<Entry>, readAt: Moments, seenAt: Moments)
  {
    && listedAt < |trace| && entries.Keys == trace[listedAt].jobs.Keys
    && CopiesOf(trace, listedAt, entries, readAt)
    && Covers(trace, listedAt, entries, seenAt) && WaitingIs(trace, entries, seenAt, created, waiting)
  }

  /** The view of a store nobody else touches. */
  ghost predicate QuietView(s: State, created: JobId -> int, v: View) {
    && v.entries == s.jobs && v.running == |Occupied(s)|
    && Ordered(KeyLe, v.waiting) && DistinctEntries(v.waiting)
    && (forall e :: e in v.waiting <==> Ready(s, e.job) && e == EntryOf(e.job, s.jobs[e.job], created))
  }

  /** By the records' own fields: earlier due first, undue ones by creation, then by
      job id. */
  ghost predicate OldestFirst(v: View, created: JobId -> int) {
    && (forall i :: 0 <= i < |v.waiting| ==>
          var e := v.waiting[i];
          && e.job in v.entries
          && (v.entries[e.job].dueAt.Some? ==> v.entries[e.job].dueAt.value == e.when)
          && (v.entries[e.job].dueAt.None? ==> created(e.job) == e.when))
    && (forall i, k :: 0 <= i < k < |v.waiting| ==>
          || v.waiting[i].when < v.waiting[k].when
          || (v.waiting[i].when == v.waiting[k].when && v.waiting[i].job < v.waiting[k].job))
  }

  ghost predicate HasEntry(waiting: seq<Entry>, j: JobId) {
    exists e :: e in waiting && e.job == j
  }

  /** By the records' own fields: a queued job waits unless the worker it was launched
      for may still come, which a pid not confirmed absent says, or without a pid a
      launch no older than the grace. */
  ghost predicate NobodyForgotten(s: State, waiting: seq<Entry>) {
    forall j :: j in s.jobs ==>
      var r := s.jobs[j];
      (HasEntry(waiting, j) <==>
         && r.status.Queued?
         && !(r.workerPid.Some? && r.workerPid.value !in s.dead)
         && !(r.workerPid.None? && r.launchedAt.Some? && s.now <= r.launchedAt.value + LAUNCH_GRACE_SECONDS))
  }

  lemma WaitingOldestFirst(trace: seq<State>, created: JobId -> int, v: View, m: Sightings)
    requires ViewIs(trace, created, v, m)
    ensures OldestFirst(v, created)
  {
    forall i | 0 <= i < |v.waiting|
      ensures v.waiting[i].job in v.entries
      ensures v.waiting[i] == EntryOf(v.waiting[i].job, v.entries[v.waiting[i].job], created)
    {
      assert v.waiting[i] in v.waiting;
    }
    forall i, k | 0 <= i < k < |v.waiting|
      ensures v.waiting[i] != v.waiting[k] && KeyLe(v.waiting[i], v.waiting[k])
    {
    }
  }

  lemma QuietForgetsNobody(s: State, created: JobId -> int, v: View)
    ensures QuietView(s, created, v) ==> NobodyForgotten(s, v.waiting)
  {
    if QuietView(s, created, v) {
      forall j | j in s.jobs
        ensures HasEntry(v.waiting, j) <==> Ready(s, j)
      {
        assert EntryOf(j, s.jobs[j], created) in v.waiting <==> Ready(s, j);
      }
      forall j | j in s.jobs && s.jobs[j].status.Queued?
        ensures Ready(s, j) <==> IsLaunchable(s.jobs[j], s.now, s.dead)
      {
        QueuedHoldsOrWaits(s.jobs[j], s.now, s.dead);
      }
    }
  }

  lemma ViewStays(trace: seq<State>, longer: seq<State>, created: JobId -> int, v: View, m: Sightings)
    requires trace <= longer && ViewIs(trace, created, v, m)
    ensures ViewIs(longer, created, v, m)
  {
    ListStays(trace, longer, m.listedAt, created, v.entries, v.waiting, m.readAt, m.seenAt);
    MomentsStay(trace, longer, m.listedAt, v.entries, m.countedAt);
  }

  lemma ListMade(read: seq<State>, trace: seq<State>, listedAt: nat, created: JobId -> int,
                 entries: map<JobId, Record>, waiting: seq<Entry>, readAt: Moments, seenAt: Moments)
    requires listedAt < |read| && read <= trace && entries.Keys == read[listedAt].jobs.Keys
    requires CopiesOf(read, listedAt, entries, readAt)
    requires Covers(trace, |read| - 1, entries, seenAt) && WaitingIs(trace, entries, seenAt, created, waiting)
    ensures ListIs(trace, listedAt, created, entries, waiting, readAt, seenAt)
  {
    CopiesStay(read, trace, listedAt, entries, readAt);
  }

  lemma ListStays(trace: seq<State>, longer: seq<State>, listedAt: nat, created: JobId -> int,
                  entries: map<JobId, Record>, waiting: seq<Entry>, readAt: Moments, seenAt: Moments)
    requires trace <= longer && ListIs(trace, listedAt, created, entries, waiting, readAt, seenAt)
    ensures ListIs(longer, listedAt, created, entries, waiting, readAt, seenAt)
  {
    MomentsStay(trace, longer, listedAt, entries, readAt);
    MomentsStay(trace, longer, listedAt, entries, seenAt);
    FoundStays(trace, longer, entries, seenAt, created, waiting);
  }

  lemma ViewMade(listed: seq<State>, trace: seq<State>, created: JobId -> int, v: View, m: Sightings)
    requires m.listedAt < |listed| && listed <= trace
    requires ListIs(listed, m.listedAt, created, v.entries, v.waiting, m.readAt, m.seenAt)
    requires Covers(trace, |listed| - 1, v.entries, m.countedAt)
    requires v.running == |SlotHolders(trace, v.entries, m.countedAt)|
    ensures ViewIs(trace, created, v, m)
  {
    ListStays(listed, trace, m.listedAt, created, v.entries, v.waiting, m.readAt, m.seenAt);
  }

  lemma ViewAtRest(trace: seq<State>, since: nat, created: JobId -> int, v: View, m: Sightings)
    requires AtRest(trace, since) && since <= m.listedAt && ViewIs(trace, created, v, m)
    ensures QuietView(trace[m.listedAt], created, v)
    ensures AllReady(trace[|trace| - 1], v.waiting, 0) && SameWorld(trace[m.listedAt], trace[|trace| - 1])
  {
    CopiesAtRest(trace, since, m.listedAt, v.entries, m.readAt);
    HoldersAtRest(trace, since, m.listedAt, m.countedAt);
    WaitingAtRest(trace, since, m.listedAt, m.seenAt, created, v.waiting);
    assert SameWorld(trace[since], trace[m.listedAt]) && SameWorld(trace[since], trace[|trace| - 1]);
    assert forall k :: 0 <= k < |v.waiting| ==> v.waiting[k] in v.waiting;
  }

  lemma HoldersAtRest(trace: seq<State>, since: nat, from: nat, at: Moments)
    requires AtRest(trace, since) && since <= from < |trace| && Covers(trace, from, trace[from].jobs, at)
    ensures SlotHolders(trace, trace[from].jobs, at) == Occupied(trace[from])
  {
    forall j
      ensures j in SlotHolders(trace, trace[from].jobs, at) <==> j in Occupied(trace[from])
    {
      if j in at {
        assert SameWorld(trace[since], trace[from]) && SameWorld(trace[since], trace[at[j]]);
      }
    }
  }

  lemma WaitingAtRest(trace: seq<State>, since: nat, from: nat, at: Moments, created: JobId -> int,
                      waiting: seq<Entry>)
    requires AtRest(trace, since) && since <= from < |trace| && Covers(trace, from, trace[from].jobs, at)
    requires WaitingIs(trace, trace[from].jobs, at, created, waiting)
    ensures forall e :: e in waiting <==> Ready(trace[from], e.job)
                                          && e == EntryOf(e.job, trace[from].jobs[e.job], created)
  {
    forall j
      ensures LaunchableAt(trace, trace[from].jobs, at, j) <==> Ready(trace[from], j)
    {
      if j in at {
        assert SameWorld(trace[since], trace[from]) && SameWorld(trace[since], trace[at[j]]);
      }
    }
  }

  /** An ordered list with one entry a job, each with its record. */
  ghost predicate Startable(s: State, waiting: seq<Entry>) {
    && Ordered(KeyLe, waiting) && DistinctJobs(waiting)
    && (forall k :: 0 <= k < |waiting| ==> waiting[k].job in s.jobs)
  }

  lemma WaitingJobs(trace: seq<State>, s: State, created: JobId -> int, v: View, m: Sightings)
    requires ViewIs(trace, created, v, m)
    ensures v.entries.Keys <= s.jobs.Keys ==> Startable(s, v.waiting)
  {
    forall i, j | 0 <= i < j < |v.waiting|
      ensures v.waiting[i].job != v.waiting[j].job
    {
      assert v.waiting[i] in v.waiting && v.waiting[j] in v.waiting;
    }
    forall k | 0 <= k < |v.waiting|
      ensures v.waiting[k].job in v.entries
    {
      assert v.waiting[k] in v.waiting;
    }
  }

  /** The entries judged so far hold what the drainer has counted. */
  ghost predicate Counting(trace: seq<State>, from: nat, entries: map<JobId, Record>, d: Drainer, at: Moments)
    requires d.Scanning?
  {
    && (forall j :: j in d.copies ==> j in entries && d.copies[j] == entries[j])
    && at.Keys == entries.Keys - d.copies.Keys && Within(trace, from, at)
    && d.counted == SlotHolders(trace, entries, at)
  }

  function Take<T>(xs: seq<T>, n: nat): seq<T> {
    if n <= |xs| then xs[..n] else xs
  }

  // ---- The order of the attempts -----------------------------------------

  ghost predicate DistinctJobs(entries: seq<Entry>) {
    forall i, j :: 0 <= i < j < |entries| ==> entries[i].job != entries[j].job
  }

  ghost predicate AllReady(s: State, waiting: seq<Entry>, n: nat) {
    forall k :: n <= k < |waiting| ==> Ready(s, waiting[k].job)
  }

  lemma NothingTried(trace: seq<State>, from: nat, launcher: State -> LaunchOutcome, s: State)
    ensures TriesOk(trace, from, launcher, []) && Jobs([]) == [] && Tried([]) == Succeeded([]) == []
    ensures Settles(s, s, JobSet([]), JobSet([]))
  {
  }

  /** One more entry's turn settles one more job, a new one. */
  lemma SettlesMore(start: State, before: State, after: State, waiting: seq<Entry>, n: nat, launched: seq<Entry>, ok: bool)
    requires n < |waiting| && Startable(before, waiting) && JobSet(launched) <= JobSet(waiting[..n])
    ensures var more := if ok then launched + [waiting[n]] else launched;
      && JobSet(more) <= JobSet(waiting[..n + 1])
      && (Settles(start, before, JobSet(launched), JobSet(waiting[..n]))
          && Settles(before, after, if ok then {waiting[n].job} else {}, {waiting[n].job}) ==>
            Settles(start, after, JobSet(more), JobSet(waiting[..n + 1])))
  {
    var j := waiting[n].job;
    assert waiting[..n + 1] == waiting[..n] + [waiting[n]];
    JobSetAppend(waiting[..n], waiting[n]);
    JobSetAppend(launched, waiting[n]);
    assert j !in JobSet(waiting[..n]);
    hide JobSet, Startable;
    if Settles(start, before, JobSet(launched), JobSet(waiting[..n]))
       && Settles(before, after, if ok then {j} else {}, {j}) {
      SettledTwice(start, before, after, JobSet(launched), JobSet(waiting[..n]), j, ok);
    }
  }

  lemma JobSetAppend(entries: seq<Entry>, e: Entry)
    ensures JobSet(entries + [e]) == JobSet(entries) + {e.job}
  {
    forall j
      ensures j in JobSet(entries + [e]) <==> j in JobSet(entries) + {e.job}
    {
      if j == e.job {
        assert (entries + [e])[|entries|] == e;
      }
    }
  }

  lemma SettledTwice(start: State, before: State, after: State, launched: set<JobId>, tried: set<JobId>, j: JobId,
                     ok: bool)
    requires Settles(start, before, launched, tried) && launched <= tried && j !in tried
    requires Settles(before, after, if ok then {j} else {}, {j})
    ensures Settles(start, after, if ok then launched + {j} else launched, tried + {j})
  {
  }

  lemma JobsAppend(entries: seq<Entry>, e: Entry)
    ensures Jobs(entries + [e]) == Jobs(entries) + [e.job]
  {
  }

  lemma OneMoreTry(waiting: seq<Entry>, n: nat, tries: seq<Try>, t: Try)
    requires n < |waiting| && Tried(tries) == waiting[..n] && t.entry == waiting[n]
    ensures Tried(tries + [t]) == waiting[..n + 1]
    ensures Succeeded(tries + [t]) == Succeeded(tries) + (if t.ok then [t.entry] else [])
  {
    assert (tries + [t])[..|tries|] == tries;
  }

  lemma StillReady(before: State, after: State, waiting: seq<Entry>, n: nat)
    requires n < |waiting| && Startable(before, waiting)
    ensures OthersReady(before, after, waiting[n].job) && AllReady(before, waiting, n) ==> AllReady(after, waiting, n + 1)
  {
  }

  lemma MoreTriesOk(trace: seq<State>, longer: seq<State>, from: nat, launcher: State -> LaunchOutcome, tries: seq<Try>,
                    t: Try)
    requires from < |trace| && trace <= longer && TriesOk(trace, from, launcher, tries)
    requires TryOk(longer, |trace| - 1, launcher, t)
    ensures TriesOk(longer, from, launcher, tries + [t])
  {
    TriesStay(trace, longer, from, from, launcher, tries);
  }

  lemma {:induction false} SucceededAreTried(tries: seq<Try>, waiting: seq<Entry>)
    requires Ordered(KeyLe, waiting) && Tried(tries) <= waiting
    ensures multiset(Succeeded(tries)) <= multiset(Tried(tries)) && Ordered(KeyLe, Succeeded(tries))
    decreases |tries|
  {
    if tries != [] {
      var last := |tries| - 1;
      SucceededAreTried(tries[..last], waiting);
      NextIsLast(waiting, Tried(tries[..last]), Succeeded(tries[..last]), tries[last].entry);
    }
  }

  /** Trying in order, the drain passes over no earlier entry. */
  lemma SucceededFollowOrder(waiting: seq<Entry>, tries: seq<Try>)
    requires Ordered(KeyLe, waiting) && Tried(tries) <= waiting
    ensures FollowsOrder(waiting, Tried(tries), Succeeded(tries))
  {
    SucceededAreTried(tries, waiting);
    PrefixFollowsOrder(waiting, Tried(tries), Succeeded(tries));
  }

  lemma StartedInOrder(s: State, waiting: seq<Entry>, tries: seq<Try>)
    requires Startable(s, waiting) && Tried(tries) <= waiting
    ensures FollowsOrder(waiting, Tried(tries), Succeeded(tries))
  {
    SucceededFollowOrder(waiting, tries);
  }

  lemma AllStarted(waiting: seq<Entry>, launched: seq<Entry>, room: nat)
    requires FollowsOrder(waiting, launched, launched) && |launched| <= room
    requires launched == waiting || |launched| == room
    ensures launched == Take(waiting, room)
  {
  }

  lemma MemberOf<T>(a: seq<T>, b: seq<T>, x: T)
    requires multiset(a) <= multiset(b) && x in a
    ensures x in b
  {
    assert x in multiset(a);
    assert x in multiset(b);
  }

  /** The entry attempted next is not before any launched one. */
  lemma NextIsLast(waiting: seq<Entry>, attempted: seq<Entry>, launched: seq<Entry>, e: Entry)
    requires Ordered(KeyLe, waiting) && attempted < waiting && e == waiting[|attempted|]
    requires multiset(launched) <= multiset(attempted) && Ordered(KeyLe, launched)
    ensures Ordered(KeyLe, launched + [e])
    ensures multiset(launched + [e]) <= multiset(attempted + [e]) && multiset(launched) <= multiset(attempted + [e])
  {
    forall i | 0 <= i < |launched|
      ensures KeyLe(launched[i], e)
    {
      MemberOf(launched, attempted, launched[i]);
      var k :| 0 <= k < |attempted| && attempted[k] == launched[i];
      assert waiting[k] == attempted[k];
    }
  }

  lemma PrefixFollowsOrder(waiting: seq<Entry>, attempted: seq<Entry>, launched: seq<Entry>)
    requires Ordered(KeyLe, waiting) && attempted <= waiting
    requires multiset(launched) <= multiset(attempted) && Ordered(KeyLe, launched)
    ensures FollowsOrder(waiting, attempted, launched)
  {
    forall e, l | e in waiting && l in launched && KeyLe(e, l)
      ensures e in attempted
    {
      MemberOf(launched, attempted, l);
      var k :| 0 <= k < |attempted| && attempted[k] == l;
      var i :| 0 <= i < |waiting| && waiting[i] == e;
      assert waiting[k] == l;
      if i < |attempted| {
        assert attempted[i] == e;
      } else {
        assert KeyLe(waiting[k], waiting[i]);
        assert e == l;
      }
    }
  }

  // ---- Counting and copying ----------------------------------------------

  lemma KeysMoved(todo: set<JobId>, copies: map<JobId, Record>, j: JobId, r: Record)
    requires j in todo
    ensures todo - {j} < todo && todo - {j} + copies[j := r].Keys == todo + copies.Keys
  {
    assert copies[j := r].Keys == copies.Keys + {j};
  }

  lemma ScanEnds(s: State)
    requires s.drainer.Scanning? && s.drainer.todo == {} && s.drainer.copies.Keys == {}
    ensures Enabled(s, ScanDone) && Next(s, ScanDone) == s.(drainer := Draining(s.pool - |s.drainer.counted|))
  {
    assert s.drainer.copies == map[];
  }

  lemma CopiesHaveRecords(s: State)
    requires PoolInv(s) && s.drainer.Scanning?
    ensures forall j :: j in s.drainer.copies ==> j in s.jobs
  {
  }

  lemma CopyAdded(trace: seq<State>, from: nat, copies: map<JobId, Record>, at: Moments, j: JobId)
    requires from < |trace| && CopiesOf(trace, from, copies, at) && j in trace[|trace| - 1].jobs
    ensures CopiesOf(trace, from, copies[j := trace[|trace| - 1].jobs[j]], at[j := |trace| - 1])
  {
  }

  lemma CopiesStay(trace: seq<State>, longer: seq<State>, from: nat, copies: map<JobId, Record>, at: Moments)
    requires trace <= longer && CopiesOf(trace, from, copies, at)
    ensures CopiesOf(longer, from, copies, at)
  {
    MomentsStay(trace, longer, from, copies, at);
  }

  /** Read at rest, a full snapshot is the store. */
  lemma CopiesAtRest(trace: seq<State>, since: nat, from: nat, copies: map<JobId, Record>, at: Moments)
    requires AtRest(trace, since) && since <= from < |trace| && CopiesOf(trace, from, copies, at)
    requires copies.Keys == trace[from].jobs.Keys
    ensures copies == trace[from].jobs
  {
  }

  lemma CountingStarts(trace: seq<State>, from: nat, entries: map<JobId, Record>)
    ensures Counting(trace, from, entries, Scanning({}, entries, {}), map[])
  {
  }

  lemma CountingStays(trace: seq<State>, longer: seq<State>, from: nat, entries: map<JobId, Record>, d: Drainer,
                      at: Moments)
    requires d.Scanning? && trace <= longer && Counting(trace, from, entries, d, at)
    ensures Counting(longer, from, entries, d, at)
  {
    MomentsStay(trace, longer, from, entries, at);
  }

  /** One more entry is counted by its copy. */
  lemma CountingGrows(trace: seq<State>, from: nat, entries: map<JobId, Record>, d: Drainer, at: Moments, j: JobId)
    requires from < |trace| && d.Scanning? && j in d.copies && Counting(trace, from, entries, d, at)
    ensures var s := trace[|trace| - 1];
      Counting(trace, from, entries,
               Scanning(d.todo, d.copies - {j},
                        if OccupiesSlot(d.copies[j], s.now, s.dead) then d.counted + {j} else d.counted),
               at[j := |trace| - 1])
  {
    OneMoreHeld(trace, entries, at, j);
  }
}
