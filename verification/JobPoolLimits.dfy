/**
 Two short runs of a pool of one in which two records hold a slot: a torn
 snapshot entry in a run that meets every obligation, and a recycled pid.
 Each lemma below plays a few steps; `R` stands for "some run leads here".
 */
module JobPoolLimits {
  import opened Wrappers
  import opened JobRecords
  import opened JobProtocol
  import opened JobPool

  /** Some run that meets every obligation leads from Init(1, 0) to `t`. */
  ghost predicate Reachable(t: State) {
    exists steps :: EnabledRun(Init(1, 0), steps) && AssumedRun(Init(1, 0), steps) && Exec(Init(1, 0), steps) == t
  }

  lemma {:induction false} RunThenStep(s: State, steps: seq<Step>, x: Step)
    requires EnabledRun(s, steps) && AssumedRun(s, steps)
    requires Enabled(Exec(s, steps), x) && Assumed(Exec(s, steps), x)
    ensures EnabledRun(s, steps + [x]) && AssumedRun(s, steps + [x])
    ensures Exec(s, steps + [x]) == Next(Exec(s, steps), x)
    decreases |steps|
  {
    if steps == [] {
      assert EnabledRun(Next(s, x), []);
      assert ([] + [x])[1..] == [];
    } else {
      RunThenStep(Next(s, steps[0]), steps[1..], x);
      assert (steps + [x])[1..] == steps[1..] + [x];
    }
  }

  ghost predicate Closed(R: State -> bool) {
    R(Init(1, 0)) && forall t, x :: R(t) && Enabled(t, x) && Assumed(t, x) ==> R(Next(t, x))
  }

  lemma ReachableIsClosed()
    ensures Closed(t => Reachable(t))
  {
    var o := Init(1, 0);
    assert EnabledRun(o, []) && AssumedRun(o, []) && Exec(o, []) == o;
    forall t, x | Reachable(t) && Enabled(t, x) && Assumed(t, x)
      ensures Reachable(Next(t, x))
    {
      var steps :| EnabledRun(o, steps) && AssumedRun(o, steps) && Exec(o, steps) == t;
      RunThenStep(o, steps, x);
    }
  }

  lemma Then(R: State -> bool, t: State, x: Step, next: State)
    requires Closed(R) && R(t) && Enabled(t, x) && Assumed(t, x) && next == Next(t, x)
    ensures R(next)
  {
  }

  const FRESH := NewRecord(None)
  const LAUNCHED_AS_5 := Record(Queued, Some(5), Some(0), None, NO_METADATA)
  const BEGUN_AS_5 := Record(WaitingForMemory, Some(5), Some(0), None, NO_METADATA)
  const WORKER_5 := Worker(0, 5, true, Some(0), Fresh)

  function Point(dead: set<int>, jobs: map<JobId, Record>, workers: map<WorkerId, Worker>, drainer: Drainer): State {
    State(1, 0, dead, jobs, workers, drainer, {}, map[], multiset{}, multiset{})
  }

  // ---- The first drain starts job 0 as process 5 --------------------------

  function Drained(drainer: Drainer): State {
    Point({}, map[0 := FRESH], map[], drainer)
  }

  lemma FirstRead(R: State -> bool)
    requires Closed(R)
    ensures R(Drained(Scanning({}, map[0 := FRESH], {})))
  {
    Then(R, Init(1, 0), Submit(0, None), Drained(NoDrainer));
    assert map[0 := FRESH].Keys == {0} && {0} - {0} == {};
    Then(R, Drained(NoDrainer), DrainBegin, Drained(Scanning({0}, map[], {})));
    Then(R, Drained(Scanning({0}, map[], {})), ReadEntry(0), Drained(Scanning({}, map[0 := FRESH], {})));
  }

  lemma FirstScan(R: State -> bool)
    requires Closed(R) && R(Drained(Scanning({}, map[0 := FRESH], {})))
    ensures R(Drained(Draining(1)))
  {
    assert map[0 := FRESH] - {0} == map[];
    Then(R, Drained(Scanning({}, map[0 := FRESH], {})), EvaluateEntry(0), Drained(Scanning({}, map[], {})));
    Then(R, Drained(Scanning({}, map[], {})), ScanDone, Drained(Draining(1)));
  }

  lemma FirstLaunch(R: State -> bool)
    requires Closed(R) && R(Drained(Draining(1)))
    ensures R(Point({}, map[0 := FRESH], map[0 := WORKER_5.(claimedAt := None)], Launched(0, 0, Some(5), 1)))
  {
    Then(R, Drained(Draining(1)), StartRead(0), Drained(Starting(0, FRESH, 1)));
    assert {} - {5} == {};
    Then(R, Drained(Starting(0, FRESH, 1)), Launch(0, 5, true),
         Point({}, map[0 := FRESH], map[0 := WORKER_5.(claimedAt := None)], Launched(0, 0, Some(5), 1)));
  }

  function Launched5(dead: set<int>, workers: map<WorkerId, Worker>, drainer: Drainer): State {
    Point(dead, map[0 := LAUNCHED_AS_5, 1 := FRESH], workers, drainer)
  }

  lemma FirstClaim(R: State -> bool)
    requires Closed(R)
    requires R(Point({}, map[0 := FRESH], map[0 := WORKER_5.(claimedAt := None)], Launched(0, 0, Some(5), 1)))
    ensures R(Launched5({}, map[0 := WORKER_5], NoDrainer))
  {
    var claimed := map[0 := LAUNCHED_AS_5];
    Then(R, Point({}, map[0 := FRESH], map[0 := WORKER_5.(claimedAt := None)], Launched(0, 0, Some(5), 1)), Claim,
         Point({}, claimed, map[0 := WORKER_5], Draining(0)));
    Then(R, Point({}, claimed, map[0 := WORKER_5], Draining(0)), DrainEnd,
         Point({}, claimed, map[0 := WORKER_5], NoDrainer));
    Then(R, Point({}, claimed, map[0 := WORKER_5], NoDrainer), Submit(1, None),
         Launched5({}, map[0 := WORKER_5], NoDrainer));
  }

  lemma FirstDrain(R: State -> bool)
    requires Closed(R)
    ensures R(Launched5({}, map[0 := WORKER_5], NoDrainer))
  {
    FirstRead(R);
    FirstScan(R);
    FirstLaunch(R);
    FirstClaim(R);
  }

  // ---- The second drain reads both records --------------------------------

  const COPIES: map<JobId, Record> := map[0 := LAUNCHED_AS_5, 1 := FRESH]

  lemma SecondRead(R: State -> bool, dead: set<int>, workers: map<WorkerId, Worker>)
    requires Closed(R) && R(Launched5(dead, workers, NoDrainer))
    ensures R(Launched5(dead, workers, Scanning({}, COPIES, {})))
  {
    assert COPIES.Keys == {0, 1};
    Then(R, Launched5(dead, workers, NoDrainer), DrainBegin, Launched5(dead, workers, Scanning({0, 1}, map[], {})));
    assert {0, 1} - {0} == {1} && {1} - {1} == {};
    Then(R, Launched5(dead, workers, Scanning({0, 1}, map[], {})), ReadEntry(0),
         Launched5(dead, workers, Scanning({1}, map[0 := LAUNCHED_AS_5], {})));
    Then(R, Launched5(dead, workers, Scanning({1}, map[0 := LAUNCHED_AS_5], {})), ReadEntry(1),
         Launched5(dead, workers, Scanning({}, COPIES, {})));
  }

  // ---- A torn snapshot entry ---------------------------------------------

  function Begun5(dead: set<int>, workers: map<WorkerId, Worker>, drainer: Drainer, torn: set<JobId>): State {
    State(1, 0, dead, map[0 := BEGUN_AS_5, 1 := FRESH], workers, drainer, torn,
          map[0 := 0], multiset{0}, multiset{})
  }

  lemma BeginAndDie(R: State -> bool)
    requires Closed(R) && R(Launched5({}, map[0 := WORKER_5], Scanning({}, COPIES, {})))
    ensures R(Begun5({5}, map[], Scanning({}, COPIES, {}), {}))
  {
    var scan := Scanning({}, COPIES, {});
    var begun := map[0 := WORKER_5.(phase := Waiting)];
    Then(R, Launched5({}, map[0 := WORKER_5], scan), Begin(0), Begun5({}, begun, scan, {}));
    assert begun - {0} == map[];
    Then(R, Begun5({}, begun, scan, {}), Exit(0), Begun5({}, map[], scan, {}));
    Then(R, Begun5({}, map[], scan, {}), ConfirmDead(5), Begun5({5}, map[], scan, {}));
  }

  lemma TornScan(R: State -> bool)
    requires Closed(R) && R(Begun5({5}, map[], Scanning({}, COPIES, {}), {}))
    ensures R(Begun5({5}, map[], Scanning({}, map[1 := FRESH], {}), {0}))
  {
    assert COPIES - {0} == map[1 := FRESH];
    var empty: set<JobId> := {};
    assert empty + {0} == {0};
    assert Torn(LAUNCHED_AS_5, BEGUN_AS_5, 0, {5});
    Then(R, Begun5({5}, map[], Scanning({}, COPIES, {}), {}), EvaluateEntry(0),
         Begun5({5}, map[], Scanning({}, map[1 := FRESH], {}), {0}));
  }

  lemma TornCapacity(R: State -> bool)
    requires Closed(R) && R(Begun5({5}, map[], Scanning({}, map[1 := FRESH], {}), {0}))
    ensures R(Begun5({5}, map[], Draining(1), {0}))
  {
    assert map[1 := FRESH] - {1} == map[];
    Then(R, Begun5({5}, map[], Scanning({}, map[1 := FRESH], {}), {0}), EvaluateEntry(1),
         Begun5({5}, map[], Scanning({}, map[], {}), {0}));
    Then(R, Begun5({5}, map[], Scanning({}, map[], {}), {0}), ScanDone, Begun5({5}, map[], Draining(1), {0}));
  }

  lemma OverbookedClaim(R: State -> bool, b: State, pid: int) returns (t: State)
    requires Closed(R) && R(b) && b.drainer == Launched(1, 1, Some(pid), 1) && b.now == 0
    requires 1 in b.jobs && b.jobs[1] == FRESH
    ensures R(t) && t.tornJobs == b.tornJobs && t.pool == b.pool && t.dead == b.dead && t.now == b.now
    ensures t.jobs == b.jobs[1 := Record(Queued, Some(pid), Some(0), None, NO_METADATA)]
  {
    t := Next(b, Claim);
    Then(R, b, Claim, t);
  }

  lemma OverbookedLaunch(R: State -> bool, s: State, pid: int) returns (t: State)
    requires Closed(R) && R(s) && s.drainer == Draining(1) && s.now == 0
    requires 1 in s.jobs && s.jobs[1] == FRESH && 1 !in s.workers && pid !in s.dead
    ensures R(t) && t.tornJobs == s.tornJobs && t.pool == s.pool && t.dead == s.dead && t.now == s.now
    ensures t.jobs == s.jobs[1 := Record(Queued, Some(pid), Some(0), None, NO_METADATA)]
  {
    var a := s.(drainer := Starting(1, FRESH, 1));
    Then(R, s, StartRead(1), a);
    var b := Next(a, Launch(1, pid, true));
    Then(R, a, Launch(1, pid, true), b);
    t := OverbookedClaim(R, b, pid);
  }

  lemma TornRun(R: State -> bool) returns (t: State)
    requires Closed(R)
    ensures R(t) && t.pool == 1 && t.tornJobs == {0} && Occupied(t) == {0, 1}
  {
    FirstDrain(R);
    SecondRead(R, {}, map[0 := WORKER_5]);
    BeginAndDie(R);
    TornScan(R);
    TornCapacity(R);
    t := OverbookedLaunch(R, Begun5({5}, map[], Draining(1), {0}), 6);
  }

  /** The second drain reads job 0 as launched, its worker begins and dies, and
      only then is the entry judged. Job 0 still holds its slot, as
      waiting_for_memory, yet job 1 is started as well. */
  lemma TornEntryBreaksPool()
    ensures exists t :: Reachable(t) && t.pool == 1 && t.tornJobs == {0} && |Occupied(t)| == 2
  {
    ReachableIsClosed();
    var t := TornRun(t => Reachable(t));
  }

  // ---- A recycled pid ----------------------------------------------------

  lemma AbandonedEntry(R: State -> bool)
    requires Closed(R) && R(Launched5({5}, map[], Scanning({}, COPIES, {})))
    ensures R(Launched5({5}, map[], Scanning({}, map[1 := FRESH], {})))
  {
    assert COPIES - {0} == map[1 := FRESH];
    Then(R, Launched5({5}, map[], Scanning({}, COPIES, {})), EvaluateEntry(0),
         Launched5({5}, map[], Scanning({}, map[1 := FRESH], {})));
  }

  lemma AbandonedScan(R: State -> bool)
    requires Closed(R) && R(Launched5({5}, map[], Scanning({}, map[1 := FRESH], {})))
    ensures R(Launched5({5}, map[], Draining(1)))
  {
    assert map[1 := FRESH] - {1} == map[];
    Then(R, Launched5({5}, map[], Scanning({}, map[1 := FRESH], {})), EvaluateEntry(1),
         Launched5({5}, map[], Scanning({}, map[], {})));
    Then(R, Launched5({5}, map[], Scanning({}, map[], {})), ScanDone, Launched5({5}, map[], Draining(1)));
  }

  lemma WorkerDies(R: State -> bool)
    requires Closed(R) && R(Launched5({}, map[0 := WORKER_5], NoDrainer))
    ensures R(Launched5({5}, map[], NoDrainer))
  {
    assert map[0 := WORKER_5] - {0} == map[];
    Then(R, Launched5({}, map[0 := WORKER_5], NoDrainer), Exit(0), Launched5({}, map[], NoDrainer));
    Then(R, Launched5({}, map[], NoDrainer), ConfirmDead(5), Launched5({5}, map[], NoDrainer));
  }

  lemma AbandonedRun(R: State -> bool)
    requires Closed(R)
    ensures R(Launched5({5}, map[], Starting(1, FRESH, 1)))
  {
    FirstDrain(R);
    WorkerDies(R);
    SecondRead(R, {5}, map[]);
    AbandonedEntry(R);
    AbandonedScan(R);
    Then(R, Launched5({5}, map[], Draining(1)), StartRead(1), Launched5({5}, map[], Starting(1, FRESH, 1)));
  }

  /** Launching with the dead pid and claiming leaves two occupied slots. */
  lemma RecycledLaunch()
    ensures var s := Launched5({5}, map[], Starting(1, FRESH, 1));
            && Enabled(s, Launch(1, 5, true)) && Remembered(s, 5) && Enabled(Next(s, Launch(1, 5, true)), Claim)
            && Next(Next(s, Launch(1, 5, true)), Claim).tornJobs == {}
            && Occupied(Next(Next(s, Launch(1, 5, true)), Claim)) == {0, 1}
  {
    var s := Launched5({5}, map[], Starting(1, FRESH, 1));
    var b := Next(s, Launch(1, 5, true));
    assert b.dead == {};
    assert b.jobs == COPIES;
    assert s.jobs[0] == LAUNCHED_AS_5;
    assert Next(b, Claim).jobs == map[0 := LAUNCHED_AS_5, 1 := LAUNCHED_AS_5];
  }

  /** Job 0's launch is abandoned, and the system gives its dead worker's pid to
      the worker of job 1: both records look alive, without any torn entry. */
  lemma RecycledPidBreaksPool()
    ensures exists s ::
      && Reachable(s) && s.pool == 1 && Enabled(s, Launch(1, 5, true)) && Remembered(s, 5)
      && Enabled(Next(s, Launch(1, 5, true)), Claim)
      && Next(Next(s, Launch(1, 5, true)), Claim).tornJobs == {}
      && |Occupied(Next(Next(s, Launch(1, 5, true)), Claim))| == 2
  {
    ReachableIsClosed();
    AbandonedRun(t => Reachable(t));
    RecycledLaunch();
  }
}
