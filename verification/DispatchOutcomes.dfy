/**
 What the safety of resubmission amounts to: how often an occurrence is served,
 when a refused submission endangers it, and how a routine's visits follow the
 cycles that lateness is judged by.
 */
module DispatchOutcomes {
  import opened Wrappers
  import opened JobRecords
  import opened Schedule
  import opened Dispatch
  import opened DispatchSafety

  // ---- An occurrence is served at most once ------------------------------

  predicate SameDue(a: Job, b: Job) {
    a.scheduled && b.scheduled && a.key == b.key && a.record.dueAt.Some? && a.record.dueAt == b.record.dueAt
  }

  /** What the dispatcher concluded from a record is not withdrawn later: a job
      seen to have failed before its runtime stays such a job. */
  predicate Settled(s: State, step: Step) {
    step.Evolve? && step.i < |s.jobs| && RecoverablePreRuntime(s.jobs[step.i].record) ==>
      RecoverablePreRuntime(step.record)
  }

  ghost predicate SettledRun(c: Config, s: State, steps: seq<Step>)
    requires Runs(c, s, steps)
    decreases |steps|
  {
    steps == [] || (Settled(s, steps[0]) && SettledRun(c, Next(c, s, steps[0]), steps[1..]))
  }

  ghost predicate StillRecoverable(snapshot: seq<Job>, jobs: seq<Job>) {
    forall i :: 0 <= i < |snapshot| && i < |jobs| && RecoverablePreRuntime(snapshot[i].record) ==>
      RecoverablePreRuntime(jobs[i].record)
  }

  ghost predicate ServedOnce(jobs: seq<Job>) {
    forall i, j :: 0 <= i < j < |jobs| && SameDue(jobs[i], jobs[j]) ==> RecoverablePreRuntime(jobs[i].record)
  }

  ghost predicate OutcomeInv(s: State) {
    ServedOnce(s.jobs) && (s.pass.Some? ==> StillRecoverable(s.pass.value.snapshot, s.jobs))
  }

  lemma VisitKeepsOutcomes(c: Config, s: State, k: Key, outcome: Outcome)
    requires Visiting(c, s, k) && Enabled(c, s, Visit(k, outcome)) && OutcomeInv(s)
    ensures OutcomeInv(VisitStep(c, s, k, outcome))
  {
    var t := VisitStep(c, s, k, outcome);
    VisitJobs(c, s, k, outcome);
    if t.jobs != s.jobs {
      VisitIsSafe(c, s, k);
      NewJobServedOnce(s, t.jobs, k, Submitted(c, s, k).value);
    }
  }

  lemma NewJobServedOnce(s: State, jobs: seq<Job>, k: Key, o: int)
    requires OutcomeInv(s) && EarlierRecovered(s, k, o) && k.routine != ""
    requires |jobs| == |s.jobs| + 1 && s.jobs <= jobs
    requires jobs[|s.jobs|].key == k && jobs[|s.jobs|].record.dueAt == Some(o)
    ensures ServedOnce(jobs)
  {
    forall i, j | 0 <= i < j < |jobs| && SameDue(jobs[i], jobs[j])
      ensures RecoverablePreRuntime(jobs[i].record)
    {
      assert jobs[i] == s.jobs[i];
      if j == |s.jobs| {
        assert Relevant(s.jobs[i], k);
      }
    }
  }

  lemma StepKeepsOutcomes(c: Config, s: State, step: Step)
    requires ConfigOk(c) && Inv(c, s) && Enabled(c, s, step) && Settled(s, step) && OutcomeInv(s)
    ensures OutcomeInv(Next(c, s, step))
  {
    if step.Visit? {
      VisitKeepsOutcomes(c, s, step.k, step.outcome);
    } else {
      assert s.pass.Some? ==> |s.pass.value.snapshot| <= |s.jobs|;
    }
  }

  lemma {:induction false} RunKeepsOutcomes(c: Config, s: State, steps: seq<Step>)
    requires ConfigOk(c) && Inv(c, s) && OutcomeInv(s)
    requires Runs(c, s, steps) && HonestRun(steps) && SettledRun(c, s, steps)
    ensures OutcomeInv(Exec(c, s, steps))
    decreases |steps|
  {
    if steps != [] {
      assert Honest(steps[0]);
      StepKeepsInv(c, s, steps[0]);
      StepKeepsOutcomes(c, s, steps[0]);
      RunKeepsOutcomes(c, Next(c, s, steps[0]), steps[1..]);
    }
  }

  /** In every run, at most one record of an occurrence has not failed before its
      runtime: nothing a routine owed is ever executed twice. */
  lemma AtMostOneServed(c: Config, now: int, steps: seq<Step>, i: nat, j: nat)
    requires ConfigOk(c) && Runs(c, Init(now), steps) && HonestRun(steps) && SettledRun(c, Init(now), steps)
    requires i < j < |Exec(c, Init(now), steps).jobs|
    requires SameDue(Exec(c, Init(now), steps).jobs[i], Exec(c, Init(now), steps).jobs[j])
    ensures RecoverablePreRuntime(Exec(c, Init(now), steps).jobs[i].record)
  {
    RunKeepsOutcomes(c, Init(now), steps);
  }

  // ---- When a refusal is not honest --------------------------------------

  /** The refused visit ends its pass, and the next pass reads every record. */
  function RefusedThenReread(k: Key, record: Record, records: nat, lost: map<Key, int>): seq<Step> {
    [Visit(k, Refused(record)), PassEnd, PassBegin] + Reads(records, lost)
  }

  function Reads(records: nat, lost: map<Key, int>): seq<Step> {
    if records == 0 then [ReadDone(lost)] else [ReadRecord] + Reads(records - 1, lost)
  }

  lemma {:induction false} ReadsRun(c: Config, s: State, lost: map<Key, int>, n: nat)
    requires s.pass.Some? && s.pass.value.lost.None? && n <= |s.jobs|
    requires s.pass.value.snapshot == s.jobs[..|s.jobs| - n] && LostMap(s.jobs, lost)
    ensures Runs(c, s, Reads(n, lost))
    ensures Exec(c, s, Reads(n, lost)) == s.(pass := Some(Pass(s.jobs, Some(lost), s.pass.value.visited)))
    decreases n
  {
    var p := s.pass.value;
    var rest := Reads(n, lost)[1..];
    if n == 0 {
      assert p.snapshot == s.jobs;
      assert rest == [];
      assert Runs(c, Next(c, s, ReadDone(lost)), rest);
    } else {
      var t := Next(c, s, ReadRecord);
      assert t.pass.value.snapshot == s.jobs[..|s.jobs| - (n - 1)];
      ReadsRun(c, t, lost, n - 1);
      assert rest == Reads(n - 1, lost);
    }
  }

  function Refusal(s: State, k: Key, record: Record): seq<Job> {
    s.jobs + [Job(true, k, record)]
  }

  lemma RerunAfterRefusal(c: Config, s: State, k: Key, record: Record, lost: map<Key, int>)
    requires Enabled(c, s, Visit(k, Refused(record))) && Submitted(c, s, k).Some?
    requires LostMap(Refusal(s, k, record), lost)
    ensures Runs(c, s, RefusedThenReread(k, record, |s.jobs| + 1, lost))
    ensures Exec(c, s, RefusedThenReread(k, record, |s.jobs| + 1, lost))
         == s.(jobs := Refusal(s, k, record), pass := Some(Pass(Refusal(s, k, record), Some(lost), {})))
  {
    var steps := RefusedThenReread(k, record, |s.jobs| + 1, lost);
    var a := Next(c, s, steps[0]);
    var b := Next(c, a, PassEnd);
    var d := Next(c, b, PassBegin);
    assert d == s.(jobs := Refusal(s, k, record), pass := Some(Pass([], None, {})));
    ReadsRun(c, d, lost, |s.jobs| + 1);
    assert steps[1..][1..][1..] == Reads(|s.jobs| + 1, lost);
    assert steps[1..][0] == PassEnd && steps[1..][1..][0] == PassBegin;
    assert Runs(c, b, steps[1..][1..]) && Exec(c, b, steps[1..][1..]) == Exec(c, d, Reads(|s.jobs| + 1, lost));
    assert Runs(c, a, steps[1..]) && Exec(c, a, steps[1..]) == Exec(c, b, steps[1..][1..]);
  }

  /** An occurrence that no lost record stands behind is owed whatever is lost. */
  lemma FreshDecision(r: Routine, anchor: Option<int>, marked: int -> bool, now: int, unrun: Option<int>,
                      other: Option<int>, interval: int)
    requires var o := Decision(r, anchor, marked, now, unrun, interval);
      o.Some? && unrun != o && (r.rule.At? ==> !SameOccurrence(o, unrun))
    ensures Decision(r, anchor, marked, now, other, interval) == Decision(r, anchor, marked, now, unrun, interval)
  {
  }

  lemma FreshIsNotLost(c: Config, s: State, k: Key)
    requires Visiting(c, s, k) && Submitted(c, s, k).Some? && !HasRecord(s.jobs, k, Submitted(c, s, k).value)
    ensures Unrun(s.pass.value, k) != Submitted(c, s, k)
    ensures c.plan[k].rule.At? ==> !SameOccurrence(Submitted(c, s, k), Unrun(s.pass.value, k))
  {
    var p, o := s.pass.value, Submitted(c, s, k).value;
    if Unrun(p, k) == Some(o) {
      assert IsOwed(p.snapshot, k, o);
      RecordKept(p.snapshot, s.jobs, k, o);
    }
    if c.plan[k].rule.At? && SameOccurrence(Some(o), Unrun(p, k)) {
      UnrunIsOccurrence(c, s, k, c.plan[k].rule.minute.value);
    }
  }

  /** A fresh occurrence, `at` or `every`, whose submission is refused is submitted
      again by the next pass. That is safe exactly when the refused record is
      recoverable by the dispatcher's own test, which `_settle` does not apply. */
  lemma RefusalIsSafeIffRecoverable(c: Config, s: State, k: Key, record: Record, lost: map<Key, int>)
    requires Visiting(c, s, k) && Enabled(c, s, Visit(k, Refused(record)))
    requires Submitted(c, s, k).Some? && LostMap(Refusal(s, k, record), lost)
    requires !HasRecord(s.jobs, k, Submitted(c, s, k).value)
    ensures var o := Submitted(c, s, k).value;
      var steps := RefusedThenReread(k, record, |s.jobs| + 1, lost);
      && Runs(c, s, steps)
      && Enabled(c, Exec(c, s, steps), Visit(k, NoRecord))
      && Submitted(c, Exec(c, s, steps), k) == Some(o)
      && (EarlierRecovered(Exec(c, s, steps), k, o) <==> RecoverablePreRuntime(record))
      && (RecoverablePreRuntime(record) <==>
            || record.workerPid.None?
            || (record.metadata.failedBeforeRuntime
                && (record.metadata.ticketCleanup.None? || SettledCleanup(record.metadata.ticketCleanup.value))))
  {
    RerunAfterRefusal(c, s, k, record, lost);
    var o, jobs := Submitted(c, s, k).value, Refusal(s, k, record);
    var t := s.(jobs := jobs, pass := Some(Pass(jobs, Some(lost), {})));
    FreshIsNotLost(c, s, k);
    FreshDecision(c.plan[k], Anchor(s, k), day => (k, day) in s.atMarkers, s.now, Unrun(s.pass.value, k),
                  Unrun(t.pass.value, k), c.interval);
    SubmittedAgain(c, s, t, k);
    RefusedIsTheOnly(s, t, k, record, o);
  }

  lemma SubmittedAgain(c: Config, s: State, t: State, k: Key)
    requires k in c.plan && s.pass.Some? && t.pass.Some?
    requires t.anchors == s.anchors && t.atMarkers == s.atMarkers && t.now == s.now
    ensures Submitted(c, t, k) == Decision(c.plan[k], Anchor(s, k), day => (k, day) in s.atMarkers, s.now,
                                           Unrun(t.pass.value, k), c.interval)
  {
    assert (day => (k, day) in t.atMarkers) == (day => (k, day) in s.atMarkers);
  }

  lemma RefusedIsTheOnly(s: State, t: State, k: Key, record: Record, o: int)
    requires k.routine != "" && record.dueAt == Some(o) && !HasRecord(s.jobs, k, o)
    requires t.jobs == Refusal(s, k, record) && t.pass.Some? && t.pass.value.snapshot == t.jobs
    ensures EarlierRecovered(t, k, o) <==> RecoverablePreRuntime(record)
  {
    forall i | 0 <= i < |s.jobs|
      ensures !(Relevant(s.jobs[i], k) && s.jobs[i].record.dueAt.value == o)
    {
      assert s.jobs[i] in s.jobs;
    }
    assert Relevant(t.jobs[|s.jobs|], k) && t.jobs[|s.jobs|].record.dueAt.value == o;
  }

  const K := Key("agent", "routine")
  const MIDNIGHT := Config(map[K := Routine(At(Some(0)), true, false, Some(Always))], 15)

  // The worker began before its launch was claimed, ran, and failed.
  const RAN := Record(Failed, Some(7), None, Some(0), NO_METADATA)

  lemma RanIsNotLost()
    ensures LostMap([Job(true, K, RAN)], map[])
  {
    assert !RecoverablePreRuntime(RAN);
  }

  /** A worker that outran its claim: its failed job counts as refused although
      it ran, and the next pass submits the same occurrence once more. */
  lemma OutrunClaimRepeatsOccurrence()
    ensures exists steps ::
      && Runs(MIDNIGHT, Init(0), steps)
      && Enabled(MIDNIGHT, Exec(MIDNIGHT, Init(0), steps), Visit(K, NoRecord))
      && Submitted(MIDNIGHT, Exec(MIDNIGHT, Init(0), steps), K) == Some(0)
      && !EarlierRecovered(Exec(MIDNIGHT, Init(0), steps), K, 0)
  {
    var begun := Next(MIDNIGHT, Init(0), PassBegin);
    var s := Next(MIDNIGHT, begun, ReadDone(map[]));
    assert s == State([], map[], {}, map[], 0, Some(Pass([], Some(map[]), {})));
    StepKeepsInv(MIDNIGHT, Init(0), PassBegin);
    StepKeepsInv(MIDNIGHT, begun, ReadDone(map[]));
    assert Submitted(MIDNIGHT, s, K) == Some(0);
    RanIsNotLost();
    assert Refusal(s, K, RAN) == [Job(true, K, RAN)];
    RefusalIsSafeIffRecoverable(MIDNIGHT, s, K, RAN, map[]);
    var rest := RefusedThenReread(K, RAN, 1, map[]);
    var steps := [PassBegin, ReadDone(map[])] + rest;
    assert steps[1..][1..] == rest;
    assert steps[1..][0] == ReadDone(map[]);
    assert Runs(MIDNIGHT, begun, steps[1..]) && Exec(MIDNIGHT, begun, steps[1..]) == Exec(MIDNIGHT, s, rest);
    assert Runs(MIDNIGHT, Init(0), steps) && Exec(MIDNIGHT, Init(0), steps) == Exec(MIDNIGHT, s, rest);
  }

  // ---- Visits of an `every` routine are the cycles lateness is judged by --

  /** When a run visits `k`. */
  ghost function VisitTimes(c: Config, s: State, steps: seq<Step>, k: Key): seq<int>
    requires Runs(c, s, steps)
    decreases |steps|
  {
    if steps == [] then []
    else (if steps[0].Visit? && steps[0].k == k then [s.now] else [])
         + VisitTimes(c, Next(c, s, steps[0]), steps[1..], k)
  }

  ghost predicate AllAccepted(steps: seq<Step>, k: Key) {
    forall i :: 0 <= i < |steps| && steps[i].Visit? && steps[i].k == k ==> steps[i].outcome.Accepted?
  }

  predicate Live(c: Config, k: Key, period: int, bound: CatchUp) {
    k in c.plan && c.plan[k] == Routine(Every(Some(period)), true, false, Some(bound)) && period > 0
  }

  lemma DecisionIsCycle(r: Routine, anchor: Option<int>, marked: int -> bool, now: int, unrun: Option<int>,
                        interval: int, period: int, bound: CatchUp)
    requires r == Routine(Every(Some(period)), true, false, Some(bound)) && period > 0
    requires SameOccurrence(unrun, anchor) ==> unrun == anchor
    ensures var d := Decision(r, anchor, marked, now, unrun, interval);
      (if d.Some? then d else anchor) == CycleAnchor(anchor, period, now, bound, GraceWindow(interval))
  {
    if anchor.Some? {
      assert DueOccurrence(r.rule, anchor, now, unrun) in {LastEvery(anchor.value, Some(period), now), anchor};
    }
  }

  lemma AcceptedVisitStamps(c: Config, s: State, k: Key, outcome: Outcome)
    requires k in c.plan && c.plan[k].rule.Every? && s.pass.Some? && outcome.Accepted?
    ensures Anchor(VisitStep(c, s, k, outcome), k)
         == if Submitted(c, s, k).Some? then Submitted(c, s, k) else Anchor(s, k)
  {
  }

  /** One accepted visit is one cycle, whatever the pass read about lost jobs. */
  lemma VisitIsCycle(c: Config, s: State, k: Key, period: int, bound: CatchUp, outcome: Outcome)
    requires Visiting(c, s, k) && Live(c, k, period, bound) && outcome.Accepted?
    ensures Anchor(VisitStep(c, s, k, outcome), k)
         == CycleAnchor(Anchor(s, k), period, s.now, bound, GraceWindow(c.interval))
  {
    UnrunIsAnchor(c, s, k);
    AcceptedVisitStamps(c, s, k, outcome);
    DecisionIsCycle(c.plan[k], Anchor(s, k), day => (k, day) in s.atMarkers, s.now, Unrun(s.pass.value, k),
                    c.interval, period, bound);
  }

  function CyclesFrom(anchor: Option<int>, period: int, cycles: seq<int>, bound: CatchUp, grace: int): Option<int>
    decreases |cycles|
  {
    if cycles == [] then anchor
    else CyclesFrom(CycleAnchor(anchor, period, cycles[0], bound, grace), period, cycles[1..], bound, grace)
  }

  lemma {:induction false} CyclesAppend(anchor: Option<int>, period: int, cycles: seq<int>, bound: CatchUp, grace: int, now: int)
    ensures CyclesFrom(anchor, period, cycles + [now], bound, grace)
         == CycleAnchor(CyclesFrom(anchor, period, cycles, bound, grace), period, now, bound, grace)
    decreases |cycles|
  {
    if cycles == [] {
      assert (cycles + [now])[1..] == [];
    } else {
      CyclesAppend(CycleAnchor(anchor, period, cycles[0], bound, grace), period, cycles[1..], bound, grace, now);
      assert (cycles + [now])[1..] == cycles[1..] + [now];
    }
  }

  lemma {:induction false} CyclesFromStart(period: int, cycles: seq<int>, bound: CatchUp, grace: int)
    ensures CyclesFrom(None, period, cycles, bound, grace) == AnchorAfter(period, cycles, bound, grace)
    decreases |cycles|
  {
    if cycles != [] {
      var last := |cycles| - 1;
      CyclesFromStart(period, cycles[..last], bound, grace);
      CyclesAppend(None, period, cycles[..last], bound, grace, cycles[last]);
      assert cycles[..last] + [cycles[last]] == cycles;
    }
  }

  lemma OtherStepsKeepAnchor(c: Config, s: State, step: Step, k: Key)
    requires Enabled(c, s, step) && !(step.Visit? && step.k == k)
    ensures Anchor(Next(c, s, step), k) == Anchor(s, k)
  {
    if step.Visit? {
      VisitJobs(c, s, step.k, step.outcome);
      KeyKept(c, s, step.k, step.outcome, k);
    }
  }

  lemma KeyKept(c: Config, s: State, visited: Key, outcome: Outcome, k: Key)
    requires visited in c.plan && s.pass.Some? && visited != k
    ensures k in VisitStep(c, s, visited, outcome).anchors <==> k in s.anchors
  {
  }

  lemma {:induction false} RunFollowsCycles(c: Config, s: State, steps: seq<Step>, k: Key, period: int, bound: CatchUp)
    requires ConfigOk(c) && Inv(c, s) && Runs(c, s, steps) && HonestRun(steps)
    requires Live(c, k, period, bound) && AllAccepted(steps, k)
    ensures Anchor(Exec(c, s, steps), k)
         == CyclesFrom(Anchor(s, k), period, VisitTimes(c, s, steps, k), bound, GraceWindow(c.interval))
    decreases |steps|
  {
    if steps != [] {
      assert Honest(steps[0]);
      StepKeepsInv(c, s, steps[0]);
      var t := Next(c, s, steps[0]);
      RunFollowsCycles(c, t, steps[1..], k, period, bound);
      var rest := VisitTimes(c, t, steps[1..], k);
      if steps[0].Visit? && steps[0].k == k {
        VisitIsCycle(c, s, k, period, bound, steps[0].outcome);
        assert ([s.now] + rest)[1..] == rest;
      } else {
        OtherStepsKeepAnchor(c, s, steps[0], k);
        assert [] + rest == rest;
      }
    }
  }

  /** In every run that visits an enabled, unconditional `every` routine at most
      `interval` minutes apart, submits each time and drops nothing, the routine is
      never reported overdue, and it is reported due exactly when the dispatcher's own
      occurrence function finds an occurrence owed. */
  lemma RunIsNeverOverdue(c: Config, now: int, steps: seq<Step>, k: Key, period: int, bound: CatchUp)
    requires ConfigOk(c) && c.interval >= 0 && Runs(c, Init(now), steps) && HonestRun(steps)
    requires Live(c, k, period, bound) && AllAccepted(steps, k)
    requires var times, s := VisitTimes(c, Init(now), steps, k), Exec(c, Init(now), steps);
      && times != [] && Spaced(times, c.interval)
      && NoneDropped(period, times, bound, GraceWindow(c.interval))
      && times[|times| - 1] <= s.now <= times[|times| - 1] + c.interval * MINUTE
    ensures var s, grace := Exec(c, Init(now), steps), GraceWindow(c.interval);
      && !EveryLateness(Anchor(s, k), period, s.now, grace).Overdue?
      && (EveryLateness(Anchor(s, k), period, s.now, grace).Due? <==>
            DueOccurrence(c.plan[k].rule, Anchor(s, k), s.now, None).Some?)
  {
    var times, s, grace := VisitTimes(c, Init(now), steps, k), Exec(c, Init(now), steps), GraceWindow(c.interval);
    RunFollowsCycles(c, Init(now), steps, k, period, bound);
    CyclesFromStart(period, times, bound, grace);
    NeverOverdue(period, times, bound, c.interval, s.now);
  }
}
