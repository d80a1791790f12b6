/**
 One team's share of `run_dispatch_cycle` as it runs: the records are read one by
 one, the lost occurrences computed, and every routine visited in turn, with
 clocks, workers and other submitters free to act in between. The method is
 proved to perform a run of the state machine, so the theorems about runs are
 theorems about it.
 */
module DispatchCycle {
  import opened Wrappers
  import opened JobRecords
  import opened Schedule
  import opened Dispatch
  import opened DispatchSafety

  /** A step of anyone but the dispatcher. */
  predicate Outside(step: Step) {
    step.Tick? || step.Evolve? || step.OtherJob?
  }

  ghost function VisitsOf(steps: seq<Step>): seq<Key> {
    if steps == [] then []
    else
      var last := |steps| - 1;
      VisitsOf(steps[..last]) + (if steps[last].Visit? then [steps[last].k] else [])
  }

  lemma VisitsAppend(steps: seq<Step>, x: Step)
    ensures VisitsOf(steps + [x]) == VisitsOf(steps) + (if x.Visit? then [x.k] else [])
  {
    assert (steps + [x])[..|steps|] == steps;
  }

  lemma {:induction false} RunThenStep(c: Config, s: State, steps: seq<Step>, x: Step)
    requires Runs(c, s, steps) && Enabled(c, Exec(c, s, steps), x)
    ensures Runs(c, s, steps + [x])
    ensures Exec(c, s, steps + [x]) == Next(c, Exec(c, s, steps), x)
    decreases |steps|
  {
    if steps == [] {
      assert ([] + [x])[1..] == [];
      assert Runs(c, Next(c, s, x), []);
    } else {
      RunThenStep(c, Next(c, s, steps[0]), steps[1..], x);
      assert (steps + [x])[1..] == steps[1..] + [x];
    }
  }

  ghost predicate Unscheduled(jobs: seq<Job>, from: nat) {
    forall i :: from <= i < |jobs| ==> !jobs[i].scheduled
  }

  /** Submissions keep the contract the dispatcher relies on. */
  ghost predicate Reliable(submit: (nat, Key, int) -> Outcome) {
    forall i, k, o :: OutcomeOk(submit(i, k, o), o) && Honest(Visit(k, submit(i, k, o)))
  }

  class Dispatcher {
    const config: Config
    var jobs: seq<Job>
    var anchors: map<Key, int>
    var atMarkers: set<(Key, int)>
    var now: int
    var tick: nat
    const env: nat -> seq<Step>
    const submit: (nat, Key, int) -> Outcome
    ghost const start: State
    ghost var first: map<Key, int>
    ghost var pass: Option<Pass>
    ghost var trace: seq<Step>

    ghost function View(): State
      reads this
    {
      State(jobs, anchors, atMarkers, first, now, pass)
    }

    ghost predicate RunTo(s: State)
      reads this
    {
      ConfigOk(config) && HonestRun(trace) && Runs(config, start, trace) && s == Exec(config, start, trace)
      && Inv(config, s)
    }

    ghost predicate Valid()
      reads this
    {
      RunTo(View()) && Reliable(submit)
    }

    constructor (config: Config, now: int, env: nat -> seq<Step>, submit: (nat, Key, int) -> Outcome)
      requires ConfigOk(config) && Reliable(submit)
      ensures Valid() && View() == Init(now) && trace == [] && this.config == config
    {
      this.config, this.env, this.submit := config, env, submit;
      jobs, anchors, atMarkers, this.now, tick := [], map[], {}, now, 0;
      first, pass, trace, start := map[], None, [], Init(now);
    }

    /** The fields have just made `step` from `before`. */
    ghost method Note(before: State, step: Step)
      requires RunTo(before) && Reliable(submit)
      requires Enabled(config, before, step) && Honest(step) && View() == Next(config, before, step)
      modifies this`trace
      ensures Valid() && trace == old(trace) + [step]
      ensures VisitsOf(trace) == VisitsOf(old(trace)) + (if step.Visit? then [step.k] else [])
    {
      RunThenStep(config, start, trace, step);
      VisitsAppend(trace, step);
      StepKeepsInv(config, before, step);
      trace := trace + [step];
    }

    // ---- The rest of the world ----

    method PassTime(d: nat)
      requires Valid()
      modifies this`now, this`trace
      ensures Valid() && VisitsOf(trace) == VisitsOf(old(trace))
    {
      ghost var before := View();
      now := now + d;
      Note(before, Tick(d));
    }

    method ReplaceRecord(i: nat, record: Record)
      requires Valid() && i < |jobs| && Evolves(jobs[i].record, record)
      modifies this`jobs, this`trace
      ensures Valid() && VisitsOf(trace) == VisitsOf(old(trace))
      ensures jobs == old(jobs)[i := old(jobs)[i].(record := record)]
    {
      ghost var before := View();
      jobs := jobs[i := jobs[i].(record := record)];
      Note(before, Evolve(i, record));
    }

    method AddOtherJob(job: Job, ghost from: nat)
      requires Valid() && !job.scheduled && Unscheduled(jobs, from)
      modifies this`jobs, this`trace
      ensures Valid() && VisitsOf(trace) == VisitsOf(old(trace))
      ensures |jobs| == |old(jobs)| + 1 && Unscheduled(jobs, from)
    {
      ghost var before := View();
      jobs := jobs + [job];
      Note(before, OtherJob(job));
    }

    method OutsideStep(step: Step, ghost from: nat)
      requires Valid() && Outside(step) && Unscheduled(jobs, from)
      modifies this`jobs, this`now, this`trace
      ensures Valid() && VisitsOf(trace) == VisitsOf(old(trace))
      ensures |old(jobs)| <= |jobs| && Unscheduled(jobs, from)
    {
      match step
      case Tick(d) => PassTime(d);
      case Evolve(i, record) =>
        if i < |jobs| && Evolves(jobs[i].record, record) {
          ReplaceRecord(i, record);
        }
      case OtherJob(job) =>
        if !job.scheduled {
          AddOtherJob(job, from);
        }
    }

    method Interfere(ghost from: nat)
      requires Valid() && Unscheduled(jobs, from)
      modifies this`jobs, this`now, this`trace, this`tick
      ensures Valid() && VisitsOf(trace) == VisitsOf(old(trace))
      ensures |old(jobs)| <= |jobs| && Unscheduled(jobs, from)
    {
      var steps := env(tick);
      tick := tick + 1;
      for i := 0 to |steps|
        invariant Valid() && VisitsOf(trace) == VisitsOf(old(trace))
        invariant |old(jobs)| <= |jobs| && Unscheduled(jobs, from)
      {
        if Outside(steps[i]) {
          OutsideStep(steps[i], from);
        }
      }
    }

    // ---- Reading the team's records ----

    method ReadOne(i: nat, snapshot: seq<Job>) returns (read: seq<Job>)
      requires Valid() && pass == Some(Pass(snapshot, None, {})) && i == |snapshot| < |jobs|
      modifies this`trace, this`pass
      ensures Valid() && VisitsOf(trace) == VisitsOf(old(trace))
      ensures pass == Some(Pass(read, None, {})) && |read| == i + 1
    {
      ghost var before := View();
      read := snapshot + [jobs[i]];
      pass := Some(Pass(read, None, {}));
      Note(before, ReadRecord);
    }

    method FinishReading(snapshot: seq<Job>) returns (lost: map<Key, int>)
      requires Valid() && pass == Some(Pass(snapshot, None, {}))
      requires |snapshot| <= |jobs| && Unscheduled(jobs, |snapshot|)
      modifies this`trace, this`pass
      ensures Valid() && VisitsOf(trace) == VisitsOf(old(trace))
      ensures pass == Some(Pass(snapshot, Some(lost), {}))
    {
      ghost var before := View();
      lost := LostOccurrences(snapshot);
      pass := Some(Pass(snapshot, Some(lost), {}));
      Note(before, ReadDone(lost));
    }

    method StartReading()
      requires Valid() && pass.None?
      modifies this`trace, this`pass
      ensures Valid() && VisitsOf(trace) == VisitsOf(old(trace)) && pass == Some(Pass([], None, {}))
    {
      ghost var before := View();
      pass := Some(Pass([], None, {}));
      Note(before, PassBegin);
    }

    method ReadNext(i: nat, n: nat, snapshot: seq<Job>) returns (read: seq<Job>)
      requires Valid() && pass == Some(Pass(snapshot, None, {})) && i == |snapshot| < n <= |jobs| && Unscheduled(jobs, n)
      modifies this`jobs, this`now, this`trace, this`tick, this`pass
      ensures Valid() && VisitsOf(trace) == VisitsOf(old(trace))
      ensures pass == Some(Pass(read, None, {})) && |read| == i + 1 && n <= |jobs| && Unscheduled(jobs, n)
    {
      Interfere(n);
      read := ReadOne(i, snapshot);
    }

    /** `_team_job_records` feeding `lost_occurrences`. */
    method TeamLostOccurrences() returns (lost: map<Key, int>)
      requires Valid() && pass.None?
      modifies this`jobs, this`now, this`trace, this`tick, this`pass
      ensures Valid() && VisitsOf(trace) == VisitsOf(old(trace))
      ensures pass.Some? && pass.value.lost == Some(lost) && pass.value.visited == {}
    {
      var n, snapshot := |jobs|, [];
      StartReading();
      for i := 0 to n
        invariant Valid() && VisitsOf(trace) == VisitsOf(old(trace))
        invariant pass == Some(Pass(snapshot, None, {})) && |snapshot| == i
        invariant n <= |jobs| && Unscheduled(jobs, n)
      {
        snapshot := ReadNext(i, n, snapshot);
      }
      lost := FinishReading(snapshot);
    }

    // ---- One routine ----

    /** The occurrence to submit now, decided branch by branch. */
    method Decide(k: Key, lost: map<Key, int>) returns (due: Option<int>)
      requires Valid() && k in config.plan && pass.Some? && pass.value.lost == Some(lost)
      ensures due == Submitted(config, View(), k)
      ensures forall o :: due == Some(o) <==> OwedNow(config, View(), k, o)
    {
      SubmittedIsOwed(config, View(), k);
      hide Owes, OwedNow, Inv;
      var routine := config.plan[k];
      if !routine.enabled {
        return None;
      }
      if routine.conditional {
        return None;
      }
      if routine.catchUp.None? {
        return None;
      }
      var unrun := if k in lost then Some(lost[k]) else None;
      var anchor := if k in anchors then Some(anchors[k]) else None;
      var occurrence := DueOccurrence(routine.rule, anchor, now, unrun);
      if occurrence.None? {
        return None;
      }
      if routine.rule.At? && (k, occurrence.value / DAY) in atMarkers && !SameOccurrence(occurrence, unrun) {
        return None;
      }
      if !CatchUpAllows(occurrence.value, now, routine.catchUp.value, GraceWindow(config.interval)) {
        return None;
      }
      return occurrence;
    }

    /** Stamp the marker with the occurrence, not with the time of submission. */
    method TouchMarker(k: Key, occurrence: int)
      requires k in config.plan
      modifies this`anchors, this`atMarkers, this`first
      ensures View() == Stamp(config, old(View()), k, occurrence)
    {
      if config.plan[k].rule.At? {
        atMarkers := atMarkers + {(k, occurrence / DAY)};
      } else {
        anchors := anchors[k := occurrence];
        first := if k in first then first else first[k := occurrence];
      }
    }

    /** Skip, or submit and stamp on success. What is submitted was owed: every
        earlier record of it had failed before its runtime. */
    method VisitRoutine(k: Key, lost: map<Key, int>) returns (outcome: Outcome)
      requires Valid() && k in config.plan
      requires pass.Some? && pass.value.lost == Some(lost) && k !in pass.value.visited
      modifies this`jobs, this`anchors, this`atMarkers, this`first, this`pass, this`trace, this`tick
      ensures Valid() && VisitsOf(trace) == VisitsOf(old(trace)) + [k]
      ensures View() == VisitStep(config, old(View()), k, outcome)
      ensures var due := Submitted(config, old(View()), k);
              due.Some? ==> EarlierRecovered(old(View()), k, due.value)
    {
      ghost var before := View();
      var due := Decide(k, lost);
      pass := Some(pass.value.(visited := pass.value.visited + {k}));
      outcome := NoRecord;
      if due.Some? {
        VisitIsSafe(config, before, k);
        outcome := submit(tick, k, due.value);
        tick := tick + 1;
        if !outcome.NoRecord? {
          jobs := jobs + [Job(true, k, outcome.record)];
        }
        if outcome.Accepted? {
          TouchMarker(k, due.value);
        }
      }
      Note(before, Visit(k, outcome));
    }

    // ---- One pass over the team's routines ----

    method VisitNext(k: Key, lost: map<Key, int>)
      requires Valid() && k in config.plan
      requires pass.Some? && pass.value.lost == Some(lost) && k !in pass.value.visited
      modifies this
      ensures Valid() && VisitsOf(trace) == VisitsOf(old(trace)) + [k]
      ensures pass == Some(old(pass).value.(visited := old(pass).value.visited + {k}))
    {
      Interfere(|jobs|);
      ghost var before := View();
      var outcome := VisitRoutine(k, lost);
      VisitJobs(config, before, k, outcome);
    }

    method EndPass()
      requires Valid() && pass.Some?
      modifies this`trace, this`pass
      ensures Valid() && pass.None? && VisitsOf(trace) == VisitsOf(old(trace))
    {
      ghost var before := View();
      pass := None;
      Note(before, PassEnd);
    }

    /** Every routine is visited exactly once, in order, in one run of the state
        machine from the dispatcher's first state on. */
    method RunPass(routines: seq<Key>)
      requires Valid() && pass.None?
      requires Distinct(routines) && forall k :: k in routines ==> k in config.plan
      modifies this
      ensures Valid() && pass.None?
      ensures VisitsOf(trace) == VisitsOf(old(trace)) + routines
    {
      var lost := TeamLostOccurrences();
      ghost var visits := VisitsOf(trace);
      for i := 0 to |routines|
        invariant Valid() && VisitsOf(trace) == visits + routines[..i]
        invariant pass.Some? && pass.value.lost == Some(lost)
        invariant Unvisited(routines, i, pass.value.visited)
      {
        assert routines[i] in routines;
        VisitNext(routines[i], lost);
        TakeOneMore(visits, routines, i);
      }
      EndPass();
      assert routines[..|routines|] == routines;
    }
  }

  ghost predicate Distinct(keys: seq<Key>) {
    forall i, j :: 0 <= i < j < |keys| ==> keys[i] != keys[j]
  }

  ghost predicate Unvisited(keys: seq<Key>, from: nat, visited: set<Key>) {
    forall i :: from <= i < |keys| ==> keys[i] !in visited
  }

  lemma TakeOneMore(visits: seq<Key>, keys: seq<Key>, i: nat)
    requires i < |keys|
    ensures visits + keys[..i] + [keys[i]] == visits + keys[..i + 1]
  {
  }
}
