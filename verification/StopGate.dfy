/**
 The stop registry of connected processes (flowgency/jobs/connected_process.py):
 stops of several processes run concurrently, each under its process's stop lock,
 and a launch first waits for the stops in flight and retries what could not be
 confirmed. Every step is one critical section of the registry's condition, or
 the one unlocked decision of a stop.
 */
module StopGate {
  import opened Wrappers

  type Process = nat
  type StopId = nat
  type LaunchId = nat

  // ---- The registry ------------------------------------------------------

  function Without(list: seq<Process>, p: Process): seq<Process> {
    if list == [] then []
    else if list[0] == p then list[1..]
    else [list[0]] + Without(list[1..], p)
  }

  /** The unconfirmed list after one stop of `p` has recorded its outcome. */
  function Tracked(list: seq<Process>, p: Process, confirmed: bool): seq<Process> {
    if confirmed then (if p in list then Without(list, p) else list)
    else if p !in list then list + [p] else list
  }

  ghost predicate NoRepeats(list: seq<Process>) {
    forall i, j :: 0 <= i < j < |list| ==> list[i] != list[j]
  }

  lemma {:induction false} WithoutMembers(list: seq<Process>, p: Process)
    requires NoRepeats(list)
    ensures NoRepeats(Without(list, p)) && forall q :: q in Without(list, p) <==> q in list && q != p
  {
    if list != [] {
      WithoutMembers(list[1..], p);
      assert list == [list[0]] + list[1..];
      assert list[0] !in list[1..];
      if list[0] != p {
        var rest := Without(list[1..], p);
        assert forall k :: 0 <= k < |rest| ==> rest[k] in list[1..];
      }
    }
  }

  lemma TrackedMembers(list: seq<Process>, p: Process, confirmed: bool)
    requires NoRepeats(list)
    ensures NoRepeats(Tracked(list, p, confirmed))
    ensures forall q :: q in Tracked(list, p, confirmed) <==> if q == p then !confirmed else q in list
  {
    WithoutMembers(list, p);
  }

  class Registry {
    var unconfirmed: seq<Process>
    var stopsInFlight: int

    constructor ()
      ensures unconfirmed == [] && stopsInFlight == 0
    {
      unconfirmed, stopsInFlight := [], 0;
    }

    method Track(p: Process, confirmed: bool)
      modifies this`unconfirmed
      ensures unconfirmed == Tracked(old(unconfirmed), p, confirmed)
    {
      if confirmed {
        if p in unconfirmed {
          unconfirmed := Without(unconfirmed, p);
        }
      } else if p !in unconfirmed {
        unconfirmed := unconfirmed + [p];
      }
    }

    method EnterStop()
      modifies this`stopsInFlight
      ensures stopsInFlight == old(stopsInFlight) + 1
    {
      stopsInFlight := stopsInFlight + 1;
    }

    method ExitStop()
      modifies this`stopsInFlight
      ensures stopsInFlight == old(stopsInFlight) - 1
    {
      stopsInFlight := stopsInFlight - 1;
    }
  }

  // What ending a process tree can come to; `Raises` is an exception on the way.
  datatype Outcome = Raises | Ends(confirmed: bool)

  class OwnedTerminal {
    const pid: Process
    var stopped: bool

    constructor (pid: Process)
      ensures this.pid == pid && !stopped
    {
      this.pid, stopped := pid, false;
    }

    /** `_stop_tree`, alone in its stop lock. `None` lets the exception through. */
    method StopTree(registry: Registry, outcome: Outcome) returns (confirmed: Option<bool>)
      modifies this`stopped, registry
      ensures registry.stopsInFlight == old(registry.stopsInFlight)
      ensures old(stopped) ==> confirmed == Some(true) && stopped && registry.unconfirmed == old(registry.unconfirmed)
      ensures !old(stopped) && outcome.Raises? ==>
        confirmed == None && !stopped && registry.unconfirmed == old(registry.unconfirmed)
      ensures !old(stopped) && outcome.Ends? ==>
        && confirmed == Some(outcome.confirmed) && stopped == outcome.confirmed
        && registry.unconfirmed == Tracked(old(registry.unconfirmed), pid, outcome.confirmed)
    {
      if stopped {
        return Some(true);
      }
      registry.EnterStop();
      confirmed := None;
      if outcome.Ends? {
        if outcome.confirmed {
          stopped := true;
        }
        registry.Track(pid, outcome.confirmed);
        confirmed := Some(outcome.confirmed);
      }
      registry.ExitStop();
    }
  }

  // ---- Interleaved stops and launches ------------------------------------

  datatype Phase = Deciding | Decided(confirmed: bool) | Recorded(confirmed: bool)

  datatype Stop = Stop(process: Process, phase: Phase)

  // A launch in `_retry_unconfirmed`; `entry` is the stops in flight on entry,
  // `settled` every stop that had begun when its wait was over.
  datatype Launch =
    | Waiting(entry: set<StopId>)
    | Retrying(entry: set<StopId>, settled: set<StopId>, rest: seq<Process>, current: Option<StopId>)

  // `last` is the outcome each process's last completed stop recorded, `outcomes`
  // what each stop recorded, `raised` the stops that ended in an exception, `begun`
  // all stops there ever were.
  datatype State = State(
    stopped: set<Process>,
    unconfirmed: seq<Process>,
    inFlight: int,
    stops: map<StopId, Stop>,
    launches: map<LaunchId, Launch>,
    last: map<Process, bool>,
    outcomes: map<StopId, bool>,
    raised: set<StopId>,
    begun: set<StopId>)

  datatype Step =
    | Enter(i: StopId, p: Process)
    | Decide(i: StopId, confirmed: bool)
    | Record(i: StopId)
    | Exit(i: StopId)
    | LaunchBegin(l: LaunchId)
    | LaunchWaited(l: LaunchId)
    | RetryStop(l: LaunchId, i: StopId)
    | RetrySkip(l: LaunchId)
    | RetryDone(l: LaunchId)
    | LaunchReturns(l: LaunchId)
    | LaunchRaises(l: LaunchId)

  const Init := State({}, [], 0, map[], map[], map[], map[], {}, {})

  predicate Locked(s: State, p: Process) {
    exists i :: i in s.stops && s.stops[i].process == p
  }

  predicate FreshStop(s: State, i: StopId) {
    i !in s.begun
  }

  predicate MayEnter(s: State, i: StopId, p: Process) {
    FreshStop(s, i) && !Locked(s, p) && p !in s.stopped
  }

  predicate AtRetry(s: State, l: LaunchId) {
    l in s.launches && s.launches[l].Retrying?
  }

  predicate Enabled(s: State, step: Step) {
    match step
    case Enter(i, p) => MayEnter(s, i, p)
    case Decide(i, _) => i in s.stops && s.stops[i].phase.Deciding?
    case Record(i) => i in s.stops && s.stops[i].phase.Decided?
    case Exit(i) => i in s.stops && !s.stops[i].phase.Decided?
    case LaunchBegin(l) => l !in s.launches
    case LaunchWaited(l) => l in s.launches && s.launches[l].Waiting? && s.inFlight == 0
    case RetryStop(l, i) =>
      && AtRetry(s, l) && s.launches[l].current.None? && s.launches[l].rest != []
      && MayEnter(s, i, s.launches[l].rest[0])
    case RetrySkip(l) =>
      && AtRetry(s, l) && s.launches[l].current.None? && s.launches[l].rest != []
      && !Locked(s, s.launches[l].rest[0]) && s.launches[l].rest[0] in s.stopped
    case RetryDone(l) => AtRetry(s, l) && s.launches[l].current.Some? && s.launches[l].current.value !in s.stops
    case LaunchReturns(l) => AtRetry(s, l) && s.launches[l].rest == [] && s.unconfirmed == []
    case LaunchRaises(l) => l in s.launches
  }

  function Entered(s: State, i: StopId, p: Process): State {
    s.(stops := s.stops[i := Stop(p, Deciding)], inFlight := s.inFlight + 1, begun := s.begun + {i})
  }

  function Next(s: State, step: Step): State
    requires Enabled(s, step)
  {
    match step
    case Enter(i, p) => Entered(s, i, p)
    case Decide(i, confirmed) =>
      s.(stops := s.stops[i := s.stops[i].(phase := Decided(confirmed))],
         stopped := if confirmed then s.stopped + {s.stops[i].process} else s.stopped)
    case Record(i) =>
      var p, confirmed := s.stops[i].process, s.stops[i].phase.confirmed;
      s.(unconfirmed := Tracked(s.unconfirmed, p, confirmed),
         last := s.last[p := confirmed],
         outcomes := s.outcomes[i := confirmed],
         stops := s.stops[i := s.stops[i].(phase := Recorded(confirmed))])
    case Exit(i) =>
      s.(inFlight := s.inFlight - 1, stops := s.stops - {i},
         raised := if s.stops[i].phase.Deciding? then s.raised + {i} else s.raised)
    case LaunchBegin(l) => s.(launches := s.launches[l := Waiting(s.stops.Keys)])
    case LaunchWaited(l) =>
      s.(launches := s.launches[l := Retrying(s.launches[l].entry, s.begun, s.unconfirmed, None)])
    case RetryStop(l, i) =>
      Entered(s, i, s.launches[l].rest[0]).(launches := s.launches[l := s.launches[l].(current := Some(i))])
    case RetrySkip(l) => s.(launches := s.launches[l := s.launches[l].(rest := s.launches[l].rest[1..])])
    case RetryDone(l) =>
      var launch := s.launches[l];
      s.(launches := s.launches[l := launch.(rest := if launch.rest == [] then [] else launch.rest[1..], current := None)])
    case LaunchReturns(l) => s.(launches := s.launches - {l})
    case LaunchRaises(l) => s.(launches := s.launches - {l})
  }

  ghost predicate Runs(s: State, steps: seq<Step>)
    decreases |steps|
  {
    steps == [] || (Enabled(s, steps[0]) && Runs(Next(s, steps[0]), steps[1..]))
  }

  ghost function Exec(s: State, steps: seq<Step>): State
    requires Runs(s, steps)
    decreases |steps|
  {
    if steps == [] then s else Exec(Next(s, steps[0]), steps[1..])
  }

  // ---- Invariant ---------------------------------------------------------

  ghost predicate ListOk(s: State) {
    && NoRepeats(s.unconfirmed)
    && (forall p :: p in s.unconfirmed <==> p in s.last && !s.last[p])
  }

  ghost predicate StopOk(s: State, i: StopId)
    requires i in s.stops
  {
    var stop := s.stops[i];
    && (stop.phase.Recorded? <==> i in s.outcomes)
    && i !in s.raised
    && (stop.phase.Deciding? ==> stop.process !in s.stopped)
    && (stop.phase.Decided? ==>
          && (stop.process in s.stopped <==> stop.phase.confirmed)
          && !(stop.process in s.last && s.last[stop.process]))
  }

  ghost predicate StopsOk(s: State) {
    && (forall i :: i in s.stops ==> StopOk(s, i))
    && (forall i, j :: i in s.stops && j in s.stops && s.stops[i].process == s.stops[j].process ==> i == j)
    && s.inFlight == |s.stops|
  }

  ghost predicate ConfirmedOk(s: State) {
    forall p :: p in s.last && s.last[p] ==> p in s.stopped
  }

  ghost predicate Over(s: State, i: StopId) {
    i !in s.stops && (i in s.outcomes || i in s.raised)
  }

  /** The stops there were when the wait was over are over. */
  ghost predicate LaunchOk(s: State, l: LaunchId)
    requires l in s.launches
  {
    match s.launches[l]
    case Waiting(entry) => entry <= s.begun
    case Retrying(entry, settled, _, _) => entry <= settled <= s.begun && forall i :: i in settled ==> Over(s, i)
  }

  ghost predicate BegunOk(s: State) {
    forall i :: i in s.begun <==> i in s.stops || i in s.outcomes || i in s.raised
  }

  ghost predicate Inv(s: State) {
    ListOk(s) && StopsOk(s) && ConfirmedOk(s) && BegunOk(s) && forall l :: l in s.launches ==> LaunchOk(s, l)
  }

  lemma StepKeepsBegun(s: State, step: Step)
    requires Inv(s) && Enabled(s, step)
    ensures BegunOk(Next(s, step))
  {
    hide ListOk, ConfirmedOk, LaunchOk, Locked, Tracked;
    if step.Record? || step.Exit? {
      assert StopOk(s, step.i);
    }
  }

  lemma OverOnceMore(s: State, step: Step)
    requires BegunOk(s) && Enabled(s, step)
    ensures s.begun <= Next(s, step).begun
    ensures forall i :: Over(s, i) ==> Over(Next(s, step), i)
  {
    hide Locked, Tracked;
  }

  lemma StepKeepsList(s: State, step: Step)
    requires Inv(s) && Enabled(s, step)
    ensures ListOk(Next(s, step)) && ConfirmedOk(Next(s, step))
  {
    hide LaunchOk, BegunOk, Locked;
    if step.Record? {
      TrackedMembers(s.unconfirmed, s.stops[step.i].process, s.stops[step.i].phase.confirmed);
      assert StopOk(s, step.i);
    }
  }

  lemma StepKeepsStop(s: State, step: Step, i: StopId)
    requires Inv(s) && Enabled(s, step) && i in Next(s, step).stops
    ensures StopOk(Next(s, step), i)
  {
    if i !in s.stops {
      EnteredIsOk(s, step, i);
    } else if step.Record? {
      RecordKeepsStop(s, step.i, i);
    } else if step.Decide? {
      DecideKeepsStop(s, step.i, step.confirmed, i);
    } else {
      OthersKeepStop(s, step, i);
    }
  }

  lemma DecideKeepsStop(s: State, decided: StopId, confirmed: bool, i: StopId)
    requires Inv(s) && Enabled(s, Decide(decided, confirmed)) && i in s.stops
    ensures StopOk(Next(s, Decide(decided, confirmed)), i)
  {
    hide LaunchOk, ListOk, Tracked;
    assert StopOk(s, i) && StopOk(s, decided);
  }

  lemma OthersKeepStop(s: State, step: Step, i: StopId)
    requires Inv(s) && Enabled(s, step) && i in s.stops && i in Next(s, step).stops && !step.Record? && !step.Decide?
    ensures StopOk(Next(s, step), i)
  {
    hide LaunchOk, ListOk, ConfirmedOk;
    assert StopOk(s, i);
    var t := Next(s, step);
    assert t.stops[i] == s.stops[i] && t.stopped == s.stopped && t.last == s.last && t.outcomes == s.outcomes;
    assert i in t.raised <==> i in s.raised;
  }

  lemma EnteredIsOk(s: State, step: Step, i: StopId)
    requires Inv(s) && Enabled(s, step) && i !in s.stops && i in Next(s, step).stops
    ensures StopOk(Next(s, step), i)
  {
    hide LaunchOk, ListOk, StopsOk, ConfirmedOk, Tracked;
  }

  lemma RecordKeepsStop(s: State, recorded: StopId, i: StopId)
    requires Inv(s) && Enabled(s, Record(recorded)) && i in s.stops
    ensures StopOk(Next(s, Record(recorded)), i)
  {
    hide LaunchOk, ListOk, Tracked;
    assert StopOk(s, i) && StopOk(s, recorded);
  }

  lemma StepKeepsStops(s: State, step: Step)
    requires Inv(s) && Enabled(s, step)
    ensures StopsOk(Next(s, step))
  {
    hide LaunchOk, ListOk, Tracked, NoRepeats, ConfirmedOk, BegunOk;
    forall i | i in Next(s, step).stops
      ensures StopOk(Next(s, step), i)
    {
      StepKeepsStop(s, step, i);
    }
    CountStops(s, step);
  }

  lemma CountStops(s: State, step: Step)
    requires Inv(s) && Enabled(s, step)
    ensures Next(s, step).inFlight == |Next(s, step).stops|
  {
    hide LaunchOk, ListOk, Tracked, ConfirmedOk, StopOk, Locked;
    match step
    case Enter(i, p) => OneMore(s.stops, i, Stop(p, Deciding));
    case RetryStop(l, i) => OneMore(s.stops, i, Stop(s.launches[l].rest[0], Deciding));
    case Exit(i) => OneLess(s.stops, i);
    case Decide(i, confirmed) => SameCount(s.stops, i, s.stops[i].(phase := Decided(confirmed)));
    case Record(i) => SameCount(s.stops, i, s.stops[i].(phase := Recorded(s.stops[i].phase.confirmed)));
    case _ =>
  }

  lemma OneMore(stops: map<StopId, Stop>, i: StopId, stop: Stop)
    requires i !in stops
    ensures |stops[i := stop]| == |stops| + 1
  {
    assert stops[i := stop].Keys == stops.Keys + {i};
  }

  lemma OneLess(stops: map<StopId, Stop>, i: StopId)
    requires i in stops
    ensures |stops - {i}| == |stops| - 1
  {
    assert (stops - {i}).Keys == stops.Keys - {i};
  }

  lemma SameCount(stops: map<StopId, Stop>, i: StopId, stop: Stop)
    requires i in stops
    ensures |stops[i := stop]| == |stops|
  {
    assert stops[i := stop].Keys == stops.Keys;
  }

  lemma StepKeepsLaunches(s: State, step: Step)
    requires Inv(s) && Enabled(s, step)
    ensures forall l :: l in Next(s, step).launches ==> LaunchOk(Next(s, step), l)
  {
    hide StopOk, ListOk, ConfirmedOk, Locked, Tracked;
    var t := Next(s, step);
    OverOnceMore(s, step);
    if step.LaunchWaited? {
      assert |s.stops.Keys| == 0;
      assert s.stops.Keys == {};
      assert forall i :: i in s.begun ==> Over(s, i);
    }
    forall l | l in t.launches
      ensures LaunchOk(t, l)
    {
      if l in s.launches {
        assert LaunchOk(s, l);
      }
    }
  }

  lemma StepKeepsInv(s: State, step: Step)
    requires Inv(s) && Enabled(s, step)
    ensures Inv(Next(s, step))
  {
    StepKeepsList(s, step);
    StepKeepsBegun(s, step);
    StepKeepsStops(s, step);
    StepKeepsLaunches(s, step);
  }

  lemma {:induction false} RunKeepsInv(s: State, steps: seq<Step>)
    requires Inv(s) && Runs(s, steps)
    ensures Inv(Exec(s, steps))
    decreases |steps|
  {
    if steps != [] {
      StepKeepsInv(s, steps[0]);
      RunKeepsInv(Next(s, steps[0]), steps[1..]);
    }
  }

  // ---- Over whole runs ---------------------------------------------------

  /** In every interleaving: a process is listed exactly when its last completed
      stop was unconfirmed, and the counter counts the stops in flight. */
  lemma ListAndCounterAreExact(steps: seq<Step>, p: Process)
    requires Runs(Init, steps)
    ensures var s := Exec(Init, steps);
      && (p in s.unconfirmed <==> p in s.last && !s.last[p])
      && NoRepeats(s.unconfirmed)
      && s.inFlight == |s.stops|
  {
    RunKeepsInv(Init, steps);
  }

  lemma ConfirmationKept(s: State, step: Step, p: Process)
    requires Inv(s) && Enabled(s, step) && p in s.last && s.last[p]
    ensures p in Next(s, step).last && Next(s, step).last[p]
  {
    if step.Record? {
      assert StopOk(s, step.i);
    }
  }

  /** A confirmed stop is permanent: whatever happens next, the process is never
      stopped anew, recorded otherwise, or listed again. */
  lemma {:induction false} ConfirmedIsPermanent(s: State, steps: seq<Step>, p: Process)
    requires Inv(s) && Runs(s, steps) && p in s.last && s.last[p]
    ensures var t := Exec(s, steps); p in t.last && t.last[p] && p !in t.unconfirmed && p in t.stopped
    decreases |steps|
  {
    if steps != [] {
      StepKeepsInv(s, steps[0]);
      ConfirmationKept(s, steps[0], p);
      ConfirmedIsPermanent(Next(s, steps[0]), steps[1..], p);
    }
  }

  /** The launch gate: `_retry_unconfirmed` returns normally only when every stop
      that began before its wait was over, those in flight on entry among them, is
      over itself, with a recorded outcome unless it raised, and no process's last
      completed stop is unconfirmed. What is still undecided began after the wait. */
  lemma GateIsClear(steps: seq<Step>, l: LaunchId)
    requires Runs(Init, steps) && Enabled(Exec(Init, steps), LaunchReturns(l))
    ensures var s := Exec(Init, steps);
      && s.launches[l].entry <= s.launches[l].settled
      && (forall i :: i in s.launches[l].settled ==> i !in s.stops && (i in s.outcomes || i in s.raised))
      && (forall i :: i in s.begun && !(i in s.outcomes || i in s.raised) ==> i in s.stops && i !in s.launches[l].settled)
      && (forall p :: p in s.last ==> s.last[p] && p in s.stopped)
  {
    RunKeepsInv(Init, steps);
    var s := Exec(Init, steps);
    assert LaunchOk(s, l);
    forall p | p in s.last
      ensures s.last[p]
    {
      assert p in s.unconfirmed <==> !s.last[p];
    }
  }

  /** The wait itself: whatever began before any launch's wait was over stays over
      in every continuation. */
  lemma {:induction false} WaitSettles(s: State, l: LaunchId, steps: seq<Step>, i: StopId)
    requires Inv(s) && Enabled(s, LaunchWaited(l)) && Runs(Next(s, LaunchWaited(l)), steps) && i in s.begun
    ensures Over(Exec(Next(s, LaunchWaited(l)), steps), i)
  {
    StepKeepsInv(s, LaunchWaited(l));
    assert |s.stops.Keys| == 0;
    assert s.stops.Keys == {};
    OverStays(Next(s, LaunchWaited(l)), steps, i);
  }

  lemma {:induction false} OverStays(s: State, steps: seq<Step>, i: StopId)
    requires Inv(s) && Runs(s, steps) && Over(s, i)
    ensures Over(Exec(s, steps), i)
    decreases |steps|
  {
    if steps != [] {
      StepKeepsInv(s, steps[0]);
      OverOnceMore(s, steps[0]);
      OverStays(Next(s, steps[0]), steps[1..], i);
    }
  }

  /** Whatever stop can begin once the wait is over does not hold the launch up. */
  lemma LaterStopHoldsNothingUp(s: State, l: LaunchId, i: StopId, p: Process)
    requires Inv(s) && Enabled(s, LaunchReturns(l)) && Enabled(s, Enter(i, p))
    ensures var t := Next(s, Enter(i, p));
      && Enabled(t, LaunchReturns(l))
      && t.stops[i].phase.Deciding? && i in t.begun && i !in t.launches[l].settled
  {
    assert LaunchOk(s, l);
  }

  /** The gate says nothing about stops that began after its wait: one of them
      may still be undecided when the launch goes ahead. */
  lemma LaterStopSlipsThrough()
    ensures exists steps ::
      && Runs(Init, steps)
      && Enabled(Exec(Init, steps), LaunchReturns(0))
      && exists i :: i in Exec(Init, steps).stops && Exec(Init, steps).stops[i].phase.Deciding?
                     && i !in Exec(Init, steps).launches[0].settled
  {
    var s1 := Next(Init, LaunchBegin(0));
    var s2 := Next(s1, LaunchWaited(0));
    var s3 := Next(s2, Enter(7, 1));
    var steps := [LaunchBegin(0), LaunchWaited(0), Enter(7, 1)];
    assert steps[1..] == [LaunchWaited(0), Enter(7, 1)] && steps[1..][1..] == [Enter(7, 1)];
    assert steps[1..][1..][1..] == [];
    assert Runs(s3, []) && Exec(s3, []) == s3;
    assert Runs(s2, steps[1..][1..]) && Exec(s2, steps[1..][1..]) == s3;
    assert Runs(s1, steps[1..]) && Exec(s1, steps[1..]) == s3;
    assert Runs(Init, steps) && Exec(Init, steps) == s3;
    assert 7 in s3.stops;
  }
}
