/**
 Scheduled dispatch (flowgency/dispatch/run.py) over whole runs of cycles: which
 occurrence a routine owes, when a marker lets it be submitted again, and what
 the outcomes of earlier jobs say about it. Job records change freely between
 any two steps of a pass; one pass runs at a time.
 */
module Dispatch {
  import opened Wrappers
  import opened JobRecords
  import opened Schedule

  // Occurrences of one routine are at least a minute apart; the runner treats
  // two instants within a second as the same one.
  const SLACK := 1000000

  datatype Key = Key(agent: string, routine: string)

  // A job record with the parts of its spec the dispatcher reads.
  datatype Job = Job(scheduled: bool, key: Key, record: Record)

  datatype Routine = Routine(rule: Rule, enabled: bool, conditional: bool, catchUp: Option<CatchUp>)

  // ---- What earlier jobs leave owed --------------------------------------

  predicate Relevant(j: Job, k: Key) {
    j.scheduled && k.routine != "" && j.key == k && j.record.dueAt.Some?
  }

  predicate Lost(j: Job, k: Key) {
    Relevant(j, k) && RecoverablePreRuntime(j.record)
  }

  predicate Served(j: Job, k: Key) {
    Relevant(j, k) && !RecoverablePreRuntime(j.record)
  }

  /** By the record's own fields: it failed, and either no launch was ever recorded,
      or it is marked as failed before its runtime and its ticket cleanup, if there
      was one, is confirmed and leaves nothing to do. */
  predicate StoppedEarly(r: Record) {
    && r.status == Failed
    && ((r.workerPid == None && r.launchedAt == None)
        || (r.metadata.failedBeforeRuntime
            && (r.metadata.ticketCleanup == None
                || r.metadata.ticketCleanup == Some(Cleanup(true, false, false, Idle, 0))
                || r.metadata.ticketCleanup == Some(Cleanup(true, false, false, Cleared, 0)))))
  }

  lemma RecoverableIsStoppedEarly(r: Record)
    ensures RecoverablePreRuntime(r) <==> StoppedEarly(r)
  {
  }

  /** `due` is the newest lost occurrence of `k`, later than every served one. */
  ghost predicate IsOwed(jobs: seq<Job>, k: Key, due: int) {
    && (exists j :: j in jobs && Lost(j, k) && j.record.dueAt.value == due)
    && (forall j :: j in jobs && Lost(j, k) ==> j.record.dueAt.value <= due)
    && (forall j :: j in jobs && Served(j, k) ==> j.record.dueAt.value < due)
  }

  ghost predicate LostMap(jobs: seq<Job>, lost: map<Key, int>) {
    && (forall k :: k in lost ==> IsOwed(jobs, k, lost[k]))
    && (forall k, due :: IsOwed(jobs, k, due) ==> k in lost)
  }

  /** One accumulator of `lost_occurrences`: the newest due date per key. */
  ghost predicate Newest(jobs: seq<Job>, found: map<Key, int>, recoverable: bool) {
    && (forall k :: k in found ==>
          exists j :: j in jobs && Relevant(j, k) && RecoverablePreRuntime(j.record) == recoverable
                   && j.record.dueAt.value == found[k])
    && (forall k, j :: j in jobs && Relevant(j, k) && RecoverablePreRuntime(j.record) == recoverable ==>
          k in found && j.record.dueAt.value <= found[k])
  }

  function Raised(found: map<Key, int>, k: Key, due: int): map<Key, int> {
    if k !in found || due > found[k] then found[k := due] else found
  }

  lemma NewestExtends(jobs: seq<Job>, found: map<Key, int>, recoverable: bool, j: Job)
    requires Newest(jobs, found, recoverable)
    ensures Relevant(j, j.key) && RecoverablePreRuntime(j.record) == recoverable ==>
      Newest(jobs + [j], Raised(found, j.key, j.record.dueAt.value), recoverable)
    ensures !Relevant(j, j.key) || RecoverablePreRuntime(j.record) != recoverable ==>
      Newest(jobs + [j], found, recoverable)
  {
    assert forall x :: x in jobs + [j] <==> x in jobs || x == j;
  }

  method LostOccurrences(jobs: seq<Job>) returns (owed: map<Key, int>)
    ensures LostMap(jobs, owed)
    ensures forall j :: j in jobs && j.scheduled && j.key in owed && j.record.dueAt.Some? && !StoppedEarly(j.record) ==>
      j.record.dueAt.value < owed[j.key]
    ensures forall k :: k in owed ==>
      exists j :: j in jobs && j.scheduled && j.key == k && j.record.dueAt == Some(owed[k]) && StoppedEarly(j.record)
    ensures forall j :: j in jobs && NothingSince(jobs, j) ==> j.key in owed && j.record.dueAt.value <= owed[j.key]
  {
    var lost: map<Key, int>, served: map<Key, int> := map[], map[];
    for i := 0 to |jobs|
      invariant Newest(jobs[..i], lost, true) && Newest(jobs[..i], served, false)
    {
      var j := jobs[i];
      NewestExtends(jobs[..i], lost, true, j);
      NewestExtends(jobs[..i], served, false, j);
      assert jobs[..i + 1] == jobs[..i] + [j];
      if j.scheduled && j.key.routine != "" && j.record.dueAt.Some? {
        var occurrence := j.record.dueAt.value;
        if RecoverablePreRuntime(j.record) {
          if j.key !in lost || occurrence > lost[j.key] {
            lost := lost[j.key := occurrence];
          }
        } else {
          if j.key !in served || occurrence > served[j.key] {
            served := served[j.key := occurrence];
          }
        }
      }
    }
    assert jobs[..|jobs|] == jobs;
    owed := map k | k in lost && (k !in served || lost[k] > served[k]) :: lost[k];
    OwedByFields(jobs, owed);
  }

  /** A job that stopped early, with no other of its routine due as late. */
  ghost predicate NothingSince(jobs: seq<Job>, j: Job) {
    && j.scheduled && j.key.routine != "" && j.record.dueAt.Some? && StoppedEarly(j.record)
    && (forall i :: i in jobs && i.scheduled && i.key == j.key && DueNotBefore(i, j) ==> StoppedEarly(i.record))
  }

  predicate DueNotBefore(a: Job, b: Job) {
    a.record.dueAt.Some? && b.record.dueAt.Some? && a.record.dueAt.value >= b.record.dueAt.value
  }

  lemma OwedByFields(jobs: seq<Job>, owed: map<Key, int>)
    requires LostMap(jobs, owed)
    ensures forall j :: j in jobs && j.scheduled && j.key in owed && j.record.dueAt.Some? && !StoppedEarly(j.record) ==>
      j.record.dueAt.value < owed[j.key]
    ensures forall k :: k in owed ==>
      exists j :: j in jobs && j.scheduled && j.key == k && j.record.dueAt == Some(owed[k]) && StoppedEarly(j.record)
    ensures forall j :: j in jobs && NothingSince(jobs, j) ==> j.key in owed && j.record.dueAt.value <= owed[j.key]
  {
    forall j | j in jobs
      ensures RecoverablePreRuntime(j.record) <==> StoppedEarly(j.record)
    {
      RecoverableIsStoppedEarly(j.record);
    }
    forall j | j in jobs && NothingSince(jobs, j)
      ensures j.key in owed && j.record.dueAt.value <= owed[j.key]
    {
      var due := NewestLost(jobs, j);
      assert IsOwed(jobs, j.key, due);
    }
    forall k | k in owed
      ensures exists j :: j in jobs && j.scheduled && j.key == k && j.record.dueAt == Some(owed[k]) && StoppedEarly(j.record)
    {
      var j :| j in jobs && Lost(j, k) && j.record.dueAt.value == owed[k];
      assert j.record.dueAt == Some(owed[k]);
    }
  }

  /** The newest lost occurrence is not older than any one of them. */
  lemma NewestLost(jobs: seq<Job>, j: Job) returns (due: int)
    requires j in jobs && Lost(j, j.key)
    ensures j.record.dueAt.value <= due
    ensures exists i :: i in jobs && Lost(i, j.key) && i.record.dueAt.value == due
    ensures forall i :: i in jobs && Lost(i, j.key) ==> i.record.dueAt.value <= due
  {
    due := j.record.dueAt.value;
    for n := 0 to |jobs|
      invariant j.record.dueAt.value <= due
      invariant exists i :: i in jobs && Lost(i, j.key) && i.record.dueAt.value == due
      invariant forall m :: 0 <= m < n && Lost(jobs[m], j.key) ==> jobs[m].record.dueAt.value <= due
    {
      if Lost(jobs[n], j.key) && jobs[n].record.dueAt.value > due {
        due := jobs[n].record.dueAt.value;
        assert jobs[n] in jobs;
      }
    }
  }

  /** At most one occurrence is owed, so the map is determined by its meaning. */
  lemma OwedIsUnique(jobs: seq<Job>, k: Key, a: int, b: int)
    requires IsOwed(jobs, k, a) && IsOwed(jobs, k, b)
    ensures a == b
  {
  }

  /** The order in which records are read does not matter. */
  lemma LostIsOrderIndependent(xs: seq<Job>, ys: seq<Job>, a: map<Key, int>, b: map<Key, int>)
    requires forall j :: j in xs <==> j in ys
    requires LostMap(xs, a) && LostMap(ys, b)
    ensures a == b
  {
    forall k | k in a
      ensures k in b && a[k] == b[k]
    {
      assert IsOwed(ys, k, a[k]);
      OwedIsUnique(ys, k, a[k], b[k]);
    }
    forall k | k in b
      ensures k in a
    {
      assert IsOwed(xs, k, b[k]);
    }
  }

  // ---- One routine -------------------------------------------------------

  predicate SameOccurrence(left: Option<int>, right: Option<int>) {
    left.Some? && right.Some? && -SLACK <= left.value - right.value <= SLACK
  }

  /** The occurrence this routine owes, if any. */
  function DueOccurrence(rule: Rule, anchor: Option<int>, now: int, unrun: Option<int>): Option<int> {
    match rule
    case At(minute) => LastAt(minute, now)
    case Every(period) =>
      if period.None? || period.value <= 0 then None
      else if anchor.None? then Some(now)
      else
        var occurrence := LastEvery(anchor.value, period, now);
        if occurrence.None? && SameOccurrence(unrun, anchor) then unrun else occurrence
    case NoRule => None
  }

  /** What one visit submits. `marked` says whether an `at` marker of that day exists. */
  function Decision(r: Routine, anchor: Option<int>, marked: int -> bool, now: int, unrun: Option<int>, interval: int)
    : Option<int>
  {
    if !r.enabled || r.conditional || r.catchUp.None? then None
    else
      var occurrence := DueOccurrence(r.rule, anchor, now, unrun);
      if occurrence.None? then None
      else if r.rule.At? && marked(occurrence.value / DAY) && !SameOccurrence(occurrence, unrun) then None
      else if !CatchUpAllows(occurrence.value, now, r.catchUp.value, GraceWindow(interval)) then None
      else occurrence
  }

  /** The occurrence and the cycle that meets it are close enough for the bound. */
  ghost predicate MetInTime(bound: CatchUp, o: int, now: int, interval: int) {
    match bound
    case Always => true
    case Today => !MidnightBetween(o, now) && !MidnightBetween(now, o)
    case Within(period) => now <= o + period
    case OnTime => now < o + interval * MINUTE + 2 * MINUTE
  }

  /** What a routine owes at `now`, apart from how it is found: of an `at` rule the
      instant on its minute in the last 24 hours, unless that day is marked and not
      lost; of an `every` rule the newest whole number of periods after the marker,
      or the marked occurrence itself when that was lost. */
  ghost predicate Owes(r: Routine, anchor: Option<int>, marked: int -> bool, now: int, unrun: Option<int>,
                       interval: int, o: int)
  {
    && r.enabled && !r.conditional && r.catchUp.Some? && MetInTime(r.catchUp.value, o, now, interval)
    && match r.rule
       case At(Some(minute)) =>
         && o % DAY == minute * MINUTE && o <= now < o + DAY
         && (marked(o / DAY) ==> unrun.Some? && o - SLACK <= unrun.value <= o + SLACK)
       case Every(Some(period)) =>
         period > 0 &&
         (if anchor.None? then o == now
          else if now < anchor.value + period then
            unrun == Some(o) && anchor.value - SLACK <= o <= anchor.value + SLACK
          else o <= now < o + period && (o - anchor.value) % period == 0)
       case _ => false
  }

  lemma BoundMeetsInTime(bound: CatchUp, o: int, now: int, interval: int)
    ensures CatchUpAllows(o, now, bound, GraceWindow(interval)) <==> MetInTime(bound, o, now, interval)
  {
    if o <= now {
      TodayDropsIff(o, now, GraceWindow(interval));
    } else {
      TodayDropsIff(now, o, GraceWindow(interval));
    }
  }

  lemma DailyInstantIsLast(minute: int, now: int, o: int)
    requires 0 <= minute < 1440 && o % DAY == minute * MINUTE && o <= now < o + DAY
    ensures LastAt(Some(minute), now) == Some(o)
  {
    LastAtIsNewest(minute, now, o / DAY);
    var last := LastAt(Some(minute), now).value;
    assert o == o / DAY * DAY + minute * MINUTE && last == last / DAY * DAY + minute * MINUTE;
  }

  lemma NewestOnGridIsLast(anchor: int, period: int, now: int, o: int)
    requires period > 0 && anchor + period <= now && o <= now < o + period && (o - anchor) % period == 0
    ensures LastEvery(anchor, Some(period), now) == Some(o)
  {
    LastEveryIsGreatest(anchor, period, now, 1);
    var last := LastEvery(anchor, Some(period), now).value;
    SameRemainder(o - anchor, last - anchor, period);
    assert (o - anchor) - (last - anchor) == o - last;
    SameSlot(o, last, period);
  }

  /** The decision submits an occurrence exactly when it is owed. */
  lemma DecisionIsOwed(r: Routine, anchor: Option<int>, marked: int -> bool, now: int, unrun: Option<int>,
                       interval: int, o: int)
    requires RuleOk(r.rule)
    ensures Decision(r, anchor, marked, now, unrun, interval) == Some(o) <==>
      Owes(r, anchor, marked, now, unrun, interval, o)
  {
    if r.catchUp.Some? {
      BoundMeetsInTime(r.catchUp.value, o, now, interval);
    }
    match r.rule
    case At(Some(minute)) =>
      LastAtIsNewest(minute, now, 0);
      if o % DAY == minute * MINUTE && o <= now < o + DAY {
        DailyInstantIsLast(minute, now, o);
      }
    case Every(Some(period)) =>
      if period > 0 && anchor.Some? {
        LastEveryIsGreatest(anchor.value, period, now, 1);
        if anchor.value + period <= now && o <= now < o + period && (o - anchor.value) % period == 0 {
          NewestOnGridIsLast(anchor.value, period, now, o);
        }
      }
    case _ =>
  }

  // ---- Runs of passes ----------------------------------------------------

  // `snapshot` is what the pass has read so far, one record after the other;
  // `lost` is computed once it has read them all.
  datatype Pass = Pass(snapshot: seq<Job>, lost: Option<map<Key, int>>, visited: set<Key>)

  // `first` remembers each `every` routine's first marker.
  datatype State = State(
    jobs: seq<Job>,
    anchors: map<Key, int>,
    atMarkers: set<(Key, int)>,
    first: map<Key, int>,
    now: int,
    pass: Option<Pass>)

  // How a submission ends: refused without a record, refused after its record
  // failed (SettleRaises), or accepted.
  datatype Outcome = NoRecord | Refused(record: Record) | Accepted(record: Record)

  datatype Step =
    | Tick(d: nat)
    | Evolve(i: nat, record: Record)
    | OtherJob(job: Job)
    | PassBegin
    | ReadRecord
    | ReadDone(lost: map<Key, int>)
    | Visit(k: Key, outcome: Outcome)
    | PassEnd

  datatype Config = Config(plan: map<Key, Routine>, interval: int)

  /** Rules the configuration can hold: whole minutes of the day, and periods
      that are whole numbers of minutes. */
  predicate ConfigOk(c: Config) {
    forall k :: k in c.plan ==> RuleOk(c.plan[k].rule) && k.routine != ""
  }

  predicate RuleOk(rule: Rule) {
    match rule
    case At(Some(minute)) => 0 <= minute < 1440
    case Every(Some(period)) => period >= 0 && period % MINUTE == 0
    case _ => true
  }

  function Init(now: int): State {
    State([], map[], {}, map[], now, None)
  }

  /** A record that failed without a launch stays that way (see
      JobExecution.FailedUnlaunchedIsPermanent); nothing else is fixed. */
  predicate Evolves(before: Record, after: Record) {
    && after.dueAt == before.dueAt
    && (before.status.Failed? && !IsLaunched(before) ==> after.status.Failed? && !IsLaunched(after))
  }

  function Anchor(s: State, k: Key): Option<int> {
    if k in s.anchors then Some(s.anchors[k]) else None
  }

  function Unrun(p: Pass, k: Key): Option<int> {
    if p.lost.Some? && k in p.lost.value then Some(p.lost.value[k]) else None
  }

  function Submitted(c: Config, s: State, k: Key): Option<int>
    requires k in c.plan && s.pass.Some?
  {
    Decision(c.plan[k], Anchor(s, k), day => (k, day) in s.atMarkers, s.now, Unrun(s.pass.value, k), c.interval)
  }

  ghost predicate OwedNow(c: Config, s: State, k: Key, o: int)
    requires k in c.plan && s.pass.Some?
  {
    Owes(c.plan[k], Anchor(s, k), day => (k, day) in s.atMarkers, s.now, Unrun(s.pass.value, k), c.interval, o)
  }

  lemma SubmittedIsOwed(c: Config, s: State, k: Key)
    requires ConfigOk(c) && k in c.plan && s.pass.Some?
    ensures forall o :: Submitted(c, s, k) == Some(o) <==> OwedNow(c, s, k, o)
  {
    forall o
      ensures Submitted(c, s, k) == Some(o) <==> OwedNow(c, s, k, o)
    {
      DecisionIsOwed(c.plan[k], Anchor(s, k), day => (k, day) in s.atMarkers, s.now, Unrun(s.pass.value, k), c.interval, o);
    }
  }

  ghost predicate Enabled(c: Config, s: State, step: Step) {
    match step
    case Tick(_) => true
    case Evolve(i, record) => i < |s.jobs| && Evolves(s.jobs[i].record, record)
    case OtherJob(job) => !job.scheduled
    case PassBegin => s.pass.None?
    case ReadRecord => s.pass.Some? && s.pass.value.lost.None? && |s.pass.value.snapshot| < |s.jobs|
    case ReadDone(lost) =>
      && s.pass.Some? && s.pass.value.lost.None?
      && |s.pass.value.snapshot| <= |s.jobs|
      && (forall i :: |s.pass.value.snapshot| <= i < |s.jobs| ==> !s.jobs[i].scheduled)
      && LostMap(s.pass.value.snapshot, lost)
    case Visit(k, outcome) =>
      && s.pass.Some? && s.pass.value.lost.Some? && k in c.plan && k !in s.pass.value.visited
      && (Submitted(c, s, k).Some? ==> OutcomeOk(outcome, Submitted(c, s, k).value))
    case PassEnd => s.pass.Some?
  }

  predicate OutcomeOk(outcome: Outcome, occurrence: int) {
    match outcome
    case NoRecord => true
    case Refused(record) => SettleRaises(record) && record.dueAt == Some(occurrence)
    case Accepted(record) => record.dueAt == Some(occurrence)
  }

  /** A refused submission's record never reached a worker. The code tests only
      `launched_at`, which a worker that outran its claim leaves empty. */
  predicate Honest(step: Step) {
    step.Visit? && step.outcome.Refused? ==> step.outcome.record.workerPid.None?
  }

  function Stamp(c: Config, s: State, k: Key, occurrence: int): State
    requires k in c.plan
  {
    if c.plan[k].rule.At? then s.(atMarkers := s.atMarkers + {(k, occurrence / DAY)})
    else s.(anchors := s.anchors[k := occurrence], first := if k in s.first then s.first else s.first[k := occurrence])
  }

  function VisitStep(c: Config, s: State, k: Key, outcome: Outcome): State
    requires s.pass.Some? && k in c.plan
  {
    var t := s.(pass := Some(s.pass.value.(visited := s.pass.value.visited + {k})));
    var occurrence := Submitted(c, s, k);
    if occurrence.None? || outcome.NoRecord? then t
    else
      var u := t.(jobs := t.jobs + [Job(true, k, outcome.record)]);
      if outcome.Accepted? then Stamp(c, u, k, occurrence.value) else u
  }

  ghost function Next(c: Config, s: State, step: Step): State
    requires Enabled(c, s, step)
  {
    match step
    case Tick(d) => s.(now := s.now + d)
    case Evolve(i, record) => s.(jobs := s.jobs[i := s.jobs[i].(record := record)])
    case OtherJob(job) => s.(jobs := s.jobs + [job])
    case PassBegin => s.(pass := Some(Pass([], None, {})))
    case ReadRecord =>
      var p := s.pass.value;
      s.(pass := Some(p.(snapshot := p.snapshot + [s.jobs[|p.snapshot|]])))
    case ReadDone(lost) => s.(pass := Some(s.pass.value.(lost := Some(lost))))
    case Visit(k, outcome) => VisitStep(c, s, k, outcome)
    case PassEnd => s.(pass := None)
  }

  ghost predicate Runs(c: Config, s: State, steps: seq<Step>)
    decreases |steps|
  {
    steps == [] || (Enabled(c, s, steps[0]) && Runs(c, Next(c, s, steps[0]), steps[1..]))
  }

  ghost function Exec(c: Config, s: State, steps: seq<Step>): State
    requires Runs(c, s, steps)
    decreases |steps|
  {
    if steps == [] then s else Exec(c, Next(c, s, steps[0]), steps[1..])
  }
}
