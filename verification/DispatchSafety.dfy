/**
 Over every run of passes whose refused submissions are honest: an occurrence is
 submitted again only when every earlier record of it had failed before its
 runtime, and `every` markers never drift.
 */
module DispatchSafety {
  import opened Wrappers
  import opened JobRecords
  import opened Schedule
  import opened Dispatch

  predicate Unlaunched(r: Record) {
    r.status.Failed? && !IsLaunched(r)
  }

  /** `a` is a whole number of periods after `base`. */
  ghost predicate OnGrid(a: int, base: int, period: int)
    decreases if a > base then a - base else 0
  {
    a == base || (period > 0 && base + period <= a && OnGrid(a - period, base, period))
  }

  lemma {:induction false} GridIsMultiple(a: int, base: int, period: int)
    requires period > 0
    ensures OnGrid(a, base, period) <==> base <= a && (a - base) % period == 0
    decreases if a > base then a - base else 0
  {
    if base + period <= a {
      GridIsMultiple(a - period, base, period);
      Multiple(1, period);
      if OnGrid(a, base, period) {
        SameRemainder(a - period - base, period, period);
      } else if (a - base) % period == 0 {
        SameRemainder(a - base, period, period);
      }
    } else if base < a && (a - base) % period == 0 {
      SameSlot(a, base, period);
    } else {
      Multiple(0, period);
    }
  }

  lemma {:induction false} GridContinues(a: int, b: int, base: int, period: int)
    requires OnGrid(a, b, period) && OnGrid(b, base, period)
    ensures OnGrid(a, base, period)
    decreases if a > b then a - b else 0
  {
    if a != b {
      GridContinues(a - period, b, base, period);
      GridIsMultiple(a - period, base, period);
    }
  }

  /** How a scheduled record and its routine's marker agree. */
  ghost predicate JobFacts(c: Config, s: State, j: Job) {
    j.scheduled ==>
      && j.key in c.plan && j.record.dueAt.Some?
      && var due := j.record.dueAt.value;
         match c.plan[j.key].rule
         case At(Some(minute)) =>
           && due % DAY == minute * MINUTE
           && ((j.key, due / DAY) in s.atMarkers || Unlaunched(j.record))
         case Every(Some(period)) =>
           && due <= s.now
           && (j.key !in s.anchors ==> Unlaunched(j.record))
           && (j.key in s.anchors && j.key in s.first ==>
                 && (due <= s.anchors[j.key] || Unlaunched(j.record))
                 && (due <= s.first[j.key] || OnGrid(due, s.first[j.key], period)))
         case _ => false
  }

  /** A marker is a whole number of periods after the first one. */
  ghost predicate AnchorFacts(c: Config, s: State, k: Key) {
    && (k in s.first <==> k in s.anchors)
    && (k in s.anchors ==>
          && k in c.plan && c.plan[k].rule.Every? && c.plan[k].rule.period.Some?
          && c.plan[k].rule.period.value > 0
          && s.anchors[k] <= s.now
          && OnGrid(s.anchors[k], s.first[k], c.plan[k].rule.period.value))
  }

  ghost predicate HasRecord(jobs: seq<Job>, k: Key, due: int) {
    exists j :: j in jobs && Relevant(j, k) && j.record.dueAt.value == due
  }

  ghost predicate SameJob(before: Job, after: Job) {
    before.scheduled == after.scheduled && before.key == after.key && Evolves(before.record, after.record)
  }

  ghost predicate JobsOk(c: Config, s: State, jobs: seq<Job>) {
    forall i :: 0 <= i < |jobs| ==> JobFacts(c, s, jobs[i])
  }

  ghost predicate Tracks(snapshot: seq<Job>, jobs: seq<Job>) {
    |snapshot| <= |jobs| && forall i :: 0 <= i < |snapshot| ==> SameJob(snapshot[i], jobs[i])
  }

  /** Scheduled jobs a pass has not read are its own. */
  ghost predicate OwnAfter(snapshot: seq<Job>, jobs: seq<Job>, visited: set<Key>) {
    forall i :: |snapshot| <= i < |jobs| && jobs[i].scheduled ==> jobs[i].key in visited
  }

  ghost predicate MarkersRecorded(jobs: seq<Job>, anchors: map<Key, int>, visited: set<Key>) {
    forall k :: k in anchors && k !in visited ==> HasRecord(jobs, k, anchors[k])
  }

  ghost predicate PassFacts(c: Config, s: State, p: Pass) {
    && Tracks(p.snapshot, s.jobs)
    && JobsOk(c, s, p.snapshot)
    && (p.lost.None? ==> p.visited == {})
    && (p.lost.Some? ==>
          && LostMap(p.snapshot, p.lost.value)
          && OwnAfter(p.snapshot, s.jobs, p.visited)
          && MarkersRecorded(p.snapshot, s.anchors, p.visited))
  }

  ghost predicate Inv(c: Config, s: State) {
    && JobsOk(c, s, s.jobs)
    && (forall k :: AnchorFacts(c, s, k))
    && MarkersRecorded(s.jobs, s.anchors, {})
    && (s.pass.Some? ==> PassFacts(c, s, s.pass.value))
  }

  ghost predicate Visiting(c: Config, s: State, k: Key) {
    && ConfigOk(c) && Inv(c, s) && k in c.plan
    && s.pass.Some? && s.pass.value.lost.Some? && k !in s.pass.value.visited
  }

  // ---- The retried occurrence is the marked one --------------------------

  /** Two instants of one `every` grid, at most a second apart, are equal. */
  lemma OnEveryGrid(a: int, b: int, first: int, period: int)
    requires period > 0 && period % MINUTE == 0
    requires OnGrid(a, first, period) && OnGrid(b, first, period) && -SLACK <= a - b <= SLACK
    ensures a == b
  {
    GridIsMultiple(a, first, period);
    GridIsMultiple(b, first, period);
    Times(period / MINUTE, MINUTE);
    SameRemainder(a - first, b - first, period);
    assert (a - first) - (b - first) == a - b;
    SameSlot(a, b, period);
  }

  /** Two instants of one daily minute, at most a second apart, are equal. */
  lemma OnDailyGrid(a: int, b: int, minute: int)
    requires a % DAY == minute * MINUTE && b % DAY == minute * MINUTE && -SLACK <= a - b <= SLACK
    ensures a == b
  {
    assert a - b == (a / DAY - b / DAY) * DAY;
    Times(a / DAY - b / DAY, DAY);
  }

  /** Whatever an `every` routine has lost is not before its marker. */
  lemma LostNotBeforeAnchor(jobs: seq<Job>, k: Key, lost: int, anchor: int)
    requires IsOwed(jobs, k, lost) && HasRecord(jobs, k, anchor)
    ensures anchor <= lost
  {
    var a :| a in jobs && Relevant(a, k) && a.record.dueAt.value == anchor;
    assert Lost(a, k) || Served(a, k);
  }

  lemma LostFacts(c: Config, s: State, jobs: seq<Job>, k: Key, lost: int)
    requires IsOwed(jobs, k, lost) && forall i :: 0 <= i < |jobs| ==> JobFacts(c, s, jobs[i])
    ensures exists j :: JobFacts(c, s, j) && Relevant(j, k) && j.record.dueAt.value == lost
  {
    var j :| j in jobs && Lost(j, k) && j.record.dueAt.value == lost;
    assert JobFacts(c, s, j);
  }

  /** Two `every` occurrences of one routine within the slack coincide. */
  lemma EveryLostIsAnchor(c: Config, s: State, k: Key, j: Job, lost: int)
    requires AnchorFacts(c, s, k) && k in s.anchors && RuleOk(c.plan[k].rule)
    requires JobFacts(c, s, j) && Relevant(j, k) && j.record.dueAt.value == lost
    requires s.anchors[k] <= lost <= s.anchors[k] + SLACK
    ensures lost == s.anchors[k]
  {
    if lost > s.anchors[k] {
      OnEveryGrid(lost, s.anchors[k], s.first[k], c.plan[k].rule.period.value);
    }
  }

  /** A lost occurrence within the slack of an `every` marker is the marker. */
  lemma UnrunIsAnchor(c: Config, s: State, k: Key)
    requires Visiting(c, s, k)
    ensures SameOccurrence(Unrun(s.pass.value, k), Anchor(s, k)) ==> Unrun(s.pass.value, k) == Anchor(s, k)
  {
    if SameOccurrence(Unrun(s.pass.value, k), Anchor(s, k)) {
      var p, anchor := s.pass.value, s.anchors[k];
      var lost := p.lost.value[k];
      LostNotBeforeAnchor(p.snapshot, k, lost, anchor);
      LostFacts(c, s, p.snapshot, k, lost);
      var j :| JobFacts(c, s, j) && Relevant(j, k) && j.record.dueAt.value == lost;
      assert AnchorFacts(c, s, k);
      EveryLostIsAnchor(c, s, k, j, lost);
    }
  }

  /** A lost occurrence within the slack of an `at` occurrence is that one. */
  lemma UnrunIsOccurrence(c: Config, s: State, k: Key, minute: int)
    requires Visiting(c, s, k) && c.plan[k].rule == At(Some(minute))
    requires SameOccurrence(LastAt(Some(minute), s.now), Unrun(s.pass.value, k))
    ensures Unrun(s.pass.value, k) == LastAt(Some(minute), s.now)
  {
    var lost, o := s.pass.value.lost.value[k], LastAt(Some(minute), s.now).value;
    assert IsOwed(s.pass.value.snapshot, k, lost);
    LostFacts(c, s, s.pass.value.snapshot, k, lost);
    LastAtIsNewest(minute, s.now, 0);
    OnDailyGrid(lost, o, minute);
  }

  // ---- Safety of one visit -----------------------------------------------

  /** Every earlier record of `due` had failed before its runtime when the pass
      read it. */
  ghost predicate EarlierRecovered(s: State, k: Key, due: int) {
    s.pass.Some? &&
    forall i :: 0 <= i < |s.jobs| && Relevant(s.jobs[i], k) && s.jobs[i].record.dueAt.value == due ==>
      i < |s.pass.value.snapshot| && RecoverablePreRuntime(s.pass.value.snapshot[i].record)
  }

  /** An `every` occurrence that is due, when the lost one near the marker is the
      marker itself. */
  lemma EveryDue(anchor: Option<int>, period: Option<int>, now: int, unrun: Option<int>, o: int)
    requires DueOccurrence(Every(period), anchor, now, unrun) == Some(o)
    requires anchor.Some? ==> anchor.value <= now && (SameOccurrence(unrun, anchor) ==> unrun == anchor)
    ensures period.Some? && period.value > 0 && o <= now
    ensures anchor.None? ==> o == now
    ensures anchor.Some? ==> OnGrid(o, anchor.value, period.value)
    ensures anchor == Some(o) ==> unrun == Some(o)
  {
    if anchor.Some? {
      LastEveryIsGreatest(anchor.value, period.value, now, 1);
      GridIsMultiple(o, anchor.value, period.value);
      Multiple(0, period.value);
    }
  }

  lemma EverySubmitted(c: Config, s: State, k: Key)
    requires Visiting(c, s, k) && c.plan[k].rule.Every? && Submitted(c, s, k).Some?
    ensures var o := Submitted(c, s, k).value;
      && c.plan[k].rule.period.Some? && c.plan[k].rule.period.value > 0 && o <= s.now
      && (k !in s.anchors ==> o == s.now)
      && (k in s.anchors ==> OnGrid(o, s.anchors[k], c.plan[k].rule.period.value))
      && (k in s.anchors && o == s.anchors[k] ==> Unrun(s.pass.value, k) == Some(o))
  {
    assert AnchorFacts(c, s, k);
    var anchor, unrun := Anchor(s, k), Unrun(s.pass.value, k);
    UnrunIsAnchor(c, s, k);
    EveryDue(anchor, c.plan[k].rule.period, s.now, unrun, Submitted(c, s, k).value);
  }

  /** What a visit of an `at` routine may submit. */
  lemma AtSubmitted(c: Config, s: State, k: Key)
    requires Visiting(c, s, k) && c.plan[k].rule.At? && Submitted(c, s, k).Some?
    ensures var o := Submitted(c, s, k).value;
      && c.plan[k].rule.minute.Some? && o % DAY == c.plan[k].rule.minute.value * MINUTE
      && ((k, o / DAY) in s.atMarkers ==> Unrun(s.pass.value, k) == Some(o))
  {
    var minute := c.plan[k].rule.minute.value;
    LastAtIsNewest(minute, s.now, 0);
    if (k, LastAt(Some(minute), s.now).value / DAY) in s.atMarkers {
      UnrunIsOccurrence(c, s, k, minute);
    }
  }

  /** A record of the lost occurrence itself is not a served one. */
  lemma NotServed(p: Pass, k: Key, i: nat)
    requires p.lost.Some? && LostMap(p.snapshot, p.lost.value) && k in p.lost.value && i < |p.snapshot|
    requires Relevant(p.snapshot[i], k) && p.snapshot[i].record.dueAt.value == p.lost.value[k]
    ensures RecoverablePreRuntime(p.snapshot[i].record)
  {
    assert IsOwed(p.snapshot, k, p.lost.value[k]);
    assert p.snapshot[i] in p.snapshot;
  }

  lemma VisitIsSafe(c: Config, s: State, k: Key)
    requires Visiting(c, s, k) && Submitted(c, s, k).Some?
    ensures EarlierRecovered(s, k, Submitted(c, s, k).value)
  {
    var p, o := s.pass.value, Submitted(c, s, k).value;
    assert AnchorFacts(c, s, k);
    if c.plan[k].rule.At? {
      AtSubmitted(c, s, k);
    } else {
      EverySubmitted(c, s, k);
    }
    forall i | 0 <= i < |s.jobs| && Relevant(s.jobs[i], k) && s.jobs[i].record.dueAt.value == o
      ensures i < |p.snapshot| && RecoverablePreRuntime(p.snapshot[i].record)
    {
      assert SameJob(p.snapshot[i], s.jobs[i]) && JobFacts(c, s, p.snapshot[i]);
      if Unrun(p, k) == Some(o) {
        NotServed(p, k, i);
      }
    }
  }

  // ---- What a visit changes ----------------------------------------------

  ghost predicate SubmittedFacts(c: Config, s: State, k: Key, o: int)
    requires k in c.plan
  {
    match c.plan[k].rule
    case At(Some(minute)) => o % DAY == minute * MINUTE
    case Every(Some(period)) =>
      && period > 0 && o <= s.now
      && (k in s.anchors ==> k in s.first && s.anchors[k] <= o && OnGrid(o, s.first[k], period))
      && (k !in s.anchors ==> k !in s.first && o == s.now)
    case _ => false
  }

  lemma EveryFacts(c: Config, s: State, k: Key, o: int, period: int)
    requires k in c.plan && c.plan[k].rule == Every(Some(period)) && period > 0 && o <= s.now
    requires AnchorFacts(c, s, k)
    requires k !in s.anchors ==> o == s.now
    requires k in s.anchors ==> OnGrid(o, s.anchors[k], period)
    ensures SubmittedFacts(c, s, k, o)
  {
    if k in s.anchors {
      GridContinues(o, s.anchors[k], s.first[k], period);
    }
  }

  /** A submission of an `every` routine moves its marker forward only, by whole
      periods, and an `at` submission falls on the routine's minute. */
  lemma SubmissionFacts(c: Config, s: State, k: Key)
    requires Visiting(c, s, k) && Submitted(c, s, k).Some?
    ensures SubmittedFacts(c, s, k, Submitted(c, s, k).value)
  {
    assert AnchorFacts(c, s, k);
    if c.plan[k].rule.At? {
      AtSubmitted(c, s, k);
    } else if c.plan[k].rule.Every? {
      EverySubmitted(c, s, k);
      EveryFacts(c, s, k, Submitted(c, s, k).value, c.plan[k].rule.period.value);
    }
  }

  /** Markers only advance: `t` has every marker of `s`, none of them earlier. */
  ghost predicate MarkersAdvance(s: State, t: State) {
    && s.now <= t.now && s.atMarkers <= t.atMarkers
    && (forall k :: k in s.anchors ==> k in t.anchors && s.anchors[k] <= t.anchors[k])
    && (forall k :: k in s.first ==> k in t.first && t.first[k] == s.first[k])
    && (forall k :: k in t.anchors && k !in s.anchors ==> k in t.first && t.first[k] == t.anchors[k] && s.now <= t.anchors[k])
  }

  lemma AdvanceKeepsJobFacts(c: Config, s: State, t: State, j: Job)
    requires MarkersAdvance(s, t) && (forall k :: AnchorFacts(c, s, k)) && (forall k :: AnchorFacts(c, t, k))
    requires JobFacts(c, s, j)
    ensures JobFacts(c, t, j)
  {
    assert AnchorFacts(c, s, j.key) && AnchorFacts(c, t, j.key);
  }

  lemma StampFacts(c: Config, s: State, k: Key, o: int)
    requires k in c.plan && SubmittedFacts(c, s, k, o) && forall i :: AnchorFacts(c, s, i)
    ensures MarkersAdvance(s, Stamp(c, s, k, o))
    ensures forall i :: AnchorFacts(c, Stamp(c, s, k, o), i)
  {
    var t := Stamp(c, s, k, o);
    assert AnchorFacts(c, s, k);
    forall i
      ensures AnchorFacts(c, t, i)
    {
      assert AnchorFacts(c, s, i);
    }
  }

  lemma VisitMarkers(c: Config, s: State, k: Key, outcome: Outcome)
    requires Visiting(c, s, k)
    ensures MarkersAdvance(s, VisitStep(c, s, k, outcome))
    ensures forall i :: AnchorFacts(c, VisitStep(c, s, k, outcome), i)
  {
    var t := VisitStep(c, s, k, outcome);
    if Submitted(c, s, k).Some? && outcome.Accepted? {
      var o := Submitted(c, s, k).value;
      SubmissionFacts(c, s, k);
      StampFacts(c, s, k, o);
      var u := Stamp(c, s, k, o);
      assert t.anchors == u.anchors && t.first == u.first && t.now == u.now && t.atMarkers == u.atMarkers;
      forall i
        ensures AnchorFacts(c, t, i)
      {
        assert AnchorFacts(c, u, i);
      }
    } else {
      forall i
        ensures AnchorFacts(c, t, i)
      {
        assert AnchorFacts(c, s, i);
      }
    }
  }

  lemma VisitJobs(c: Config, s: State, k: Key, outcome: Outcome)
    requires k in c.plan && s.pass.Some?
    ensures var t := VisitStep(c, s, k, outcome);
      && t.pass == Some(s.pass.value.(visited := s.pass.value.visited + {k}))
      && (t.jobs == s.jobs || (Submitted(c, s, k).Some? && !outcome.NoRecord?
                               && t.jobs == s.jobs + [Job(true, k, outcome.record)]))
      && (forall i :: i in t.anchors && i != k ==> i in s.anchors && t.anchors[i] == s.anchors[i])
      && (k in t.anchors && !(k in s.anchors && t.anchors[k] == s.anchors[k]) ==>
            && Submitted(c, s, k).Some? && outcome.Accepted? && t.anchors[k] == Submitted(c, s, k).value
            && t.jobs == s.jobs + [Job(true, k, outcome.record)])
  {
  }

  /** What a visit that leaves a record behind makes of the state. */
  lemma SubmissionStep(c: Config, s: State, k: Key, outcome: Outcome)
    requires k in c.plan && s.pass.Some? && Submitted(c, s, k).Some? && !outcome.NoRecord?
    ensures var t, o := VisitStep(c, s, k, outcome), Submitted(c, s, k).value;
      && t.now == s.now && t.jobs == s.jobs + [Job(true, k, outcome.record)]
      && (outcome.Refused? ==> t.atMarkers == s.atMarkers && t.anchors == s.anchors && t.first == s.first)
      && (outcome.Accepted? ==>
            t.atMarkers == Stamp(c, s, k, o).atMarkers && t.anchors == Stamp(c, s, k, o).anchors
            && t.first == Stamp(c, s, k, o).first)
  {
  }

  /** The record of a refused submission never reached a worker. */
  lemma RefusedJobFacts(c: Config, s: State, k: Key, o: int, record: Record)
    requires k in c.plan && AnchorFacts(c, s, k) && SubmittedFacts(c, s, k, o)
    requires record.dueAt == Some(o) && Unlaunched(record)
    ensures JobFacts(c, s, Job(true, k, record))
  {
  }

  /** The record of an accepted submission is covered by its marker. */
  lemma AcceptedJobFacts(c: Config, s: State, k: Key, o: int, record: Record)
    requires k in c.plan && AnchorFacts(c, s, k) && SubmittedFacts(c, s, k, o) && record.dueAt == Some(o)
    ensures JobFacts(c, Stamp(c, s, k, o), Job(true, k, record))
  {
    hide OnGrid;
  }

  lemma SameMarkersSameFacts(c: Config, s: State, t: State, j: Job)
    requires JobFacts(c, s, j)
    requires s.now == t.now && s.atMarkers == t.atMarkers && s.anchors == t.anchors && s.first == t.first
    ensures JobFacts(c, t, j)
  {
  }

  lemma VisitAddsGoodJob(c: Config, s: State, k: Key, outcome: Outcome)
    requires Visiting(c, s, k) && Enabled(c, s, Visit(k, outcome)) && Honest(Visit(k, outcome))
    requires Submitted(c, s, k).Some? && !outcome.NoRecord?
    ensures JobFacts(c, VisitStep(c, s, k, outcome), Job(true, k, outcome.record))
  {
    var o := Submitted(c, s, k).value;
    SubmissionFacts(c, s, k);
    SubmissionStep(c, s, k, outcome);
    assert AnchorFacts(c, s, k);
    hide VisitStep, Submitted, JobFacts, AnchorFacts, SubmittedFacts;
    if outcome.Refused? {
      RefusedJobFacts(c, s, k, o, outcome.record);
      SameMarkersSameFacts(c, s, VisitStep(c, s, k, outcome), Job(true, k, outcome.record));
    } else {
      AcceptedJobFacts(c, s, k, o, outcome.record);
      SameMarkersSameFacts(c, Stamp(c, s, k, o), VisitStep(c, s, k, outcome), Job(true, k, outcome.record));
    }
  }

  lemma VisitKeepsJobsOk(c: Config, s: State, k: Key, outcome: Outcome, jobs: seq<Job>)
    requires Visiting(c, s, k) && JobsOk(c, s, jobs)
    ensures JobsOk(c, VisitStep(c, s, k, outcome), jobs)
  {
    VisitMarkers(c, s, k, outcome);
    forall i | 0 <= i < |jobs|
      ensures JobFacts(c, VisitStep(c, s, k, outcome), jobs[i])
    {
      AdvanceKeepsJobFacts(c, s, VisitStep(c, s, k, outcome), jobs[i]);
    }
  }

  lemma RecordKept(jobs: seq<Job>, more: seq<Job>, k: Key, due: int)
    requires HasRecord(jobs, k, due) && Tracks(jobs, more)
    ensures HasRecord(more, k, due)
  {
    var i :| 0 <= i < |jobs| && Relevant(jobs[i], k) && jobs[i].record.dueAt.value == due;
    assert more[i] in more && Relevant(more[i], k);
  }

  lemma AppendedRecord(jobs: seq<Job>, k: Key, record: Record)
    requires k.routine != "" && record.dueAt.Some?
    ensures HasRecord(jobs + [Job(true, k, record)], k, record.dueAt.value)
  {
    var j := Job(true, k, record);
    assert (jobs + [j])[|jobs|] == j;
    assert j in jobs + [j] && Relevant(j, k);
  }

  const NO_RECORD := NewRecord(None)

  lemma TracksMore(jobs: seq<Job>, more: seq<Job>)
    requires jobs <= more
    ensures Tracks(jobs, more)
  {
  }

  /** An unchanged marker keeps its record, a new one is the appended record's. */
  lemma MarkersStayRecorded(jobs: seq<Job>, more: seq<Job>, anchors: map<Key, int>, after: map<Key, int>, k: Key,
                            record: Record)
    requires MarkersRecorded(jobs, anchors, {}) && jobs <= more
    requires forall i :: i in after && i != k ==> i in anchors && after[i] == anchors[i]
    requires k in after && !(k in anchors && after[k] == anchors[k]) ==>
      more == jobs + [Job(true, k, record)] && k.routine != "" && record.dueAt == Some(after[k])
    ensures MarkersRecorded(more, after, {})
  {
    TracksMore(jobs, more);
    forall i | i in after
      ensures HasRecord(more, i, after[i])
    {
      if i in anchors && after[i] == anchors[i] {
        RecordKept(jobs, more, i, after[i]);
      } else {
        AppendedRecord(jobs, k, record);
      }
    }
  }

  lemma VisitKeepsRecords(c: Config, s: State, k: Key, outcome: Outcome)
    requires Visiting(c, s, k) && Enabled(c, s, Visit(k, outcome))
    ensures MarkersRecorded(VisitStep(c, s, k, outcome).jobs, VisitStep(c, s, k, outcome).anchors, {})
  {
    var t := VisitStep(c, s, k, outcome);
    VisitJobs(c, s, k, outcome);
    hide VisitStep, MarkersRecorded, JobsOk, PassFacts, AnchorFacts;
    MarkersStayRecorded(s.jobs, t.jobs, s.anchors, t.anchors, k, if outcome.NoRecord? then NO_RECORD else outcome.record);
  }

  lemma VisitKeepsInv(c: Config, s: State, k: Key, outcome: Outcome)
    requires Visiting(c, s, k) && Enabled(c, s, Visit(k, outcome)) && Honest(Visit(k, outcome))
    ensures Inv(c, VisitStep(c, s, k, outcome))
  {
    var t := VisitStep(c, s, k, outcome);
    VisitJobs(c, s, k, outcome);
    VisitMarkers(c, s, k, outcome);
    VisitKeepsRecords(c, s, k, outcome);
    VisitKeepsJobsOk(c, s, k, outcome, s.jobs);
    VisitKeepsJobsOk(c, s, k, outcome, s.pass.value.snapshot);
    if t.jobs != s.jobs {
      VisitAddsGoodJob(c, s, k, outcome);
    }
  }

  // ---- Steps that leave the markers alone --------------------------------

  /** The clock and the markers as `t` has them, jobs and pass aside. */
  lemma QuietKeepsFacts(c: Config, s: State, t: State, jobs: seq<Job>)
    requires s.now <= t.now && s.atMarkers == t.atMarkers && s.anchors == t.anchors && s.first == t.first
    requires (forall k :: AnchorFacts(c, s, k)) && JobsOk(c, s, jobs)
    ensures (forall k :: AnchorFacts(c, t, k)) && JobsOk(c, t, jobs)
  {
    forall k
      ensures AnchorFacts(c, t, k)
    {
      assert AnchorFacts(c, s, k);
    }
    forall i | 0 <= i < |jobs|
      ensures JobFacts(c, t, jobs[i])
    {
      AdvanceKeepsJobFacts(c, s, t, jobs[i]);
    }
  }

  lemma TickKeepsInv(c: Config, s: State, d: nat)
    requires Inv(c, s)
    ensures Inv(c, Next(c, s, Tick(d)))
  {
    QuietKeepsFacts(c, s, Next(c, s, Tick(d)), s.jobs);
    if s.pass.Some? {
      QuietKeepsFacts(c, s, Next(c, s, Tick(d)), s.pass.value.snapshot);
    }
  }

  /** Replacing the record list: `jobs` continues the old list. */
  lemma JobsKeepInv(c: Config, s: State, jobs: seq<Job>)
    requires Inv(c, s) && Tracks(s.jobs, jobs) && JobsOk(c, s, jobs)
    requires forall i :: |s.jobs| <= i < |jobs| ==> !jobs[i].scheduled
    ensures Inv(c, s.(jobs := jobs))
  {
    var t := s.(jobs := jobs);
    QuietKeepsFacts(c, s, t, jobs);
    forall k | k in s.anchors
      ensures HasRecord(jobs, k, s.anchors[k])
    {
      RecordKept(s.jobs, jobs, k, s.anchors[k]);
    }
    if s.pass.Some? {
      QuietKeepsFacts(c, s, t, s.pass.value.snapshot);
      TracksOn(s.pass.value.snapshot, s.jobs, jobs);
    }
  }

  lemma TracksOn(a: seq<Job>, b: seq<Job>, c: seq<Job>)
    requires Tracks(a, b) && Tracks(b, c)
    ensures Tracks(a, c)
  {
    forall i | 0 <= i < |a|
      ensures SameJob(a[i], c[i])
    {
      assert SameJob(a[i], b[i]) && SameJob(b[i], c[i]);
    }
  }

  lemma EvolveKeepsInv(c: Config, s: State, i: nat, record: Record)
    requires Inv(c, s) && Enabled(c, s, Evolve(i, record))
    ensures Inv(c, Next(c, s, Evolve(i, record)))
  {
    var jobs := s.jobs[i := s.jobs[i].(record := record)];
    forall n | 0 <= n < |jobs|
      ensures JobFacts(c, s, jobs[n])
    {
      assert JobFacts(c, s, s.jobs[n]);
    }
    JobsKeepInv(c, s, jobs);
  }

  lemma PassKeepsInv(c: Config, s: State, p: Option<Pass>)
    requires Inv(c, s) && (p.Some? ==> PassFacts(c, s, p.value))
    ensures Inv(c, s.(pass := p))
  {
    QuietKeepsFacts(c, s, s.(pass := p), s.jobs);
    if p.Some? {
      QuietKeepsFacts(c, s, s.(pass := p), p.value.snapshot);
    }
  }

  lemma ReadRecordKeepsInv(c: Config, s: State)
    requires Inv(c, s) && Enabled(c, s, ReadRecord)
    ensures Inv(c, Next(c, s, ReadRecord))
  {
    var p := s.pass.value;
    PassKeepsInv(c, s, Some(p.(snapshot := p.snapshot + [s.jobs[|p.snapshot|]])));
  }

  /** All scheduled jobs are read, so every marker's record is among them. */
  lemma ReadDoneKeepsInv(c: Config, s: State, lost: map<Key, int>)
    requires Inv(c, s) && Enabled(c, s, ReadDone(lost))
    ensures Inv(c, Next(c, s, ReadDone(lost)))
  {
    var p := s.pass.value;
    forall k | k in s.anchors
      ensures HasRecord(p.snapshot, k, s.anchors[k])
    {
      var i :| 0 <= i < |s.jobs| && Relevant(s.jobs[i], k) && s.jobs[i].record.dueAt.value == s.anchors[k];
      assert SameJob(p.snapshot[i], s.jobs[i]) && p.snapshot[i] in p.snapshot;
    }
    PassKeepsInv(c, s, Some(p.(lost := Some(lost))));
  }

  lemma StepKeepsInv(c: Config, s: State, step: Step)
    requires ConfigOk(c) && Inv(c, s) && Enabled(c, s, step) && Honest(step)
    ensures Inv(c, Next(c, s, step))
  {
    match step
    case Tick(d) => TickKeepsInv(c, s, d);
    case Evolve(i, record) => EvolveKeepsInv(c, s, i, record);
    case OtherJob(job) => JobsKeepInv(c, s, s.jobs + [job]);
    case PassBegin => PassKeepsInv(c, s, Some(Pass([], None, {})));
    case ReadRecord => ReadRecordKeepsInv(c, s);
    case ReadDone(lost) => ReadDoneKeepsInv(c, s, lost);
    case Visit(k, outcome) => VisitKeepsInv(c, s, k, outcome);
    case PassEnd => PassKeepsInv(c, s, None);
  }

  ghost predicate HonestRun(steps: seq<Step>) {
    forall i :: 0 <= i < |steps| ==> Honest(steps[i])
  }

  lemma {:induction false} RunKeepsInv(c: Config, s: State, steps: seq<Step>)
    requires ConfigOk(c) && Inv(c, s) && Runs(c, s, steps) && HonestRun(steps)
    ensures Inv(c, Exec(c, s, steps))
    decreases |steps|
  {
    if steps != [] {
      assert Honest(steps[0]);
      StepKeepsInv(c, s, steps[0]);
      RunKeepsInv(c, Next(c, s, steps[0]), steps[1..]);
    }
  }

  // ---- Over whole runs ---------------------------------------------------

  /** In every run, an occurrence is submitted only if every earlier record of it
      was a recoverable pre-runtime failure when its pass began: failed, and never
      launched or marked as failed before its runtime. */
  lemma ResubmissionIsSafe(c: Config, now: int, steps: seq<Step>, k: Key, outcome: Outcome)
    requires ConfigOk(c) && Runs(c, Init(now), steps) && HonestRun(steps)
    requires Enabled(c, Exec(c, Init(now), steps), Visit(k, outcome))
    ensures var s := Exec(c, Init(now), steps);
      Submitted(c, s, k).Some? ==>
        && EarlierRecovered(s, k, Submitted(c, s, k).value)
        && (forall i :: 0 <= i < |s.jobs| && s.jobs[i].scheduled && s.jobs[i].key == k
                        && s.jobs[i].record.dueAt == Submitted(c, s, k) ==>
              i < |s.pass.value.snapshot| && StoppedEarly(s.pass.value.snapshot[i].record))
  {
    RunKeepsInv(c, Init(now), steps);
    var s := Exec(c, Init(now), steps);
    if Submitted(c, s, k).Some? {
      VisitIsSafe(c, s, k);
      forall i | 0 <= i < |s.jobs| && Relevant(s.jobs[i], k) && s.jobs[i].record.dueAt == Submitted(c, s, k)
        ensures i < |s.pass.value.snapshot| && StoppedEarly(s.pass.value.snapshot[i].record)
      {
        RecoverableIsStoppedEarly(s.pass.value.snapshot[i].record);
      }
    }
  }

  /** In every run, each `every` marker is a whole number of periods after the
      routine's first one, whatever was missed, disallowed or retried. */
  lemma MarkersDoNotDrift(c: Config, now: int, steps: seq<Step>, k: Key)
    requires ConfigOk(c) && Runs(c, Init(now), steps) && HonestRun(steps)
    requires k in Exec(c, Init(now), steps).anchors
    ensures var s := Exec(c, Init(now), steps);
      && k in c.plan && c.plan[k].rule.Every? && c.plan[k].rule.period.Some? && c.plan[k].rule.period.value > 0
      && k in s.first && s.first[k] <= s.anchors[k] <= s.now
      && (s.anchors[k] - s.first[k]) % c.plan[k].rule.period.value == 0
  {
    RunKeepsInv(c, Init(now), steps);
    var s := Exec(c, Init(now), steps);
    assert AnchorFacts(c, s, k);
    GridIsMultiple(s.anchors[k], s.first[k], c.plan[k].rule.period.value);
  }
}
