/**
 What every run of the live-refresh coordinator keeps: snapshots are applied in
 the order they were requested and never across an action or a rebinding, a
 retained ETag names what the view shows, and polling neither stops nor doubles.
 */
module LiveRefreshSafety {
  import opened Wrappers
  import opened LiveRefresh

  // ---- Invariant ---------------------------------------------------------

  ghost predicate OneTimer(s: State) {
    && s.pending == (if s.timer.Some? then {s.timer.value} else {})
    && (s.timer.Some? ==> !Idle(s))
    && s.openActions == |s.tokens|
  }

  ghost predicate Polling(s: State) {
    !Idle(s) ==> s.timer.Some? || s.readGeneration in s.inFlight
  }

  ghost predicate EtagNamesTarget(s: State) {
    !s.disposed && s.etag.Some? ==> s.etag.value == s.target
  }

  /** A read that can still be used was sent with the ETag that is retained now. */
  ghost predicate SentIsRetained(s: State) {
    s.readGeneration in s.inFlight && Undisturbed(s, s.readGeneration) ==> s.inFlight[s.readGeneration].sent == s.etag
  }

  /** No action or rebinding came after the request, unless a generation says so. */
  ghost predicate ReadOk(s: State, r: Read, now: nat) {
    && r.requestedAt < now && r.action <= s.actionGeneration && r.binding <= s.bindingGeneration
    && (r.action == s.actionGeneration && r.binding == s.bindingGeneration ==>
          forall b :: b in s.barriers ==> b <= r.requestedAt)
  }

  ghost predicate ReadsOk(s: State, now: nat) {
    && (forall b :: b in s.barriers ==> b < now)
    && (forall g :: g in s.inFlight ==> g <= s.readGeneration && ReadOk(s, s.inFlight[g], now))
  }

  ghost predicate ApplicationOk(s: State, a: Application, now: nat) {
    && a.appliedAt < now && a.generation <= s.readGeneration
    && (a.generation == s.readGeneration ==> s.readGeneration !in s.inFlight)
    && (forall b :: b in s.barriers ==> b <= a.requestedAt || a.appliedAt < b)
  }

  ghost predicate AppliedOk(s: State, now: nat) {
    && (forall i :: 0 <= i < |s.applied| ==> ApplicationOk(s, s.applied[i], now))
    && (forall i, j :: 0 <= i < j < |s.applied| ==> s.applied[i].generation < s.applied[j].generation)
  }

  ghost predicate Inv(s: State) {
    OneTimer(s) && Polling(s) && EtagNamesTarget(s) && SentIsRetained(s) && ReadsOk(s, s.clock) && AppliedOk(s, s.clock)
  }

  /** The part that does not depend on who drives the next read. */
  ghost predicate Core(s: State, now: nat) {
    OneTimer(s) && EtagNamesTarget(s) && ReadsOk(s, now) && AppliedOk(s, now)
  }

  ghost predicate Driven(s: State) {
    Polling(s) && SentIsRetained(s)
  }

  // ---- Starting a read ---------------------------------------------------

  lemma StartReadApplied(s: State, now: nat)
    requires ReadsOk(s, now) && AppliedOk(s, now)
    ensures AppliedOk(StartRead(s), now)
  {
    var t := StartRead(s);
    forall i | 0 <= i < |t.applied|
      ensures ApplicationOk(t, t.applied[i], now)
    {
      assert ApplicationOk(s, s.applied[i], now);
    }
  }

  lemma StartReadReads(s: State, now: nat)
    requires ReadsOk(s, now) && s.clock < now
    requires forall b :: b in s.barriers ==> b <= s.clock
    ensures ReadsOk(StartRead(s), now)
  {
    var t := StartRead(s);
    forall g | g in t.inFlight
      ensures g <= t.readGeneration && ReadOk(t, t.inFlight[g], now)
    {
      if g in s.inFlight && g != t.readGeneration {
        assert ReadOk(s, s.inFlight[g], now);
      }
    }
  }

  lemma StartReadKeeps(s: State, now: nat)
    requires Core(s, now) && s.clock < now && forall b :: b in s.barriers ==> b <= s.clock
    ensures Core(StartRead(s), now) && Driven(StartRead(s))
  {
    StartReadApplied(s, now);
    StartReadReads(s, now);
  }

  // ---- Finishing a read --------------------------------------------------

  function Settled(s: State, generation: nat): State {
    s.(inFlight := s.inFlight - {generation})
  }

  lemma SettledApplied(s: State, generation: nat, now: nat)
    requires AppliedOk(s, now)
    ensures AppliedOk(Settled(s, generation), now)
  {
    var t := Settled(s, generation);
    forall i | 0 <= i < |t.applied|
      ensures ApplicationOk(t, t.applied[i], now)
    {
      assert ApplicationOk(s, s.applied[i], now);
    }
  }

  lemma FinishApplied(s: State, generation: nat, now: nat)
    requires AppliedOk(Settled(s, generation), now)
    ensures AppliedOk(Finish(s, generation), now)
  {
    var t, u := Settled(s, generation), Finish(s, generation);
    forall i | 0 <= i < |u.applied|
      ensures ApplicationOk(u, u.applied[i], now)
    {
      assert ApplicationOk(t, t.applied[i], now);
    }
  }

  lemma FinishReads(s: State, generation: nat, now: nat)
    requires ReadsOk(s, now)
    ensures ReadsOk(Finish(s, generation), now)
  {
    var t := Finish(s, generation);
    forall g | g in t.inFlight
      ensures g <= t.readGeneration && ReadOk(t, t.inFlight[g], now)
    {
      assert ReadOk(s, s.inFlight[g], now);
    }
  }

  lemma FinishKeeps(s: State, generation: nat, now: nat)
    requires OneTimer(s) && EtagNamesTarget(s) && ReadsOk(s, now) && AppliedOk(Settled(s, generation), now)
    requires generation in s.inFlight && (generation != s.readGeneration ==> Driven(s))
    ensures Core(Finish(s, generation), now) && Driven(Finish(s, generation))
  {
    FinishApplied(s, generation, now);
    FinishReads(s, generation, now);
  }

  /** Time passing changes none of it. */
  lemma Later(s: State, now: nat)
    requires Core(s, now) && Driven(s) && s.clock + 1 == now
    ensures Inv(s.(clock := now))
  {
    var t := s.(clock := now);
    forall g | g in t.inFlight
      ensures ReadOk(t, t.inFlight[g], now)
    {
      assert ReadOk(s, s.inFlight[g], now);
    }
    forall i | 0 <= i < |t.applied|
      ensures ApplicationOk(t, t.applied[i], now)
    {
      assert ApplicationOk(s, s.applied[i], now);
    }
  }

  lemma Sooner(s: State)
    requires Inv(s)
    ensures Core(s, s.clock + 1) && forall b :: b in s.barriers ==> b <= s.clock
  {
    forall g | g in s.inFlight
      ensures ReadOk(s, s.inFlight[g], s.clock + 1)
    {
      assert ReadOk(s, s.inFlight[g], s.clock);
    }
    forall i | 0 <= i < |s.applied|
      ensures ApplicationOk(s, s.applied[i], s.clock + 1)
    {
      assert ApplicationOk(s, s.applied[i], s.clock);
    }
  }

  // ---- Changes of a few fields -------------------------------------------

  /** Only what the user sees changes: status, target, ETag, timers, the active read. */
  ghost predicate SameReads(s: State, t: State) {
    && t.readGeneration == s.readGeneration && t.actionGeneration == s.actionGeneration
    && t.bindingGeneration == s.bindingGeneration && t.inFlight == s.inFlight
    && t.barriers == s.barriers && t.clock == s.clock
  }

  lemma SameReadsKeep(s: State, t: State, now: nat)
    requires ReadsOk(s, now) && SameReads(s, t)
    ensures ReadsOk(t, now)
    ensures AppliedOk(s, now) && t.applied == s.applied ==> AppliedOk(t, now)
  {
    forall g | g in t.inFlight
      ensures ReadOk(t, t.inFlight[g], now)
    {
      assert ReadOk(s, s.inFlight[g], now);
    }
    if AppliedOk(s, now) && t.applied == s.applied {
      forall i | 0 <= i < |t.applied|
        ensures ApplicationOk(t, t.applied[i], now)
      {
        assert ApplicationOk(s, s.applied[i], now);
      }
    }
  }

  /** An action or rebinding at this very moment: no read in flight is usable any
      more, and no application is later. */
  ghost predicate NewBarrier(s: State, t: State) {
    && t.readGeneration == s.readGeneration && t.inFlight == s.inFlight && t.applied == s.applied
    && t.barriers == s.barriers + {s.clock} && t.clock == s.clock
    && s.actionGeneration <= t.actionGeneration && s.bindingGeneration <= t.bindingGeneration
    && (s.actionGeneration < t.actionGeneration || s.bindingGeneration < t.bindingGeneration)
  }

  lemma BarrierKeeps(s: State, t: State)
    requires ReadsOk(s, s.clock) && AppliedOk(s, s.clock) && NewBarrier(s, t)
    ensures ReadsOk(t, s.clock + 1) && AppliedOk(t, s.clock + 1)
    ensures forall b :: b in t.barriers ==> b <= t.clock
    ensures t.readGeneration in t.inFlight ==> !Undisturbed(t, t.readGeneration)
  {
    forall g | g in t.inFlight
      ensures g <= t.readGeneration && ReadOk(t, t.inFlight[g], s.clock + 1)
      ensures t.inFlight[g].action < t.actionGeneration || t.inFlight[g].binding < t.bindingGeneration
    {
      assert ReadOk(s, s.inFlight[g], s.clock);
    }
    forall i | 0 <= i < |t.applied|
      ensures ApplicationOk(t, t.applied[i], s.clock + 1)
    {
      assert ApplicationOk(s, s.applied[i], s.clock);
    }
  }

  // ---- One step ----------------------------------------------------------

  ghost predicate Kept(s: State, t: State) {
    Core(t, s.clock + 1) && Driven(t) && t.clock == s.clock
  }

  lemma FiredKeeps(s: State, id: TimerId)
    requires Inv(s) && id in s.pending
    ensures Kept(s, Fired(s, id))
  {
    var t := s.(pending := s.pending - {id}, timer := None);
    Sooner(s);
    SameReadsKeep(s, t, s.clock + 1);
    assert s.pending - {id} == {};
    StartReadKeeps(t, s.clock + 1);
  }

  lemma RefreshKeeps(s: State)
    requires Inv(s)
    ensures Kept(s, StartRead(s))
  {
    Sooner(s);
    StartReadKeeps(s, s.clock + 1);
  }

  /** A read ends, having changed no more than the status and the view. */
  lemma EndsKeeps(s: State, t: State, generation: nat)
    requires Inv(s) && generation in s.inFlight && SameReads(s, t) && t.applied == s.applied
    requires OneTimer(t) && EtagNamesTarget(t) && (generation != s.readGeneration ==> Driven(t))
    ensures Kept(s, Finish(t, generation))
  {
    Sooner(s);
    SameReadsKeep(s, t, s.clock + 1);
    SettledApplied(t, generation, s.clock + 1);
    FinishKeeps(t, generation, s.clock + 1);
  }

  lemma StatusKeeps(s: State, generation: nat, kind: StatusKind)
    requires Inv(s) && generation in s.inFlight && Undisturbed(s, generation)
    ensures Kept(s, Finish(WithStatus(s, kind), generation))
  {
    EndsKeeps(s, WithStatus(s, kind), generation);
  }

  lemma BodyBeginsKeeps(s: State, generation: nat, content: Snapshot, tagged: bool)
    requires Inv(s) && generation in s.inFlight
    ensures Kept(s, s.(inFlight := s.inFlight[generation := s.inFlight[generation].(stage := Body(content, tagged))]))
  {
    var t := s.(inFlight := s.inFlight[generation := s.inFlight[generation].(stage := Body(content, tagged))]);
    Sooner(s);
    forall g | g in t.inFlight
      ensures ReadOk(t, t.inFlight[g], s.clock + 1)
    {
      assert ReadOk(s, s.inFlight[g], s.clock + 1);
    }
    forall i | 0 <= i < |t.applied|
      ensures ApplicationOk(t, t.applied[i], s.clock + 1)
    {
      assert ApplicationOk(s, s.applied[i], s.clock + 1);
    }
  }

  lemma ResponseKeeps(s: State, generation: nat, response: Response)
    requires Inv(s) && generation in s.inFlight
    ensures Kept(s, OnResponse(s, generation, response))
  {
    if !Undisturbed(s, generation) {
      EndsKeeps(s, s, generation);
    } else {
      match response
      case NotModified => StatusKeeps(s, generation, Healthy);
      case Gone => StatusKeeps(s, generation, Unavailable);
      case Refused => StatusKeeps(s, generation, OutOfDate);
      case Rejected => StatusKeeps(s, generation, OutOfDate);
      case Ok(content, tagged) => BodyBeginsKeeps(s, generation, content, tagged);
    }
  }

  /** An accepted snapshot is newer than all applied ones, and no barrier lies
      between its request and now. */
  lemma ApplicationKeeps(s: State, t: State, generation: nat)
    requires Inv(s) && generation in s.inFlight && Undisturbed(s, generation) && SameReads(s, t)
    requires t.applied == s.applied + [Application(generation, s.inFlight[generation].requestedAt, s.clock)]
    ensures AppliedOk(Settled(t, generation), s.clock + 1)
  {
    var u := Settled(t, generation);
    assert ReadOk(s, s.inFlight[generation], s.clock);
    forall i | 0 <= i < |u.applied|
      ensures ApplicationOk(u, u.applied[i], s.clock + 1)
    {
      if i < |s.applied| {
        assert ApplicationOk(s, s.applied[i], s.clock);
      }
    }
    forall i, j | 0 <= i < j < |u.applied|
      ensures u.applied[i].generation < u.applied[j].generation
    {
      assert ApplicationOk(s, s.applied[i], s.clock);
    }
  }

  lemma ResultKeeps(s: State, generation: nat, h: Handling)
    requires Inv(s) && generation in s.inFlight && Undisturbed(s, generation) && s.inFlight[generation].stage.Body?
    requires h.Result? && AdapterOk(s, s.inFlight[generation].stage.content, h)
    ensures Kept(s, Finish(AfterApply(s, s.inFlight[generation], generation, h), generation))
  {
    var t := AfterApply(s, s.inFlight[generation], generation, h);
    Sooner(s);
    SameReadsKeep(s, t, s.clock + 1);
    if h.accepted {
      ApplicationKeeps(s, t, generation);
    } else {
      SettledApplied(t, generation, s.clock + 1);
    }
    FinishKeeps(t, generation, s.clock + 1);
  }

  lemma BodyKeeps(s: State, generation: nat, h: Handling)
    requires Inv(s) && generation in s.inFlight && s.inFlight[generation].stage.Body?
    requires AdapterOk(s, s.inFlight[generation].stage.content, h)
    ensures Kept(s, OnBody(s, generation, h))
  {
    if !Undisturbed(s, generation) {
      EndsKeeps(s, s, generation);
    } else {
      match h
      case NoLongerCurrent => EndsKeeps(s, s, generation);
      case Malformed => StatusKeeps(s, generation, OutOfDate);
      case Mismatched => StatusKeeps(s, generation, Incompatible);
      case BodyRejected => StatusKeeps(s, generation, OutOfDate);
      case Throws(target) =>
        EndsKeeps(s, WithStatus(s.(target := target, etag := None), OutOfDate), generation);
      case Result(_, _, _, _, _) => ResultKeeps(s, generation, h);
    }
  }

  lemma InvalidatedKeeps(s: State, target: Snapshot)
    requires Inv(s)
    ensures Kept(s, Invalidated(s, target))
  {
    var t := Barrier(s.(bindingGeneration := s.bindingGeneration + 1, etag := None, active := None, target := target));
    assert NewBarrier(s, t) && OneTimer(t) && EtagNamesTarget(t);
    BarrierKeeps(s, t);
    StartReadKeeps(t, s.clock + 1);
  }

  lemma BegunKeeps(s: State, token: Token)
    requires Inv(s) && token !in s.tokens
    ensures Kept(s, Begun(s, token))
  {
    Sooner(s);
    if !s.disposed {
      BarrierKeeps(s, Begun(s, token));
      TokenCount(s.tokens, token);
    }
  }

  lemma TokenCount(tokens: set<Token>, token: Token)
    ensures token !in tokens ==> |tokens + {token}| == |tokens| + 1
    ensures token in tokens ==> |tokens - {token}| == |tokens| - 1
  {
  }

  lemma EndedKeeps(s: State, token: Token)
    requires Inv(s)
    ensures Kept(s, Ended(s, token))
  {
    Sooner(s);
    if token in s.tokens {
      var t := Barrier(s.(openActions := s.openActions - 1, tokens := s.tokens - {token},
                          actionGeneration := s.actionGeneration + 1));
      BarrierKeeps(s, t);
      TokenCount(s.tokens, token);
      if t.openActions == 0 && !t.disposed {
        StartReadKeeps(t, s.clock + 1);
      }
    }
  }

  lemma FlushedKeeps(s: State, kept: bool, target: Snapshot)
    requires Inv(s) && (kept ==> target == s.target)
    ensures Kept(s, Flushed(s, kept, target))
  {
    Sooner(s);
    var t := s.(target := target);
    SameReadsKeep(s, t, s.clock + 1);
    if !kept && !t.disposed {
      SameReadsKeep(s, t.(etag := None), s.clock + 1);
      StartReadKeeps(t.(etag := None), s.clock + 1);
    }
  }

  lemma DisposedKeeps(s: State)
    requires Inv(s)
    ensures Kept(s, Disposed(s))
  {
    Sooner(s);
    SameReadsKeep(s, Disposed(s), s.clock + 1);
  }

  lemma HiddenKeeps(s: State)
    requires Inv(s)
    ensures Kept(s, Hidden(s))
  {
    Sooner(s);
    SameReadsKeep(s, Hidden(s), s.clock + 1);
  }

  lemma ShownKeeps(s: State)
    requires Inv(s) && s.hidden
    ensures Kept(s, Shown(s))
  {
    Sooner(s);
    var t := s.(hidden := false);
    SameReadsKeep(s, t, s.clock + 1);
    if !t.disposed && t.openActions == 0 {
      StartReadKeeps(t, s.clock + 1);
    }
  }

  lemma EffectKeeps(s: State, step: Step)
    requires Inv(s) && Enabled(s, step) && Contract(s, step)
    ensures Kept(s, Effect(s, step))
  {
    match step
    case TimerFires(id) => FiredKeeps(s, id);
    case Refresh => RefreshKeeps(s);
    case Resume(g, response) => ResponseKeeps(s, g, response);
    case ResumeBody(g, h) => BodyKeeps(s, g, h);
    case Invalidate(target) => InvalidatedKeeps(s, target);
    case BeginAction(token) => BegunKeeps(s, token);
    case EndAction(token) => EndedKeeps(s, token);
    case FlushDeferred(kept, target) => FlushedKeeps(s, kept, target);
    case Dispose => DisposedKeeps(s);
    case Hide => HiddenKeeps(s);
    case Show => ShownKeeps(s);
  }

  lemma StepKeepsInv(s: State, step: Step)
    requires Inv(s) && Enabled(s, step) && Contract(s, step)
    ensures Inv(Next(s, step))
  {
    EffectKeeps(s, step);
    Later(Effect(s, step), s.clock + 1);
  }

  lemma {:induction false} RunKeepsInv(s: State, steps: seq<Step>)
    requires Inv(s) && Runs(s, steps)
    ensures Inv(Exec(s, steps))
    decreases |steps|
  {
    if steps != [] {
      StepKeepsInv(s, steps[0]);
      RunKeepsInv(Next(s, steps[0]), steps[1..]);
    }
  }

  lemma InitIsOk(hidden: bool, target: Snapshot)
    ensures Inv(Init(hidden, target))
  {
    assert {} + {0} == {0};
  }

  // ---- Over whole runs ---------------------------------------------------

  /** Applied snapshots come from strictly increasing reads, and no action began
      or ended and no rebinding happened between a request and its application. */
  lemma ApplicationsAreFresh(hidden: bool, target: Snapshot, steps: seq<Step>)
    requires Runs(Init(hidden, target), steps)
    ensures var s := Exec(Init(hidden, target), steps);
      && (forall i, j :: 0 <= i < j < |s.applied| ==> s.applied[i].generation < s.applied[j].generation)
      && (forall i, b :: 0 <= i < |s.applied| && b in s.barriers ==>
            b <= s.applied[i].requestedAt || s.applied[i].appliedAt < b)
  {
    InitIsOk(hidden, target);
    RunKeepsInv(Init(hidden, target), steps);
    var s := Exec(Init(hidden, target), steps);
    forall i, b | 0 <= i < |s.applied| && b in s.barriers
      ensures b <= s.applied[i].requestedAt || s.applied[i].appliedAt < b
    {
      assert ApplicationOk(s, s.applied[i], s.clock);
    }
  }

  /** A read that was neither overtaken nor cut off and whose snapshot is accepted
      shows it, says so, and retains its ETag. */
  lemma AcceptedIsShown(s: State, generation: nat, h: Handling)
    requires Inv(s) && Enabled(s, ResumeBody(generation, h)) && Contract(s, ResumeBody(generation, h))
    requires !s.disposed && !s.hidden && s.tokens == {} && generation == s.readGeneration
    requires s.inFlight[generation].binding == s.bindingGeneration && s.inFlight[generation].action == s.actionGeneration
    requires h.Result? && h.accepted
    ensures var t, body := Next(s, ResumeBody(generation, h)), s.inFlight[generation].stage;
      && t.target == body.content && t.status == Some(Healthy)
      && t.etag == (if body.tagged then Some(body.content) else None)
      && t.applied == s.applied + [Application(generation, s.inFlight[generation].requestedAt, s.clock)]
      && generation !in t.inFlight && t.timer.Some?
  {
  }

  /** An answer without a body is told as what it is, and changes nothing shown. */
  lemma AnswersAreTold(s: State, generation: nat, response: Response)
    requires Inv(s) && Enabled(s, Resume(generation, response)) && !response.Ok?
    requires !s.disposed && !s.hidden && s.tokens == {} && generation == s.readGeneration
    requires s.inFlight[generation].binding == s.bindingGeneration && s.inFlight[generation].action == s.actionGeneration
    ensures var t := Next(s, Resume(generation, response));
      && t.target == s.target && t.etag == s.etag && t.applied == s.applied && t.timer.Some?
      && (response == NotModified ==> t.status == Some(Healthy))
      && (response == Gone ==> t.status == Some(Unavailable))
      && (response == Refused || response == Rejected ==> t.status == Some(OutOfDate))
  {
  }

  /** A read that was overtaken or cut off shows and says nothing. */
  lemma DisturbedIsIgnored(s: State, generation: nat, h: Handling)
    requires Inv(s) && Enabled(s, ResumeBody(generation, h))
    requires s.disposed || s.hidden || s.tokens != {} || generation != s.readGeneration
      || s.inFlight[generation].binding != s.bindingGeneration || s.inFlight[generation].action != s.actionGeneration
    ensures var t := Next(s, ResumeBody(generation, h));
      t.target == s.target && t.etag == s.etag && t.status == s.status && t.applied == s.applied
  {
    if s.tokens != {} {
      assert |s.tokens| > 0;
    }
  }

  /** Every action that begins or ends, and every rebinding, counts as one. */
  lemma BarriersAreRecorded(s: State, token: Token, target: Snapshot)
    requires Inv(s)
    ensures s.clock in Next(s, Invalidate(target)).barriers
    ensures token !in s.tokens && !s.disposed ==> s.clock in Next(s, BeginAction(token)).barriers
    ensures token in s.tokens ==> s.clock in Next(s, EndAction(token)).barriers
    ensures s.barriers <= Next(s, Invalidate(target)).barriers
    ensures token !in s.tokens ==> s.barriers <= Next(s, BeginAction(token)).barriers
    ensures s.barriers <= Next(s, EndAction(token)).barriers
  {
  }

  /** A 304 that is reported healthy tells the truth: what the server says is
      unchanged is what the view shows. */
  lemma NotModifiedIsTrue(hidden: bool, target: Snapshot, steps: seq<Step>, generation: nat)
    requires Runs(Init(hidden, target), steps)
    requires Enabled(Exec(Init(hidden, target), steps), Resume(generation, NotModified))
    requires Undisturbed(Exec(Init(hidden, target), steps), generation)
    ensures var s := Exec(Init(hidden, target), steps);
      && Next(s, Resume(generation, NotModified)).status == Some(Healthy)
      && s.inFlight[generation].sent == s.etag == Some(s.target)
      && Next(s, Resume(generation, NotModified)).target == s.target
  {
    InitIsOk(hidden, target);
    RunKeepsInv(Init(hidden, target), steps);
  }

  /** A retained ETag always names what the view shows. */
  lemma RetainedEtagNamesTarget(hidden: bool, target: Snapshot, steps: seq<Step>)
    requires Runs(Init(hidden, target), steps)
    ensures var s := Exec(Init(hidden, target), steps); !s.disposed && s.etag.Some? ==> s.etag.value == s.target
  {
    InitIsOk(hidden, target);
    RunKeepsInv(Init(hidden, target), steps);
  }

  /** Polling neither stops nor doubles. */
  lemma PollingGoesOn(hidden: bool, target: Snapshot, steps: seq<Step>)
    requires Runs(Init(hidden, target), steps)
    ensures var s := Exec(Init(hidden, target), steps);
      && (!s.disposed && !s.hidden && s.tokens == {} ==> s.timer.Some? || s.readGeneration in s.inFlight)
      && s.pending == (if s.timer.Some? then {s.timer.value} else {})
      && |s.pending| <= 1
      && (s.disposed || s.hidden || s.tokens != {} ==> s.pending == {})
  {
    InitIsOk(hidden, target);
    RunKeepsInv(Init(hidden, target), steps);
  }

  /** Why an adapter must not accept a snapshot and call the view incompatible or
      unavailable at once: the ETag of the previous snapshot would be retained for
      a view that shows another one. Nothing else an adapter reports does that. */
  lemma EtagStaysTrueIff(s: State, generation: nat, h: Handling)
    requires Inv(s) && generation in s.inFlight && Undisturbed(s, generation) && s.inFlight[generation].stage.Body?
    requires h.Result? && (h.accepted ==> h.target == s.inFlight[generation].stage.content)
    requires !h.accepted && h.untouched ==> h.target == s.target
    ensures EtagNamesTarget(OnBody(s, generation, h)) <==>
      !(h.accepted && (h.incompatible || h.unavailable)
        && s.etag.Some? && s.etag.value != s.inFlight[generation].stage.content)
  {
    var t := AfterApply(s, s.inFlight[generation], generation, h);
    assert OnBody(s, generation, h).etag == t.etag && OnBody(s, generation, h).target == t.target;
  }
}
