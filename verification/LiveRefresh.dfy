/**
 The live-refresh coordinator, `register` in tools/live-refresh.js: an
 asynchronous state machine over read, action and binding generations, open
 actions, page visibility, one timer and an ETag. Each function below is the code
 that runs between two awaits; suspended reads resume in any order and with any
 answer, and adapters and servers keep the contracts named here.
 */
module LiveRefresh {
  import opened Wrappers

  // A snapshot stands for its content; an ETag is the snapshot it names.
  type Snapshot = nat
  type TimerId = nat
  type Token = nat

  datatype StatusKind = Healthy | OutOfDate | Incompatible | Unavailable

  // Where a read is suspended: in the fetch, or in reading the body of a 200.
  datatype Stage = Fetching | Body(content: Snapshot, tagged: bool)

  datatype Read = Read(binding: nat, action: nat, sent: Option<Snapshot>, stage: Stage, requestedAt: nat)

  datatype Application = Application(generation: nat, requestedAt: nat, appliedAt: nat)

  // `target` is the snapshot the view shows or has deferred; `pending` are the
  // browser's timers; `tokens` the actions not finished yet. The last three only
  // record what happened: the steps taken, when actions or rebindings happened,
  // and the snapshots applied.
  datatype State = State(
    disposed: bool, hidden: bool,
    timer: Option<TimerId>, pending: set<TimerId>, nextTimer: TimerId,
    openActions: int, tokens: set<Token>,
    readGeneration: nat, actionGeneration: nat, bindingGeneration: nat,
    active: Option<nat>, inFlight: map<nat, Read>,
    etag: Option<Snapshot>, status: Option<StatusKind>, target: Snapshot,
    clock: nat, barriers: set<nat>, applied: seq<Application>)

  datatype Response = NotModified | Gone | Refused | Ok(content: Snapshot, tagged: bool) | Rejected

  // What the body and the adapter make of a 200. `target` is what the view shows
  // after apply() ran.
  datatype Handling =
    | NoLongerCurrent | Malformed | Mismatched | BodyRejected
    | Throws(target: Snapshot)
    | Result(accepted: bool, untouched: bool, incompatible: bool, unavailable: bool, target: Snapshot)

  datatype Step =
    | TimerFires(id: TimerId)
    | Refresh
    | Resume(generation: nat, response: Response)
    | ResumeBody(generation: nat, handling: Handling)
    | Invalidate(target: Snapshot)
    | BeginAction(token: Token)
    | EndAction(token: Token)
    | FlushDeferred(kept: bool, target: Snapshot)
    | Dispose
    | Hide
    | Show

  // ---- The code between two awaits ---------------------------------------

  function Idle(s: State): bool {
    s.disposed || s.openActions > 0 || s.hidden
  }

  function ClearTimer(s: State): State {
    s.(pending := if s.timer.Some? then s.pending - {s.timer.value} else s.pending, timer := None)
  }

  function Schedule(s: State): State {
    var t := ClearTimer(s);
    if Idle(t) then t
    else t.(timer := Some(t.nextTimer), pending := t.pending + {t.nextTimer}, nextTimer := t.nextTimer + 1)
  }

  /** `read()` up to its fetch. */
  function StartRead(s: State): State {
    if Idle(s) then s
    else
      var t := ClearTimer(s);
      var generation := t.readGeneration + 1;
      t.(readGeneration := generation, active := Some(generation),
         inFlight := t.inFlight[generation := Read(t.bindingGeneration, t.actionGeneration, t.etag, Fetching, t.clock)])
  }

  /** `verdict()` is null. */
  predicate Undisturbed(s: State, generation: nat)
    requires generation in s.inFlight
  {
    && !Idle(s) && generation == s.readGeneration
    && s.inFlight[generation].binding == s.bindingGeneration
    && s.inFlight[generation].action == s.actionGeneration
  }

  /** The `finally` block. */
  function Finish(s: State, generation: nat): State {
    var t := s.(inFlight := s.inFlight - {generation}, active := if s.active == Some(generation) then None else s.active);
    if generation == t.readGeneration then Schedule(t) else t
  }

  function WithStatus(s: State, kind: StatusKind): State {
    s.(status := Some(kind))
  }

  function OnResponse(s: State, generation: nat, response: Response): State
    requires generation in s.inFlight
  {
    if !Undisturbed(s, generation) then Finish(s, generation)
    else match response
      case NotModified => Finish(WithStatus(s, Healthy), generation)
      case Gone => Finish(WithStatus(s, Unavailable), generation)
      case Refused => Finish(WithStatus(s, OutOfDate), generation)
      case Rejected => Finish(WithStatus(s, OutOfDate), generation)
      case Ok(content, tagged) =>
        s.(inFlight := s.inFlight[generation := s.inFlight[generation].(stage := Body(content, tagged))])
  }

  /** After apply() returned: what it says about the view decides the ETag. */
  function AfterApply(s: State, read: Read, generation: nat, h: Handling): State
    requires read.stage.Body? && h.Result?
  {
    var t := s.(target := h.target, etag := if !h.accepted && !h.untouched then None else s.etag);
    if h.incompatible then WithStatus(t, Incompatible)
    else if h.unavailable then WithStatus(t, Unavailable)
    else if !h.accepted then WithStatus(t, OutOfDate)
    else
      t.(etag := if read.stage.tagged then Some(read.stage.content) else None, status := Some(Healthy),
         applied := t.applied + [Application(generation, read.requestedAt, t.clock)])
  }

  function OnBody(s: State, generation: nat, h: Handling): State
    requires generation in s.inFlight && s.inFlight[generation].stage.Body?
  {
    if !Undisturbed(s, generation) then Finish(s, generation)
    else match h
      case NoLongerCurrent => Finish(s, generation)
      case Malformed => Finish(WithStatus(s, OutOfDate), generation)
      case Mismatched => Finish(WithStatus(s, Incompatible), generation)
      case BodyRejected => Finish(WithStatus(s, OutOfDate), generation)
      case Throws(target) => Finish(WithStatus(s.(target := target, etag := None), OutOfDate), generation)
      case Result(_, _, _, _, _) => Finish(AfterApply(s, s.inFlight[generation], generation, h), generation)
  }

  function Barrier(s: State): State {
    s.(barriers := s.barriers + {s.clock})
  }

  function Invalidated(s: State, target: Snapshot): State {
    StartRead(Barrier(s.(bindingGeneration := s.bindingGeneration + 1, etag := None, active := None, target := target)))
  }

  function Begun(s: State, token: Token): State {
    if s.disposed then s
    else
      var t := ClearTimer(s);
      Barrier(t.(openActions := t.openActions + 1, tokens := t.tokens + {token},
                 actionGeneration := t.actionGeneration + 1, active := None))
  }

  function Ended(s: State, token: Token): State {
    if token !in s.tokens then s
    else
      var t := Barrier(s.(openActions := s.openActions - 1, tokens := s.tokens - {token},
                          actionGeneration := s.actionGeneration + 1));
      if t.openActions == 0 && !t.disposed then StartRead(t) else t
  }

  function Flushed(s: State, kept: bool, target: Snapshot): State {
    var t := s.(target := target);
    if !kept && !t.disposed then StartRead(t.(etag := None)) else t
  }

  function Disposed(s: State): State {
    if s.disposed then s else ClearTimer(s).(disposed := true, active := None)
  }

  function Hidden(s: State): State {
    var t := s.(hidden := true);
    if t.disposed then t else ClearTimer(t).(active := None)
  }

  function Shown(s: State): State {
    var t := s.(hidden := false);
    if !t.disposed && t.openActions == 0 then StartRead(t) else t
  }

  function Fired(s: State, id: TimerId): State {
    StartRead(s.(pending := s.pending - {id}, timer := None))
  }

  function Init(hidden: bool, target: Snapshot): State {
    Schedule(State(false, hidden, None, {}, 0, 0, {}, 0, 0, 0, None, map[], None, None, target, 0, {}, []))
  }

  // ---- Steps and contracts -----------------------------------------------

  /** apply() that accepts shows the snapshot and nothing else is wrong with it;
      one that calls the view unchanged has not touched it. */
  predicate AdapterOk(s: State, content: Snapshot, h: Handling) {
    h.Result? ==>
      && (h.accepted ==> h.target == content && !h.incompatible && !h.unavailable)
      && (!h.accepted && h.untouched ==> h.target == s.target)
  }

  predicate Enabled(s: State, step: Step) {
    match step
    case TimerFires(id) => id in s.pending
    case Refresh => true
    case Resume(g, response) =>
      g in s.inFlight && s.inFlight[g].stage.Fetching? && (response.NotModified? ==> s.inFlight[g].sent.Some?)
    case ResumeBody(g, _) => g in s.inFlight && s.inFlight[g].stage.Body?
    case Invalidate(_) => true
    case BeginAction(token) => token !in s.tokens
    case EndAction(_) => true
    case FlushDeferred(_, _) => true
    case Dispose => true
    case Hide => !s.hidden
    case Show => s.hidden
  }

  /** flushDeferred() that drops nothing keeps the retained target. */
  predicate Contract(s: State, step: Step)
    requires Enabled(s, step)
  {
    match step
    case ResumeBody(g, h) => AdapterOk(s, s.inFlight[g].stage.content, h)
    case FlushDeferred(kept, target) => kept ==> target == s.target
    case _ => true
  }

  function Effect(s: State, step: Step): State
    requires Enabled(s, step)
  {
    match step
    case TimerFires(id) => Fired(s, id)
    case Refresh => StartRead(s)
    case Resume(g, response) => OnResponse(s, g, response)
    case ResumeBody(g, h) => OnBody(s, g, h)
    case Invalidate(target) => Invalidated(s, target)
    case BeginAction(token) => Begun(s, token)
    case EndAction(token) => Ended(s, token)
    case FlushDeferred(kept, target) => Flushed(s, kept, target)
    case Dispose => Disposed(s)
    case Hide => Hidden(s)
    case Show => Shown(s)
  }

  function Next(s: State, step: Step): State
    requires Enabled(s, step)
  {
    Effect(s, step).(clock := s.clock + 1)
  }

  ghost predicate Runs(s: State, steps: seq<Step>)
    decreases |steps|
  {
    steps == [] || (Enabled(s, steps[0]) && Contract(s, steps[0]) && Runs(Next(s, steps[0]), steps[1..]))
  }

  ghost function Exec(s: State, steps: seq<Step>): State
    requires Runs(s, steps)
    decreases |steps|
  {
    if steps == [] then s else Exec(Next(s, steps[0]), steps[1..])
  }
}
