/**
 The coordinator as it is written: variables that every method updates. Each
 method is one event and performs exactly the step of the state machine.
 */
module LiveRefreshHandle {
  import opened Wrappers
  import opened LiveRefresh
  import opened LiveRefreshSafety

  class Coordinator {
    var disposed: bool
    var hidden: bool
    var timer: Option<TimerId>
    var pending: set<TimerId>
    var nextTimer: TimerId
    var openActions: int
    var tokens: set<Token>
    var readGeneration: nat
    var actionGeneration: nat
    var bindingGeneration: nat
    var active: Option<nat>
    var inFlight: map<nat, Read>
    var etag: Option<Snapshot>
    var status: Option<StatusKind>
    var target: Snapshot
    var clock: nat  // counts the events; with the next two, kept only to say what happened when
    var barriers: set<nat>
    var applied: seq<Application>

    ghost function View(): State
      reads this
    {
      State(disposed, hidden, timer, pending, nextTimer, openActions, tokens, readGeneration, actionGeneration,
            bindingGeneration, active, inFlight, etag, status, target, clock, barriers, applied)
    }

    constructor (hidden: bool, target: Snapshot)
      ensures View() == Init(hidden, target) && Inv(View())
    {
      disposed, this.hidden, this.target := false, hidden, target;
      timer, pending, nextTimer := None, {}, 0;
      openActions, tokens := 0, {};
      readGeneration, actionGeneration, bindingGeneration := 0, 0, 0;
      active, inFlight, etag, status := None, map[], None, None;
      clock, barriers, applied := 0, {}, [];
      new;
      InitIsOk(hidden, target);
      SetTimer();
    }

    // ---- Shared pieces ----

    method CancelTimer()
      modifies this`timer, this`pending
      ensures View() == ClearTimer(old(View()))
    {
      if timer.Some? {
        pending := pending - {timer.value};
      }
      timer := None;
    }

    method SetTimer()
      modifies this`timer, this`pending, this`nextTimer
      ensures View() == Schedule(old(View()))
    {
      CancelTimer();
      if disposed || openActions > 0 || hidden {
        return;
      }
      timer := Some(nextTimer);
      pending := pending + {nextTimer};
      nextTimer := nextTimer + 1;
    }

    method BeginRead()
      modifies this`timer, this`pending, this`readGeneration, this`active, this`inFlight
      ensures View() == StartRead(old(View()))
    {
      if disposed || openActions > 0 || hidden {
        return;
      }
      CancelTimer();
      readGeneration := readGeneration + 1;
      active := Some(readGeneration);
      inFlight := inFlight[readGeneration := Read(bindingGeneration, actionGeneration, etag, Fetching, clock)];
    }

    method Settle(generation: nat)
      modifies this`timer, this`pending, this`nextTimer, this`active, this`inFlight
      ensures View() == Finish(old(View()), generation)
    {
      inFlight := inFlight - {generation};
      if active == Some(generation) {
        active := None;
      }
      if generation == readGeneration {
        SetTimer();
      }
    }

    /** The event is over; what it did is one step. */
    method Done(ghost before: State, ghost step: Step)
      requires Inv(before) && Enabled(before, step) && Contract(before, step)
      requires View() == Effect(before, step)
      modifies this`clock
      ensures View() == Next(before, step) && Inv(View())
    {
      EffectKeeps(before, step);
      StepKeepsInv(before, step);
      clock := clock + 1;
    }

    // ---- Events ----

    method OnTimer(id: TimerId)
      requires Inv(View()) && id in pending
      modifies this
      ensures View() == Next(old(View()), TimerFires(id)) && Inv(View())
    {
      ghost var before := View();
      pending := pending - {id};
      timer := None;
      BeginRead();
      Done(before, TimerFires(id));
    }

    method RefreshNow()
      requires Inv(View())
      modifies this
      ensures View() == Next(old(View()), Refresh) && Inv(View())
    {
      ghost var before := View();
      BeginRead();
      Done(before, Refresh);
    }

    method SetStatus(kind: StatusKind)
      modifies this`status
      ensures View() == WithStatus(old(View()), kind)
    {
      status := Some(kind);
    }

    /** What `read()` does with an answer that may still be used; `false` while it
        goes on to the body. */
    method HandleResponse(generation: nat, response: Response) returns (over: bool)
      requires generation in inFlight
      modifies this`status, this`inFlight
      ensures over == !response.Ok?
      ensures View() == match response
        case Ok(content, tagged) =>
          old(View()).(inFlight := old(inFlight)[generation := old(inFlight)[generation].(stage := Body(content, tagged))])
        case NotModified => WithStatus(old(View()), Healthy)
        case Gone => WithStatus(old(View()), Unavailable)
        case _ => WithStatus(old(View()), OutOfDate)
    {
      over := true;
      match response
      case Ok(content, tagged) =>
        inFlight := inFlight[generation := inFlight[generation].(stage := Body(content, tagged))];
        over := false;
      case NotModified => SetStatus(Healthy);
      case Gone => SetStatus(Unavailable);
      case Refused => SetStatus(OutOfDate);
      case Rejected => SetStatus(OutOfDate);
    }

    /** `verdict()` is null. */
    method Verdict(generation: nat) returns (undisturbed: bool)
      requires generation in inFlight
      ensures undisturbed == Undisturbed(View(), generation)
    {
      if disposed || generation != readGeneration {
        return false;
      }
      var read := inFlight[generation];
      return !(read.binding != bindingGeneration || read.action != actionGeneration || openActions > 0 || hidden);
    }

    method Answer(generation: nat, response: Response)
      requires Inv(View()) && Enabled(View(), Resume(generation, response))
      modifies this
      ensures View() == Next(old(View()), Resume(generation, response)) && Inv(View())
    {
      ghost var before := View();
      var usable := Verdict(generation);
      var over := true;
      if usable {
        over := HandleResponse(generation, response);
      }
      if over {
        Settle(generation);
      }
      Done(before, Resume(generation, response));
    }

    method AnswerBody(generation: nat, handling: Handling)
      requires Inv(View()) && Enabled(View(), ResumeBody(generation, handling))
      requires Contract(View(), ResumeBody(generation, handling))
      modifies this
      ensures View() == Next(old(View()), ResumeBody(generation, handling)) && Inv(View())
    {
      ghost var before := View();
      var usable := Verdict(generation);
      if usable {
        Handle(generation, inFlight[generation], handling);
      }
      Settle(generation);
      Done(before, ResumeBody(generation, handling));
    }

    /** What the rest of `read()` does with a body that may still be used. */
    method Handle(generation: nat, read: Read, handling: Handling)
      requires generation in inFlight && inFlight[generation] == read && read.stage.Body?
      modifies this`status, this`target, this`etag, this`applied
      ensures View() == match handling
        case NoLongerCurrent => old(View())
        case Malformed => WithStatus(old(View()), OutOfDate)
        case Mismatched => WithStatus(old(View()), Incompatible)
        case BodyRejected => WithStatus(old(View()), OutOfDate)
        case Throws(shown) => WithStatus(old(View()).(target := shown, etag := None), OutOfDate)
        case Result(_, _, _, _, _) => AfterApply(old(View()), read, generation, handling)
    {
      match handling
      case NoLongerCurrent =>
      case Malformed => SetStatus(OutOfDate);
      case Mismatched => SetStatus(Incompatible);
      case BodyRejected => SetStatus(OutOfDate);
      case Throws(shown) =>
        target := shown;
        etag := None;
        SetStatus(OutOfDate);
      case Result(_, _, _, _, _) => HandleResult(generation, read, handling);
    }

    method HandleResult(generation: nat, read: Read, h: Handling)
      requires read.stage.Body? && h.Result?
      modifies this`status, this`target, this`etag, this`applied
      ensures View() == AfterApply(old(View()), read, generation, h)
    {
      target := h.target;
      if !h.accepted && !h.untouched {
        etag := None;
      }
      if h.incompatible {
        status := Some(Incompatible);
        return;
      }
      if h.unavailable {
        status := Some(Unavailable);
        return;
      }
      if !h.accepted {
        status := Some(OutOfDate);
        return;
      }
      etag := if read.stage.tagged then Some(read.stage.content) else None;
      status := Some(Healthy);
      applied := applied + [Application(generation, read.requestedAt, clock)];
    }

    method Forget(shown: Snapshot)
      modifies this`bindingGeneration, this`etag, this`active, this`target, this`barriers
      ensures View() == Barrier(old(View()).(bindingGeneration := old(bindingGeneration) + 1, etag := None,
                                             active := None, target := shown))
    {
      bindingGeneration, etag, active := bindingGeneration + 1, None, None;
      target, barriers := shown, barriers + {clock};
    }

    method Rebind(shown: Snapshot)
      requires Inv(View())
      modifies this
      ensures View() == Next(old(View()), Invalidate(shown)) && Inv(View())
    {
      ghost var before := View();
      Forget(shown);
      BeginRead();
      Done(before, Invalidate(shown));
    }

    method OpenAction(token: Token)
      requires Inv(View()) && token !in tokens
      modifies this
      ensures View() == Next(old(View()), BeginAction(token)) && Inv(View())
    {
      ghost var before := View();
      if !disposed {
        openActions := openActions + 1;
        actionGeneration := actionGeneration + 1;
        CancelTimer();
        active := None;
        tokens := tokens + {token};
        barriers := barriers + {clock};
      }
      Done(before, BeginAction(token));
    }

    method FinishAction(token: Token)
      modifies this`tokens, this`openActions, this`actionGeneration, this`barriers
      ensures View() == Barrier(old(View()).(openActions := old(openActions) - 1, tokens := old(tokens) - {token},
                                             actionGeneration := old(actionGeneration) + 1))
    {
      tokens := tokens - {token};
      openActions := openActions - 1;
      actionGeneration := actionGeneration + 1;
      barriers := barriers + {clock};
    }

    /** The function that beginAction returned; calling it again does nothing. */
    method CloseAction(token: Token)
      requires Inv(View())
      modifies this
      ensures View() == Next(old(View()), EndAction(token)) && Inv(View())
    {
      ghost var before := View();
      if token in tokens {
        FinishAction(token);
        if openActions == 0 && !disposed {
          BeginRead();
        }
      }
      Done(before, EndAction(token));
    }

    method Flush(kept: bool, shown: Snapshot)
      requires Inv(View()) && (kept ==> shown == target)
      modifies this
      ensures View() == Next(old(View()), FlushDeferred(kept, shown)) && Inv(View())
    {
      ghost var before := View();
      target := shown;
      if !kept && !disposed {
        etag := None;
        BeginRead();
      }
      Done(before, FlushDeferred(kept, shown));
    }

    method Retire()
      requires Inv(View())
      modifies this
      ensures View() == Next(old(View()), Dispose) && Inv(View())
    {
      ghost var before := View();
      if !disposed {
        disposed := true;
        CancelTimer();
        active := None;
      }
      Done(before, Dispose);
    }

    method PageHidden()
      requires Inv(View()) && !hidden
      modifies this
      ensures View() == Next(old(View()), Hide) && Inv(View())
    {
      ghost var before := View();
      hidden := true;
      if !disposed {
        CancelTimer();
        active := None;
      }
      Done(before, Hide);
    }

    method PageShown()
      requires Inv(View()) && hidden
      modifies this
      ensures View() == Next(old(View()), Show) && Inv(View())
    {
      ghost var before := View();
      hidden := false;
      if !disposed && openActions == 0 {
        BeginRead();
      }
      Done(before, Show);
    }
  }
}
