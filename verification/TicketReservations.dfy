/**
 Recovery of a ticket run reservation (flowgency/jobs/tickets.py): one reservation
 file, the job reserved under it and the ticket that carries the pending run.
 Ticket storage replays an operation it holds a receipt for without applying it
 (flowgency/tickets/storages/local.py), and a reconciliation's operations are named
 by job and reason, so each reason takes effect at most once per job.
 */
module TicketReservations {
  import opened Wrappers
  import opened JobRecords

  type JobId = nat
  type OperationId = nat
  type Digest = nat
  type Agent = nat
  type EventId = nat

  datatype Target = Target(team: nat, ticket: nat, binding: nat, agent: Agent, assignment: EventId, context: Digest)

  // What the ticket's storage binding is configured as now; `None` when it
  // cannot be resolved.
  datatype Binding = Binding(id: nat, context: Digest)

  datatype Standing = Reserved | Linked | Retryable | Stale | RecoveryPending

  datatype Reservation = Reservation(
    operation: OperationId, job: JobId, target: Target, authority: Option<Digest>, standing: Standing, recovery: bool)

  // `readable` is whether the job store accepts the file as authentic.
  datatype Job = Job(
    id: JobId, team: nat, agent: Agent, target: Option<Target>, digest: Digest, readable: bool,
    record: Record, started: bool, session: bool)

  datatype PendingRun = PendingRun(job: JobId, request: OperationId, assignee: Agent, assignment: EventId)

  datatype Event = Assigned(id: EventId) | RunReconciled | Other

  // Why a reconciliation touches the ticket.
  datatype Reason = MissingJob | Ended(status: Status) | StaleTarget | Link

  // `receipts` are the reasons this reservation's job already has receipts for.
  datatype Ticket = Ticket(
    revision: nat, assignee: Option<Agent>, events: seq<Event>, pending: Option<PendingRun>, active: bool,
    receipts: set<Reason>)

  // `originalTargets` is whether the access registry still holds targets of the job.
  datatype World = World(
    reservation: Option<Reservation>, job: Option<Job>, ticket: Ticket, binding: Option<Binding>, originalTargets: bool)

  // ---- Pure parts --------------------------------------------------------

  /** The id of the newest assignment, if there is one. */
  function LatestAssignment(events: seq<Event>): Option<EventId> {
    if events == [] then None
    else if events[|events| - 1].Assigned? then Some(events[|events| - 1].id)
    else LatestAssignment(events[..|events| - 1])
  }

  predicate CarriesJob(t: Ticket, r: Reservation) {
    t.pending.Some? && t.pending.value.job == r.job
  }

  /** The target the reservation was made for is the ticket's current one. */
  predicate TargetCurrent(t: Ticket, binding: Option<Binding>, target: Target) {
    && t.assignee == Some(target.agent)
    && LatestAssignment(t.events) == Some(target.assignment)
    && binding.Some? && binding.value.id == target.binding && binding.value.context == target.context
  }

  predicate Matches(j: Job, r: Reservation) {
    && j.target == Some(r.target) && j.id == r.job && j.team == r.target.team && j.agent == r.target.agent
  }

  datatype Verified = Absent | Unverified | Exists(job: Job)

  function VerifyExistingJob(w: World, r: Reservation): Verified {
    if w.job.None? then Absent
    else if !w.job.value.readable || (r.authority.Some? && r.authority.value != w.job.value.digest) then Unverified
    else if !Matches(w.job.value, r) then Unverified
    else Exists(w.job.value)
  }

  predicate NeverRan(j: Job) {
    j.record.workerPid.None? && j.record.launchedAt.None? && !j.started && !j.session
  }

  predicate MayClearTerminalPending(w: World, j: Job, t: Ticket, r: Reservation) {
    && CarriesJob(t, r) && !t.active && !w.originalTargets
    && (j.record.status.Cancelled? || NeverRan(j))
  }

  function Applied(t: Ticket, reason: Reason, pending: Option<PendingRun>): Ticket {
    if reason in t.receipts then t
    else t.(revision := t.revision + 1, events := t.events + [RunReconciled], pending := pending,
            receipts := t.receipts + {reason})
  }

  // Whether storage answers a call; a failing write may have taken effect.
  datatype Call = Works | FailsBefore | FailsAfter

  datatype Storage = Storage(firstRead: bool, secondRead: bool, write: Call)

  const AVAILABLE := Storage(true, true, Works)

  function Written(t: Ticket, reason: Reason, pending: Option<PendingRun>, call: Call): Ticket {
    if call.FailsBefore? then t else Applied(t, reason, pending)
  }

  function Labelled(r: Reservation, standing: Standing): Reservation {
    r.(standing := standing, recovery := false)
  }

  function Recovering(r: Reservation): Reservation {
    r.(standing := RecoveryPending, recovery := true)
  }

  function LinkedTo(r: Reservation, v: Verified): Reservation {
    if v.Exists? && r.authority != Some(v.job.digest) then
      r.(authority := Some(v.job.digest), standing := Linked, recovery := false)
    else r
  }

  function Own(r: Reservation): PendingRun {
    PendingRun(r.job, r.operation, r.target.agent, r.target.assignment)
  }

  // ---- One reconciliation ------------------------------------------------

  /** `_reconcile_pending`; an unverifiable job raises and changes nothing. */
  function Reconciled(w: World, r: Reservation, clearMissing: bool, storage: Storage): World {
    var v := VerifyExistingJob(w, r);
    var linked := LinkedTo(r, v);
    var w1 := if linked != r then w.(reservation := Some(linked)) else w;
    if v.Unverified? then w
    else if !storage.firstRead then w.(reservation := Some(Recovering(linked)))
    else if v.Absent? then (if clearMissing then MissingJobCleared(w1, linked, storage) else w1)
    else if Terminal(v.job.record.status) then TerminalJobCleared(w1, v.job, linked, storage)
    else if !TargetCurrent(w.ticket, w.binding, r.target) then StaleTargetCleared(w1, v.job, linked, storage)
    else LiveJobLinked(w1, linked, storage)
  }

  function MissingJobCleared(w: World, r: Reservation, storage: Storage): World {
    if !CarriesJob(w.ticket, r) then w.(reservation := Some(Labelled(r, Retryable)))
    else
      w.(ticket := Written(w.ticket, MissingJob, None, storage.write),
         reservation := Some(if storage.write.Works? then Labelled(r, Retryable) else Recovering(r)))
  }

  function TerminalJobCleared(w: World, j: Job, r: Reservation, storage: Storage): World {
    if !MayClearTerminalPending(w, j, w.ticket, r) then w.(reservation := Some(Labelled(r, Linked)))
    else
      w.(ticket := Written(w.ticket, Ended(j.record.status), None, storage.write),
         reservation := Some(if storage.write.Works? then Labelled(r, Linked) else Recovering(r)))
  }

  function StaleTargetCleared(w: World, j: Job, r: Reservation, storage: Storage): World {
    var cancelled := CancelledRecord(j.record);
    var w1 := if cancelled.Some? then w.(job := Some(j.(record := cancelled.value))) else w;
    if !storage.secondRead then w1.(reservation := Some(Recovering(r)))
    else if !CarriesJob(w1.ticket, r) then w1.(reservation := Some(Labelled(r, Stale)))
    else
      w1.(ticket := Written(w1.ticket, StaleTarget, None, storage.write),
          reservation := Some(if storage.write.Works? then Labelled(r, Stale) else Recovering(r)))
  }

  function LiveJobLinked(w: World, r: Reservation, storage: Storage): World {
    if CarriesJob(w.ticket, r) then w.(reservation := Some(Labelled(r, Linked)))
    else
      w.(ticket := Written(w.ticket, Link, Some(Own(r)), storage.write),
         reservation := Some(if storage.write.Works? then Labelled(r, Linked) else Recovering(r)))
  }

  class Coordinator {
    var reservation: Option<Reservation>
    var job: Option<Job>
    var ticket: Ticket
    const binding: Option<Binding>
    const originalTargets: bool

    ghost function View(): World
      reads this
    {
      World(reservation, job, ticket, binding, originalTargets)
    }

    constructor (w: World)
      ensures View() == w
    {
      reservation, job, ticket, binding, originalTargets :=
        w.reservation, w.job, w.ticket, w.binding, w.originalTargets;
    }

    method Write(r: Reservation)
      modifies this`reservation
      ensures reservation == Some(r)
    {
      reservation := Some(r);
    }

    /** The storage's own compare-and-replace; `false` is StorageUnavailable. */
    method Apply(reason: Reason, pending: Option<PendingRun>, call: Call) returns (ok: bool)
      modifies this`ticket
      ensures ticket == Written(old(ticket), reason, pending, call) && ok == call.Works?
    {
      if call.FailsBefore? {
        return false;
      }
      if reason !in ticket.receipts {
        ticket := ticket.(revision := ticket.revision + 1, events := ticket.events + [RunReconciled],
                          pending := pending, receipts := ticket.receipts + {reason});
      }
      return call.Works?;
    }

    method CancelIfQueued(j: Job)
      requires job == Some(j)
      modifies this`job
      ensures job == match CancelledRecord(j.record)
                     case Some(record) => Some(j.(record := record))
                     case None => Some(j)
    {
      if j.record.status.Queued? || j.record.status.WaitingForMemory? {
        job := Some(j.(record := j.record.(status := Cancelled)));
      }
    }

    method ReconcilePending(r: Reservation, clearMissing: bool, storage: Storage) returns (raised: bool)
      requires reservation == Some(r)
      modifies this
      ensures View() == Reconciled(old(View()), r, clearMissing, storage)
      ensures raised == VerifyExistingJob(old(View()), r).Unverified?
    {
      ghost var before := View();
      var w := World(reservation, job, ticket, binding, originalTargets);
      var v := VerifyExistingJob(w, r);
      if v.Unverified? {
        return true;
      }
      var linked := r;
      if v.Exists? && r.authority != Some(v.job.digest) {
        linked := r.(authority := Some(v.job.digest), standing := Linked, recovery := false);
        Write(linked);
      }
      if !storage.firstRead {
        Write(Recovering(linked));
        return false;
      }
      if v.Absent? && clearMissing {
        if ticket.pending.None? || ticket.pending.value.job != r.job {
          Write(Labelled(linked, Retryable));
          return false;
        }
        var ok := Apply(MissingJob, None, storage.write);
        Write(if ok then Labelled(linked, Retryable) else Recovering(linked));
        return false;
      }
      if v.Absent? {
        return false;
      }
      if Terminal(v.job.record.status) {
        if MayClearTerminalPending(w, v.job, ticket, linked) {
          var ok := Apply(Ended(v.job.record.status), None, storage.write);
          if !ok {
            Write(Recovering(linked));
            return false;
          }
        }
        Write(Labelled(linked, Linked));
        return false;
      }
      if !TargetCurrent(ticket, binding, linked.target) {
        CancelIfQueued(v.job);
        if !storage.secondRead {
          Write(Recovering(linked));
          return false;
        }
        if CarriesJob(ticket, linked) {
          var ok := Apply(StaleTarget, None, storage.write);
          if !ok {
            Write(Recovering(linked));
            return false;
          }
        }
        Write(Labelled(linked, Stale));
        return false;
      }
      if !CarriesJob(ticket, linked) {
        var ok := Apply(Link, Some(Own(linked)), storage.write);
        if !ok {
          Write(Recovering(linked));
          return false;
        }
      }
      Write(Labelled(linked, Linked));
      return false;
    }
  }

  /** `reconcile_pending_submission`: a missing job's pending run is cleared. */
  function Submission(w: World, storage: Storage): World {
    if w.reservation.None? then w
    else
      var r := w.reservation.value;
      Reconciled(w, r, VerifyExistingJob(w, r).Absent?, storage)
  }

  // ---- What every step keeps ---------------------------------------------

  /** A job whose pending run was once cleared for a stale target is not waiting
      to be launched: it was cancelled first, unless it ran already. */
  ghost predicate StaleMeansMoved(w: World) {
    StaleTarget in w.ticket.receipts ==>
      w.job.Some? && !w.job.value.record.status.Queued? && !w.job.value.record.status.WaitingForMemory?
  }

  lemma ReconciliationKeepsMoved(w: World, storage: Storage)
    requires StaleMeansMoved(w)
    ensures StaleMeansMoved(Submission(w, storage))
  {
  }

  lemma JobStepKeepsMoved(w: World, j: Job)
    requires StaleMeansMoved(w) && w.job.Some?
    requires j.record.status == w.job.value.record.status || j.record.status in ValidTargets(w.job.value.record.status)
    ensures StaleMeansMoved(w.(job := Some(j)))
  {
  }

  // ---- Idempotence -------------------------------------------------------

  lemma ReconciledEventsKeepAssignment(events: seq<Event>)
    ensures LatestAssignment(events + [RunReconciled]) == LatestAssignment(events)
  {
    assert (events + [RunReconciled])[..|events|] == events;
  }

  /** Only the standing may differ, and only from stale to linked. */
  predicate SameUpToStanding(a: Option<Reservation>, b: Option<Reservation>) {
    a == b || (a.Some? && b.Some? && a.value.standing.Stale? && b.value == a.value.(standing := Linked))
  }

  /** One more reconciliation changes neither the ticket nor the job. */
  ghost predicate Stable(w: World) {
    var again := Submission(w, AVAILABLE);
    again.ticket == w.ticket && again.job == w.job && SameUpToStanding(w.reservation, again.reservation)
  }

  /** The job is verified and the reservation linked to it. */
  predicate LinkedJob(w: World, j: Job, r: Reservation) {
    w.job == Some(j) && j.readable && r.authority == Some(j.digest) && Matches(j, r)
  }

  lemma MissingIsStable(w: World, r: Reservation)
    requires w.job.None?
    ensures Stable(MissingJobCleared(w, r, AVAILABLE))
  {
    assert LinkedTo(Labelled(r, Retryable), Absent) == Labelled(r, Retryable);
  }

  lemma TerminalIsStable(w: World, j: Job, r: Reservation)
    requires LinkedJob(w, j, r) && Terminal(j.record.status)
    ensures Stable(TerminalJobCleared(w, j, r, AVAILABLE))
  {
    assert LinkedTo(Labelled(r, Linked), Exists(j)) == Labelled(r, Linked);
  }

  /** A job that was cancelled for its stale target is terminal afterwards. */
  lemma CancelledStaleIsStable(w: World, j: Job, r: Reservation)
    requires LinkedJob(w, j, r) && !Terminal(j.record.status) && !TargetCurrent(w.ticket, w.binding, r.target)
    requires StaleMeansMoved(w) && CancelledRecord(j.record).Some?
    ensures Stable(StaleTargetCleared(w, j, r, AVAILABLE))
  {
    var t := StaleTargetCleared(w, j, r, AVAILABLE);
    var cancelled := j.(record := CancelledRecord(j.record).value);
    assert t.reservation == Some(Labelled(r, Stale)) && t.job == Some(cancelled);
    assert !CarriesJob(t.ticket, Labelled(r, Stale));
    assert VerifyExistingJob(t, Labelled(r, Stale)) == Exists(cancelled);
    assert LinkedTo(Labelled(r, Stale), Exists(cancelled)) == Labelled(r, Stale);
  }

  lemma RunningStaleIsStable(w: World, j: Job, r: Reservation)
    requires LinkedJob(w, j, r) && !Terminal(j.record.status) && !TargetCurrent(w.ticket, w.binding, r.target)
    requires CancelledRecord(j.record).None?
    ensures Stable(StaleTargetCleared(w, j, r, AVAILABLE))
  {
    var t := StaleTargetCleared(w, j, r, AVAILABLE);
    ReconciledEventsKeepAssignment(w.ticket.events);
    assert t.reservation == Some(Labelled(r, Stale)) && t.job == Some(j);
    assert VerifyExistingJob(t, Labelled(r, Stale)) == Exists(j);
    assert LinkedTo(Labelled(r, Stale), Exists(j)) == Labelled(r, Stale);
  }

  lemma StaleIsStable(w: World, j: Job, r: Reservation)
    requires LinkedJob(w, j, r) && !Terminal(j.record.status) && !TargetCurrent(w.ticket, w.binding, r.target)
    requires StaleMeansMoved(w)
    ensures Stable(StaleTargetCleared(w, j, r, AVAILABLE))
  {
    if CancelledRecord(j.record).Some? {
      CancelledStaleIsStable(w, j, r);
    } else {
      RunningStaleIsStable(w, j, r);
    }
  }

  lemma LinkIsStable(w: World, j: Job, r: Reservation)
    requires LinkedJob(w, j, r) && !Terminal(j.record.status) && TargetCurrent(w.ticket, w.binding, r.target)
    ensures Stable(LiveJobLinked(w, r, AVAILABLE))
  {
    ReconciledEventsKeepAssignment(w.ticket.events);
    assert LinkedTo(Labelled(r, Linked), Exists(j)) == Labelled(r, Linked);
  }

  /** Reconciling twice with nothing in between: the ticket and the job store are
      left as one reconciliation leaves them. */
  lemma ReconcilingTwiceIsOnce(w: World)
    requires StaleMeansMoved(w)
    ensures var once := Submission(w, AVAILABLE);
      var twice := Submission(once, AVAILABLE);
      && twice.ticket == once.ticket && twice.job == once.job
      && SameUpToStanding(once.reservation, twice.reservation)
  {
    if w.reservation.Some? {
      var r := w.reservation.value;
      var v := VerifyExistingJob(w, r);
      var linked := LinkedTo(r, v);
      var w1 := if linked != r then w.(reservation := Some(linked)) else w;
      if v.Absent? {
        MissingIsStable(w1, linked);
      } else if v.Exists? && Terminal(v.job.record.status) {
        TerminalIsStable(w1, v.job, linked);
      } else if v.Exists? && !TargetCurrent(w.ticket, w.binding, r.target) {
        StaleIsStable(w1, v.job, linked);
      } else if v.Exists? {
        LinkIsStable(w1, v.job, linked);
      }
    }
  }

  // ---- What a reconciliation establishes ---------------------------------

  /** A pending run of the reservation's job stands for a verified job that may
      still run for the current target, or whose end may not be cleared yet. */
  ghost predicate PendingIsJustified(w: World) {
    w.reservation.Some? && CarriesJob(w.ticket, w.reservation.value) ==>
      var r := w.reservation.value;
      var v := VerifyExistingJob(w, r);
      && v.Exists?
      && (if Terminal(v.job.record.status) then !MayClearTerminalPending(w, v.job, w.ticket, r)
          else TargetCurrent(w.ticket, w.binding, r.target))
  }

  /** The pending run has to go, but its clearing would only replay a receipt, or
      the job does not verify and the call raises. */
  ghost predicate ClearingIsBlocked(w: World) {
    w.reservation.Some? && CarriesJob(w.ticket, w.reservation.value) &&
    var r := w.reservation.value;
    match VerifyExistingJob(w, r)
    case Absent => MissingJob in w.ticket.receipts
    case Unverified => true
    case Exists(j) =>
      if Terminal(j.record.status) then
        MayClearTerminalPending(w, j, w.ticket, r) && Ended(j.record.status) in w.ticket.receipts
      else !TargetCurrent(w.ticket, w.binding, r.target) && StaleTarget in w.ticket.receipts
  }

  // ---- The same by the fields of ticket, job and binding -----------------

  ghost predicate NewestAssignment(events: seq<Event>, id: EventId) {
    exists i :: 0 <= i < |events| && events[i] == Assigned(id) && forall k :: i < k < |events| ==> !events[k].Assigned?
  }

  lemma {:induction false} LatestIsNewest(events: seq<Event>, id: EventId)
    ensures LatestAssignment(events) == Some(id) <==> NewestAssignment(events, id)
    decreases |events|
  {
    if events != [] && !events[|events| - 1].Assigned? {
      var front := events[..|events| - 1];
      LatestIsNewest(front, id);
      if NewestAssignment(front, id) {
        var i :| 0 <= i < |front| && front[i] == Assigned(id) && forall k :: i < k < |front| ==> !front[k].Assigned?;
        assert events[i] == Assigned(id);
      }
      if NewestAssignment(events, id) {
        var i :| 0 <= i < |events| && events[i] == Assigned(id) && forall k :: i < k < |events| ==> !events[k].Assigned?;
        assert front[i] == Assigned(id);
      }
    } else if events != [] {
      assert events[|events| - 1].Assigned?;
    }
  }

  /** The job file is authentic and was made for this reservation. */
  ghost predicate MadeFor(w: World, r: Reservation, j: Job) {
    && w.job == Some(j) && j.readable && (r.authority == None || r.authority == Some(j.digest))
    && j.id == r.job && j.target == Some(r.target) && j.team == r.target.team && j.agent == r.target.agent
  }

  /** The ticket is still assigned as it was, in the storage it was in. */
  ghost predicate OnTarget(w: World, t: Target) {
    && w.ticket.assignee == Some(t.agent) && NewestAssignment(w.ticket.events, t.assignment)
    && w.binding == Some(Binding(t.binding, t.context))
  }

  /** A job that has ended keeps its pending run while the ticket is active or
      targets remain, and for good if it ran and was not cancelled. */
  ghost predicate KeepsPending(w: World, j: Job) {
    || w.ticket.active || w.originalTargets
    || (j.record.status != Cancelled
        && (j.record.workerPid != None || j.record.launchedAt != None || j.started || j.session))
  }

  predicate HasEnded(j: Job) {
    j.record.status == Complete || j.record.status == Failed || j.record.status == Cancelled
  }

  /** The ticket carries a pending run of the reserved job. */
  ghost predicate Carried(w: World) {
    w.reservation.Some? && w.ticket.pending.Some? && w.ticket.pending.value.job == w.reservation.value.job
  }

  ghost predicate PendingStands(w: World) {
    Carried(w) ==>
      var r := w.reservation.value;
      exists j :: MadeFor(w, r, j) && (if HasEnded(j) then KeepsPending(w, j) else OnTarget(w, r.target))
  }

  /** What would have to clear the pending run has had its effect before, or the
      job is not the reservation's. */
  ghost predicate ClearingIsSpent(w: World) {
    Carried(w) &&
    var r, receipts := w.reservation.value, w.ticket.receipts;
    match w.job
    case None => MissingJob in receipts
    case Some(j) =>
      || !MadeFor(w, r, j)
      || (if HasEnded(j) then !KeepsPending(w, j) && Ended(j.record.status) in receipts
          else !OnTarget(w, r.target) && StaleTarget in receipts)
  }

  lemma FieldsAgree(w: World)
    ensures PendingIsJustified(w) <==> PendingStands(w)
    ensures ClearingIsBlocked(w) <==> ClearingIsSpent(w)
  {
    if w.reservation.Some? {
      var r := w.reservation.value;
      LatestIsNewest(w.ticket.events, r.target.assignment);
      assert TargetCurrent(w.ticket, w.binding, r.target) <==> OnTarget(w, r.target);
      assert forall j :: VerifyExistingJob(w, r) == Exists(j) <==> MadeFor(w, r, j);
      assert forall j :: MayClearTerminalPending(w, j, w.ticket, r) <==> CarriesJob(w.ticket, r) && !KeepsPending(w, j);
    }
  }

  /** What the reservation is called afterwards tells what became of it. */
  lemma StandingTells(w: World, r: Reservation)
    requires w.reservation == Some(r)
    ensures var t := Submission(w, AVAILABLE).reservation;
      && t.Some?
      && (w.job.None? ==> t.value.standing.Retryable? && !t.value.recovery)
      && (forall j :: MadeFor(w, r, j) ==>
            && t.value.authority == Some(j.digest) && !t.value.recovery
            && (t.value.standing.Linked? <==> HasEnded(j) || OnTarget(w, r.target))
            && (t.value.standing.Stale? <==> !HasEnded(j) && !OnTarget(w, r.target)))
      && (w.job.Some? && !MadeFor(w, r, w.job.value) ==> Submission(w, AVAILABLE) == w)
      && (forall j :: MadeFor(w, r, j) && !HasEnded(j) && OnTarget(w, r.target) && !Carried(w)
                      && Link !in w.ticket.receipts ==>
            Submission(w, AVAILABLE).ticket.pending
              == Some(PendingRun(r.job, r.operation, r.target.agent, r.target.assignment)))
  {
    LatestIsNewest(w.ticket.events, r.target.assignment);
    assert TargetCurrent(w.ticket, w.binding, r.target) <==> OnTarget(w, r.target);
    assert forall j :: VerifyExistingJob(w, r) == Exists(j) <==> MadeFor(w, r, j);
  }

  lemma MissingJustifiesIff(w: World, r: Reservation)
    requires w.job.None?
    ensures PendingIsJustified(MissingJobCleared(w, r, AVAILABLE)) <==>
      !(CarriesJob(w.ticket, r) && MissingJob in w.ticket.receipts)
  {
  }

  lemma TerminalJustifiesIff(w: World, j: Job, r: Reservation)
    requires LinkedJob(w, j, r) && Terminal(j.record.status)
    ensures PendingIsJustified(TerminalJobCleared(w, j, r, AVAILABLE)) <==>
      !(MayClearTerminalPending(w, j, w.ticket, r) && Ended(j.record.status) in w.ticket.receipts)
  {
    assert VerifyExistingJob(TerminalJobCleared(w, j, r, AVAILABLE), Labelled(r, Linked)) == Exists(j);
  }

  lemma StaleJustifiesIff(w: World, j: Job, r: Reservation)
    requires LinkedJob(w, j, r) && !Terminal(j.record.status) && !TargetCurrent(w.ticket, w.binding, r.target)
    requires StaleMeansMoved(w)
    ensures PendingIsJustified(StaleTargetCleared(w, j, r, AVAILABLE)) <==>
      !(CarriesJob(w.ticket, r) && StaleTarget in w.ticket.receipts)
  {
    ReconciledEventsKeepAssignment(w.ticket.events);
  }

  lemma LinkJustifies(w: World, j: Job, r: Reservation)
    requires LinkedJob(w, j, r) && !Terminal(j.record.status) && TargetCurrent(w.ticket, w.binding, r.target)
    ensures PendingIsJustified(LiveJobLinked(w, r, AVAILABLE))
  {
    ReconciledEventsKeepAssignment(w.ticket.events);
    assert VerifyExistingJob(LiveJobLinked(w, r, AVAILABLE), Labelled(r, Linked)) == Exists(j);
  }

  /** After a reconciliation without a storage failure the pending run is
      justified exactly when its clearing was not blocked. */
  lemma ReconciliationJustifiesIff(w: World)
    requires StaleMeansMoved(w)
    ensures PendingStands(Submission(w, AVAILABLE)) <==> !ClearingIsSpent(w)
  {
    FieldsAgree(w);
    FieldsAgree(Submission(w, AVAILABLE));
    JustifiesIff(w);
  }

  lemma JustifiesIff(w: World)
    requires StaleMeansMoved(w)
    ensures PendingIsJustified(Submission(w, AVAILABLE)) <==> !ClearingIsBlocked(w)
  {
    if w.reservation.Some? {
      var r := w.reservation.value;
      var v := VerifyExistingJob(w, r);
      var linked := LinkedTo(r, v);
      var w1 := if linked != r then w.(reservation := Some(linked)) else w;
      if v.Absent? {
        MissingJustifiesIff(w1, linked);
      } else if v.Exists? && Terminal(v.job.record.status) {
        TerminalJustifiesIff(w1, v.job, linked);
      } else if v.Exists? && !TargetCurrent(w.ticket, w.binding, r.target) {
        StaleJustifiesIff(w1, v.job, linked);
      } else if v.Exists? {
        LinkJustifies(w1, v.job, linked);
      }
    }
  }

  /** A reconciliation that fails at any point and is repeated once storage is
      back leaves the pending run justified, unless its clearing is blocked then. */
  lemma RetryRecovers(w: World, storage: Storage)
    requires StaleMeansMoved(w)
    ensures var failed := Submission(w, storage);
      PendingStands(Submission(failed, AVAILABLE)) <==> !ClearingIsSpent(failed)
  {
    ReconciliationKeepsMoved(w, storage);
    ReconciliationJustifiesIff(Submission(w, storage));
  }

  function Rebound(w: World, binding: Option<Binding>): World {
    Submission(w.(binding := binding), AVAILABLE)
  }

  lemma RunningLinked(w: World, j: Job, r: Reservation, binding: Option<Binding>)
    requires w.reservation == Some(r) && LinkedJob(w, j, r) && j.record.status.Running?
    ensures var t := Rebound(w, binding);
      && t.job == w.job && t.reservation.Some? && LinkedJob(t, j, t.reservation.value)
      && t.reservation.value.target == r.target && t.reservation.value.job == r.job
      && t.ticket.assignee == w.ticket.assignee
      && LatestAssignment(t.ticket.events) == LatestAssignment(w.ticket.events)
      && t.ticket == (if TargetCurrent(w.ticket, binding, r.target) then
                        if CarriesJob(w.ticket, r) then w.ticket else Applied(w.ticket, Link, Some(Own(r)))
                      else if CarriesJob(w.ticket, r) then Applied(w.ticket, StaleTarget, None) else w.ticket)
  {
    ReconciledEventsKeepAssignment(w.ticket.events);
  }

  /** A running job whose binding changes, is restored and changes again keeps its
      pending run on a target that is no longer current: the second clearing for
      a stale target is only a replay of the first. */
  lemma SecondStaleTargetIsNotCleared(w: World, j: Job, r: Reservation, other: Option<Binding>)
    requires w.reservation == Some(r) && LinkedJob(w, j, r) && j.record.status.Running?
    requires CarriesJob(w.ticket, r) && w.ticket.receipts == {}
    requires TargetCurrent(w.ticket, w.binding, r.target) && !TargetCurrent(w.ticket, other, r.target)
    ensures var t := Rebound(Rebound(Rebound(w, other), w.binding), other);
      && t.reservation.Some? && CarriesJob(t.ticket, t.reservation.value)
      && !PendingStands(t)
  {
    FieldsAgree(Rebound(Rebound(Rebound(w, other), w.binding), other));
    var a := Rebound(w, other);
    var b := Rebound(a, w.binding);
    RunningLinked(w, j, r, other);
    RunningLinked(a, j, a.reservation.value, w.binding);
    RunningLinked(b, j, b.reservation.value, other);
  }
}
