/**
 The durable job record: its status graph, the compare-and-set writes that
 `flowgency/jobs/store.py` performs under a record lock, and the two questions
 the queue asks about a record (does it hold a slot, may it be launched).
 */
module JobRecords {
  import opened Wrappers

  datatype Status = Queued | WaitingForMemory | Running | Complete | Failed | Cancelled

  // Seconds a launched job keeps its slot when its launcher reported no pid.
  const LAUNCH_GRACE_SECONDS := 300

  function ValidTargets(status: Status): set<Status> {
    match status
    case Queued => {WaitingForMemory, Running, Failed, Cancelled}
    case WaitingForMemory => {Running, Failed, Cancelled, Complete}
    case Running => {Complete, Failed}
    case _ => {}
  }

  predicate Terminal(status: Status) {
    status.Complete? || status.Failed? || status.Cancelled?
  }

  datatype CleanupStatus = Cleared | Pending | Partial | Idle | Error

  // The `ticket_cleanup` entry of a record's result metadata.
  datatype TicketCleanup =
    | Malformed
    | Cleanup(confirmed: bool, requiresRetry: bool, hasError: bool, status: CleanupStatus, pending: nat)

  datatype Metadata = Metadata(failedBeforeRuntime: bool, ticketCleanup: Option<TicketCleanup>)

  const NO_METADATA := Metadata(false, None)

  datatype Record = Record(
    status: Status,
    workerPid: Option<int>,
    launchedAt: Option<int>,
    dueAt: Option<int>,
    metadata: Metadata)

  function NewRecord(dueAt: Option<int>): Record {
    Record(Queued, None, None, dueAt, NO_METADATA)
  }

  // ---- Slot accounting ---------------------------------------------------

  predicate IsLaunched(r: Record) {
    r.launchedAt.Some? || r.workerPid.Some?
  }

  /** `dead` holds the pids for which the liveness probe answers "confirmed
      absent"; alive and unknown are told apart nowhere in the queue. */
  predicate LaunchAbandoned(r: Record, now: int, dead: set<int>) {
    if r.workerPid.Some? then r.workerPid.value in dead
    else r.launchedAt.Some? && now - r.launchedAt.value > LAUNCH_GRACE_SECONDS
  }

  predicate OccupiesSlot(r: Record, now: int, dead: set<int>) {
    || r.status.Running?
    || r.status.WaitingForMemory?
    || (r.status.Queued? && IsLaunched(r) && !LaunchAbandoned(r, now, dead))
  }

  predicate IsLaunchable(r: Record, now: int, dead: set<int>) {
    r.status.Queued? && (!IsLaunched(r) || LaunchAbandoned(r, now, dead))
  }

  /** A launched job may be started again when its pid is confirmed absent, or, if
      its launcher reported none, when the grace has passed. Until then it holds its
      slot: no queued job does both or neither. */
  lemma QueuedHoldsOrWaits(r: Record, now: int, dead: set<int>)
    requires r.status.Queued?
    ensures IsLaunchable(r, now, dead) <==> !OccupiesSlot(r, now, dead)
    ensures r.workerPid.Some? ==> (IsLaunchable(r, now, dead) <==> r.workerPid.value in dead)
    ensures r.workerPid.None? && r.launchedAt.Some? ==>
      (IsLaunchable(r, now, dead) <==> r.launchedAt.value + LAUNCH_GRACE_SECONDS < now)
    ensures r.workerPid.None? && r.launchedAt.None? ==> IsLaunchable(r, now, dead)
  {
  }

  /** Of the jobs that have left the queue exactly the unfinished ones hold a slot. */
  lemma UnqueuedNeverWaits(r: Record, now: int, dead: set<int>)
    requires !r.status.Queued?
    ensures !IsLaunchable(r, now, dead)
    ensures OccupiesSlot(r, now, dead) <==> r.status.WaitingForMemory? || r.status.Running?
  {
  }

  // ---- Writes under the record lock --------------------------------------

  datatype Change = Keep | SetWorkerPid(pid: int)

  /** Which statuses may follow which. */
  predicate Edge(a: Status, b: Status) {
    || (a.Queued? && (b.WaitingForMemory? || b.Running? || b.Failed? || b.Cancelled?))
    || (a.WaitingForMemory? && (b.Running? || b.Complete? || b.Failed? || b.Cancelled?))
    || (a.Running? && (b.Complete? || b.Failed?))
  }

  lemma TargetsAreEdges(a: Status, b: Status)
    ensures b in ValidTargets(a) <==> Edge(a, b)
    ensures Terminal(a) <==> forall x :: !Edge(a, x)
  {
    assert Edge(Queued, Failed) && Edge(WaitingForMemory, Failed) && Edge(Running, Failed);
  }

  /** `None` is the InvalidJobTransition exception. */
  function Transitioned(r: Record, expected: Status, status: Status, change: Change): Option<Record> {
    if r.status != expected || status !in ValidTargets(expected) then None
    else
      var moved := r.(status := status);
      Some(if change.SetWorkerPid? then moved.(workerPid := Some(change.pid)) else moved)
  }

  function CancelledRecord(r: Record): Option<Record> {
    if r.status.Queued? || r.status.WaitingForMemory? then Some(r.(status := Cancelled)) else None
  }

  function ClaimedRecord(r: Record, pid: Option<int>, now: int): Option<Record> {
    if r.status.Queued? then Some(r.(workerPid := pid, launchedAt := Some(now))) else None
  }

  /** One record file. Every method is one critical section of its lock. */
  class JobFile {
    var record: Record

    constructor (r: Record)
      ensures record == r
    {
      record := r;
    }

    method TransitionJob(expected: Status, status: Status, change: Change) returns (raised: bool)
      modifies this
      ensures match Transitioned(old(record), expected, status, change)
              case Some(updated) => !raised && record == updated
              case None => raised && record == old(record)
      ensures raised <==> old(record).status != expected || !Edge(expected, status)
      ensures !raised ==> record.status == status && record.launchedAt == old(record).launchedAt
                          && record.dueAt == old(record).dueAt && record.metadata == old(record).metadata
                          && record.workerPid == (if change.SetWorkerPid? then Some(change.pid) else old(record).workerPid)
    {
      TargetsAreEdges(expected, status);
      if record.status != expected {
        return true;
      }
      if status !in ValidTargets(expected) {
        return true;
      }
      record := record.(status := status);
      if change.SetWorkerPid? {
        record := record.(workerPid := Some(change.pid));
      }
      return false;
    }

    method CancelJob() returns (raised: bool)
      modifies this
      ensures match CancelledRecord(old(record))
              case Some(updated) => !raised && record == updated
              case None => raised && record == old(record)
      ensures raised <==> !Edge(old(record).status, Cancelled)
      ensures !raised ==> record == old(record).(status := Cancelled)
    {
      if record.status !in {Queued, WaitingForMemory} {
        return true;
      }
      record := record.(status := Cancelled);
      return false;
    }

    method ClaimJob(pid: Option<int>, now: int) returns (raised: bool)
      modifies this
      ensures match ClaimedRecord(old(record), pid, now)
              case Some(updated) => !raised && record == updated
              case None => raised && record == old(record)
      ensures raised <==> !old(record).status.Queued?
      ensures !raised ==> record == old(record).(workerPid := pid, launchedAt := Some(now))
    {
      if record.status != Queued {
        return true;
      }
      record := record.(workerPid := pid, launchedAt := Some(now));
      return false;
    }
  }

  // ---- What a failed record proves ---------------------------------------

  predicate SettledCleanup(c: TicketCleanup) {
    c.Cleanup? && c.confirmed && !c.requiresRetry && !c.hasError
    && (c.status.Idle? || c.status.Cleared?) && c.pending == 0
  }

  /** The dispatcher's test that a job stopped before its runtime was invoked. */
  predicate RecoverablePreRuntime(r: Record) {
    && r.status.Failed?
    && (!IsLaunched(r)
        || (r.metadata.failedBeforeRuntime
            && (r.metadata.ticketCleanup.None? || SettledCleanup(r.metadata.ticketCleanup.value))))
  }

  /** The submission's own test, made after its drain, that the job never started. */
  predicate SettleRaises(r: Record) {
    r.status.Failed? && r.launchedAt.None?
  }
}
