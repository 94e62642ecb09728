/** The durable state of inactive-thread cleanup (app/thread_cleanup.py) and its atomic
    steps: each `BEGIN IMMEDIATE` block and each single guarded UPDATE or DELETE is one
    step. A step carries the clock its own caller read, so nothing here assumes that
    the clocks of different workers agree or only move forward. */
module CleanupState {
  import opened Common

  type ThreadId = string
  type JobId = string
  type Time = int   // instants; the stored texts compare alike (Timestamps.TextOrderIsTimeOrder)

  const JOB_LEASE_SECONDS := 600
  const THREAD_CLAIM_SECONDS := 600

  /** A `thread_activity` row: the columns some guard reads. A claim's expiry of None is SQL NULL; the
      program never writes a claim without a readable expiry. */
  datatype Row = Row(last: Time, protected: bool,
                     claimedBy: Option<JobId>, claimExpires: Option<Time>)

  /** The single `thread_cleanup_lease` row; None is an unreadable expiry. */
  datatype Lease = Lease(owner: JobId, expires: Option<Time>)

  datatype Status = Pending | Running | Completed | CompletedWithErrors | Cancelled | Failed
                  | LostLease | StoppedOnActivity | Abandoned

  /** A `thread_cleanup_runs` row. */
  datatype Run = Run(status: Status, completedAt: Option<Time>,
                     scanned: nat, deleted: nat, skipped: nat, failed: nat,
                     current: Option<ThreadId>, limit: nat, error: Option<string>)

  type Rows = map<ThreadId, Row>

  /** What one backfill call has read and not yet written: thread ids in ascending order. */
  type Batch = seq<ThreadId>

  datatype State = State(
    rows: Rows,
    lease: Option<Lease>,
    runs: map<JobId, Run>,
    checkpoints: map<ThreadId, Option<Time>>,  // latest checkpoint time, None if unreadable
    cursor: ThreadId,                          // 'backfill_cursor', "" when absent
    complete: bool,                            // 'backfill_complete' = '1'
    batches: map<int, Batch>)                  // backfill calls between their read and write

  datatype Step =
    | Touch(thread: ThreadId, stamp: Time, now: Time)
    | Forget(thread: ThreadId)
    | Claim(thread: ThreadId, job: JobId, cutoff: Time, now: Time)
    | RenewClaim(thread: ThreadId, job: JobId, now: Time)
    | ReleaseClaim(thread: ThreadId, job: JobId)
    | Acquire(job: JobId, now: Time)
    | RenewLease(job: JobId, now: Time)
    | ReleaseLease(job: JobId)
    | InsertRun(job: JobId, run: Run)
    | UpdateRun(job: JobId, run: Run)
    | BackfillRead(worker: int, limit: int)
    | BackfillWrite(worker: int, now: Time)

  // ---- guards ------------------------------------------------------------------

  /** `touch_thread_sync` raises while a claim is unexpired or its expiry unreadable. */
  predicate TouchRefused(rows: Rows, t: ThreadId, now: Time) {
    && t in rows && rows[t].claimedBy.Some? && rows[t].claimedBy.value != ""
    && (rows[t].claimExpires.None? || rows[t].claimExpires.value > now)
  }

  /** The claim part of the WHERE clause of listing and claiming. */
  predicate ClaimFree(row: Row, now: Time) {
    row.claimedBy.None? || row.claimExpires.None? || row.claimExpires.value <= now
  }

  predicate Eligible(row: Row, cutoff: Time, now: Time) {
    !row.protected && row.last < cutoff && ClaimFree(row, now)
  }

  predicate ClaimGranted(rows: Rows, t: ThreadId, cutoff: Time, now: Time) {
    t in rows && Eligible(rows[t], cutoff, now)
  }

  predicate ClaimedBy(rows: Rows, t: ThreadId, job: JobId) {
    t in rows && rows[t].claimedBy == Some(job)
  }

  predicate LeaseGranted(lease: Option<Lease>, now: Time) {
    lease.None? || lease.value.expires.None? || lease.value.expires.value <= now
  }

  predicate LeaseHeldBy(lease: Option<Lease>, job: JobId) {
    lease.Some? && lease.value.owner == job
  }

  // ---- effects -----------------------------------------------------------------

  function TouchRows(rows: Rows, t: ThreadId, stamp: Time, now: Time): Rows {
    if t == "" || TouchRefused(rows, t, now) then rows
    else if t in rows then
      rows[t := rows[t].(last := if stamp > rows[t].last then stamp else rows[t].last,
                         claimedBy := None, claimExpires := None)]
    else rows[t := Row(stamp, false, None, None)]
  }

  function ClaimRows(rows: Rows, t: ThreadId, job: JobId, cutoff: Time, now: Time): Rows {
    if ClaimGranted(rows, t, cutoff, now)
    then rows[t := rows[t].(claimedBy := Some(job), claimExpires := Some(now + THREAD_CLAIM_SECONDS))]
    else rows
  }

  function RenewRows(rows: Rows, t: ThreadId, job: JobId, now: Time): Rows {
    if ClaimedBy(rows, t, job)
    then rows[t := rows[t].(claimExpires := Some(now + THREAD_CLAIM_SECONDS))]
    else rows
  }

  function ReleaseRows(rows: Rows, t: ThreadId, job: JobId): Rows {
    if ClaimedBy(rows, t, job)
    then rows[t := rows[t].(claimedBy := None, claimExpires := None)]
    else rows
  }

  function Unclaimed(row: Row): Row { row.(claimedBy := None, claimExpires := None) }

  /** Acquiring the lease clears the displaced owner's claims and every expired claim. */
  function ClearedRows(rows: Rows, previous: Option<JobId>, now: Time): Rows {
    map t | t in rows ::
      if (previous.Some? && previous.value != "" && rows[t].claimedBy == previous)
         || (rows[t].claimedBy.Some? && rows[t].claimExpires.Some? && rows[t].claimExpires.value <= now)
      then Unclaimed(rows[t]) else rows[t]
  }

  function PreviousOwner(lease: Option<Lease>): Option<JobId> {
    if lease.Some? then Some(lease.value.owner) else None
  }

  predicate Unfinished(run: Run) { run.status == Pending || run.status == Running }

  function AbandonedRun(run: Run, now: Time): Run {
    run.(status := Abandoned, completedAt := Some(now), current := None,
         error := Some(run.error.GetOr("Cleanup worker lease expired")))
  }

  function AbandonRuns(runs: map<JobId, Run>, previous: Option<JobId>, now: Time): map<JobId, Run> {
    if previous.Some? && previous.value != "" && previous.value in runs && Unfinished(runs[previous.value])
    then runs[previous.value := AbandonedRun(runs[previous.value], now)]
    else runs
  }

  /** `_update_run_sync`: every column but `job_id`, unless the row was abandoned. */
  function UpdateRuns(runs: map<JobId, Run>, job: JobId, run: Run): map<JobId, Run> {
    if job in runs && runs[job].status != Abandoned then runs[job := run] else runs
  }

  /** Threads with checkpoints, no activity row, and an id after the cursor. */
  function MissingFrom(rows: Rows, checkpoints: map<ThreadId, Option<Time>>, cursor: ThreadId): set<ThreadId> {
    set t | t in checkpoints && t !in rows && TextLess(cursor, t)
  }

  ghost function Missing(s: State): set<ThreadId> { MissingFrom(s.rows, s.checkpoints, s.cursor) }

  function AtLeastOne(n: int): nat { if n < 1 then 1 else n }

  /** The backfill query: the first missing ids, in order. */
  function NextBatch(missing: set<ThreadId>, limit: int): (batch: Batch)
    ensures batch == [] <==> missing == {}
    ensures forall t :: t in batch ==> t in missing
    ensures batch != [] ==> forall t :: t in missing && t !in batch ==> TextLess(batch[|batch| - 1], t)
  {
    TextOrderIsTotal();
    FirstN(missing, AtLeastOne(limit), TextLess)
  }

  ghost function ReadBatch(s: State, limit: int): Batch { NextBatch(Missing(s), limit) }

  function BackfilledRow(checkpoint: Option<Time>, now: Time): Row {
    match checkpoint
    case Some(stamp) => Row(stamp, false, None, None)
    case None => Row(now, true, None, None)     // unreadable history is protected
  }

  /** INSERT OR IGNORE of one batch. */
  function InsertBatch(rows: Rows, checkpoints: map<ThreadId, Option<Time>>, batch: Batch, now: Time): Rows {
    rows + map t | t in batch && t !in rows ::
      BackfilledRow(if t in checkpoints then checkpoints[t] else None, now)
  }

  function AcquireState(s: State, job: JobId, now: Time): State {
    if !LeaseGranted(s.lease, now) then s
    else
      var previous := PreviousOwner(s.lease);
      s.(rows := ClearedRows(s.rows, previous, now),
         runs := AbandonRuns(s.runs, previous, now),
         lease := Some(Lease(job, Some(now + JOB_LEASE_SECONDS))))
  }

  function WriteBatchState(s: State, worker: int, now: Time): State {
    if worker !in s.batches then s
    else
      var batch := s.batches[worker];
      if batch == [] then s.(complete := true, cursor := "", batches := s.batches - {worker})
      else s.(rows := InsertBatch(s.rows, s.checkpoints, batch, now),
              cursor := batch[|batch| - 1], batches := s.batches - {worker})
  }

  /** The state after one atomic step. */
  ghost function Apply(s: State, step: Step): State {
    match step
    case Touch(t, stamp, now) => s.(rows := TouchRows(s.rows, t, stamp, now))
    case Forget(t) => s.(rows := s.rows - {t})
    case Claim(t, job, cutoff, now) => s.(rows := ClaimRows(s.rows, t, job, cutoff, now))
    case RenewClaim(t, job, now) => s.(rows := RenewRows(s.rows, t, job, now))
    case ReleaseClaim(t, job) => s.(rows := ReleaseRows(s.rows, t, job))
    case Acquire(job, now) => AcquireState(s, job, now)
    case RenewLease(job, now) =>
      if LeaseHeldBy(s.lease, job)
      then s.(lease := Some(Lease(job, Some(now + JOB_LEASE_SECONDS)))) else s
    case ReleaseLease(job) => if LeaseHeldBy(s.lease, job) then s.(lease := None) else s
    case InsertRun(job, run) => if job in s.runs then s else s.(runs := s.runs[job := run])
    case UpdateRun(job, run) => s.(runs := UpdateRuns(s.runs, job, run))
    case BackfillRead(worker, limit) =>
      if s.complete then s else s.(batches := s.batches[worker := ReadBatch(s, limit)])
    case BackfillWrite(worker, now) => WriteBatchState(s, worker, now)
  }

  /** The state after a run of steps, in order. */
  ghost function Exec(s: State, steps: seq<Step>): State
    decreases |steps|
  {
    if steps == [] then s else Exec(Apply(s, steps[0]), steps[1..])
  }
}
