/** What everybody else may do to the tables while a deletion job of `job` runs, and what any number of such
    steps can change. */
module CleanupOthers {
  import opened Common
  import opened CleanupState
  import opened CleanupStore

  /** A backfill write that brings no row in below the cutoff. */
  predicate InsertsAbove(s: State, worker: int, now: Time, cutoff: Time) {
    worker in s.batches ==>
      forall t :: t in s.batches[worker] && t !in s.rows ==>
        BackfilledRow(if t in s.checkpoints then s.checkpoints[t] else None, now).last >= cutoff
  }

  /** Steps of everybody else during a run of `job`: foreground touches stamped at or after the
      cutoff, deletions, other jobs, this job's heartbeat, backfill calls. No row enters below the
      cutoff, and threads in `quiet` are left alone. */
  predicate EnvStep(s: State, step: Step, cutoff: Time, job: JobId, quiet: set<ThreadId>) {
    match step
    case Touch(t, stamp, _) => t !in quiet && stamp >= cutoff
    case Forget(t) => t !in quiet
    case Claim(t, other, _, _) => t !in quiet && other != job
    case RenewClaim(t, other, _) => t !in quiet || other == job
    case ReleaseClaim(_, _) => true
    case Acquire(other, _) => other != job
    case RenewLease(_, _) => true
    case ReleaseLease(_) => true
    case InsertRun(other, _) => other != job
    case UpdateRun(other, _) => other != job
    case BackfillRead(_, _) => true
    case BackfillWrite(worker, now) => InsertsAbove(s, worker, now, cutoff)
  }

  /** Keys of the rows below the cutoff: one per thread. */
  ghost function Below(rows: Rows, cutoff: Time): set<Key> {
    set t | t in rows && rows[t].last < cutoff :: KeyOf(rows, t)
  }

  /** What any number of such steps can do to the activity rows. */
  ghost predicate Permitted(before: Rows, after: Rows, cutoff: Time, job: JobId, quiet: set<ThreadId>) {
    && (forall t :: t in after && after[t].last < cutoff ==> t in before && before[t].last == after[t].last)
    && (forall t :: t in after && after[t].claimedBy == Some(job) ==> ClaimedBy(before, t, job))
    && (forall t :: t in before && t in quiet ==>
          && t in after && after[t].last == before[t].last && after[t].protected == before[t].protected
          && (after[t].claimedBy == before[t].claimedBy || after[t].claimedBy.None?)
          && (after[t].claimedBy == before[t].claimedBy && after[t].claimedBy != Some(job) ==>
                after[t].claimExpires == before[t].claimExpires))
  }

  /** A step that changes at most one row. */
  lemma OneRowIsPermitted(before: Rows, after: Rows, t: ThreadId, cutoff: Time, job: JobId, quiet: set<ThreadId>)
    requires forall u :: u != t ==> (u in after <==> u in before) && (u in before ==> after[u] == before[u])
    requires t in after && after[t].last < cutoff ==> t in before && before[t].last == after[t].last
    requires t in after && after[t].claimedBy == Some(job) ==> ClaimedBy(before, t, job)
    requires t in before && t in quiet ==>
               && t in after && after[t].last == before[t].last && after[t].protected == before[t].protected
               && (after[t].claimedBy == before[t].claimedBy || after[t].claimedBy.None?)
               && (after[t].claimedBy == before[t].claimedBy && after[t].claimedBy != Some(job) ==>
                     after[t].claimExpires == before[t].claimExpires)
    ensures Permitted(before, after, cutoff, job, quiet)
  {
  }

  lemma AcquireIsPermitted(s: State, other: JobId, now: Time, cutoff: Time, job: JobId, quiet: set<ThreadId>)
    requires other != job
    ensures Permitted(s.rows, Apply(s, Acquire(other, now)).rows, cutoff, job, quiet)
  {
    if LeaseGranted(s.lease, now) { ClearingIsPermitted(s.rows, PreviousOwner(s.lease), now, cutoff, job, quiet); }
  }

  lemma ClearingIsPermitted(rows: Rows, previous: Option<JobId>, now: Time, cutoff: Time, job: JobId,
      quiet: set<ThreadId>)
    ensures Permitted(rows, ClearedRows(rows, previous, now), cutoff, job, quiet)
  {
  }

  lemma TouchIsPermitted(s: State, t: ThreadId, stamp: Time, now: Time, cutoff: Time, job: JobId, quiet: set<ThreadId>)
    requires t !in quiet && stamp >= cutoff
    ensures Permitted(s.rows, Apply(s, Touch(t, stamp, now)).rows, cutoff, job, quiet)
  {
    OneRowIsPermitted(s.rows, Apply(s, Touch(t, stamp, now)).rows, t, cutoff, job, quiet);
  }

  lemma ForgetIsPermitted(s: State, t: ThreadId, cutoff: Time, job: JobId, quiet: set<ThreadId>)
    requires t !in quiet
    ensures Permitted(s.rows, Apply(s, Forget(t)).rows, cutoff, job, quiet)
  {
    OneRowIsPermitted(s.rows, Apply(s, Forget(t)).rows, t, cutoff, job, quiet);
  }

  lemma ClaimIsPermitted(s: State, t: ThreadId, other: JobId, until: Time, now: Time,
                         cutoff: Time, job: JobId, quiet: set<ThreadId>)
    requires t !in quiet && other != job
    ensures Permitted(s.rows, Apply(s, Claim(t, other, until, now)).rows, cutoff, job, quiet)
  {
    OneRowIsPermitted(s.rows, Apply(s, Claim(t, other, until, now)).rows, t, cutoff, job, quiet);
  }

  lemma RenewalIsPermitted(s: State, t: ThreadId, other: JobId, now: Time, cutoff: Time, job: JobId,
      quiet: set<ThreadId>)
    requires t !in quiet || other == job
    ensures Permitted(s.rows, Apply(s, RenewClaim(t, other, now)).rows, cutoff, job, quiet)
  {
    OneRowIsPermitted(s.rows, Apply(s, RenewClaim(t, other, now)).rows, t, cutoff, job, quiet);
  }

  lemma ReleaseIsPermitted(s: State, t: ThreadId, other: JobId, cutoff: Time, job: JobId, quiet: set<ThreadId>)
    ensures Permitted(s.rows, Apply(s, ReleaseClaim(t, other)).rows, cutoff, job, quiet)
  {
    OneRowIsPermitted(s.rows, Apply(s, ReleaseClaim(t, other)).rows, t, cutoff, job, quiet);
  }

  lemma BackfillIsPermitted(s: State, worker: int, now: Time, cutoff: Time, job: JobId, quiet: set<ThreadId>)
    requires InsertsAbove(s, worker, now, cutoff)
    ensures Permitted(s.rows, Apply(s, BackfillWrite(worker, now)).rows, cutoff, job, quiet)
  {
    if worker in s.batches && s.batches[worker] != [] {
      InsertIsPermitted(s.rows, s.checkpoints, s.batches[worker], now, cutoff, job, quiet);
    } else {
      NothingIsPermitted(s.rows, cutoff, job, quiet);
    }
  }

  lemma InsertIsPermitted(rows: Rows, checkpoints: map<ThreadId, Option<Time>>, batch: Batch, now: Time,
                          cutoff: Time, job: JobId, quiet: set<ThreadId>)
    requires forall t :: t in batch && t !in rows ==>
               BackfilledRow(if t in checkpoints then checkpoints[t] else None, now).last >= cutoff
    ensures Permitted(rows, InsertBatch(rows, checkpoints, batch, now), cutoff, job, quiet)
  {
  }

  lemma NothingIsPermitted(rows: Rows, cutoff: Time, job: JobId, quiet: set<ThreadId>)
    ensures Permitted(rows, rows, cutoff, job, quiet)
  {
  }

  lemma EnvStepIsPermitted(s: State, step: Step, cutoff: Time, job: JobId, quiet: set<ThreadId>)
    requires EnvStep(s, step, cutoff, job, quiet)
    ensures Permitted(s.rows, Apply(s, step).rows, cutoff, job, quiet)
  {
    match step {
      case Touch(t, stamp, now) => TouchIsPermitted(s, t, stamp, now, cutoff, job, quiet);
      case Forget(t) => ForgetIsPermitted(s, t, cutoff, job, quiet);
      case Claim(t, other, until, now) => ClaimIsPermitted(s, t, other, until, now, cutoff, job, quiet);
      case RenewClaim(t, other, now) => RenewalIsPermitted(s, t, other, now, cutoff, job, quiet);
      case ReleaseClaim(t, other) => ReleaseIsPermitted(s, t, other, cutoff, job, quiet);
      case Acquire(other, now) => AcquireIsPermitted(s, other, now, cutoff, job, quiet);
      case RenewLease(_, _) => NothingIsPermitted(s.rows, cutoff, job, quiet);
      case ReleaseLease(_) => NothingIsPermitted(s.rows, cutoff, job, quiet);
      case InsertRun(_, _) => NothingIsPermitted(s.rows, cutoff, job, quiet);
      case UpdateRun(_, _) => NothingIsPermitted(s.rows, cutoff, job, quiet);
      case BackfillRead(worker, limit) => NothingIsPermitted(s.rows, cutoff, job, quiet);
      case BackfillWrite(worker, now) => BackfillIsPermitted(s, worker, now, cutoff, job, quiet);
    }
  }

  lemma PermittedComposes(a: Rows, b: Rows, c: Rows, cutoff: Time, job: JobId, quiet: set<ThreadId>)
    requires Permitted(a, b, cutoff, job, quiet) && Permitted(b, c, cutoff, job, quiet)
    ensures Permitted(a, c, cutoff, job, quiet)
  {
  }

  /** A step of somebody else. */
  method Perform(store: Store, step: Step)
    modifies store
    ensures store.Abs() == Apply(old(store.Abs()), step) && store.history == old(store.history)
  {
    ghost var mine := store.history;
    match step {
      case Touch(t, stamp, now) => var _ := store.TouchThread(t, stamp, now);
      case Forget(t) => store.ForgetThread(t);
      case Claim(t, job, cutoff, now) => var _ := store.ClaimThread(t, cutoff, job, now);
      case RenewClaim(t, job, now) => var _ := store.RenewThreadClaim(t, job, now);
      case ReleaseClaim(t, job) => store.ReleaseThreadClaim(t, job);
      case Acquire(job, now) => var _, _ := store.AcquireJobLease(job, now);
      case RenewLease(job, now) => var _ := store.RenewJobLease(job, now);
      case ReleaseLease(job) => store.ReleaseJobLease(job);
      case InsertRun(job, run) => var _ := store.InsertRunRow(job, run);
      case UpdateRun(job, run) => store.UpdateRunRow(job, run);
      case BackfillRead(worker, limit) => store.ReadBackfillBatch(worker, limit);
      case BackfillWrite(worker, now) => var _ := store.WriteBackfillBatch(worker, now);
    }
    store.history := mine;
  }

  /** Whether the step is one the others may take. */
  method EnvAllows(store: Store, step: Step, cutoff: Time, job: JobId, quiet: set<ThreadId>) returns (yes: bool)
    ensures yes <==> EnvStep(store.Abs(), step, cutoff, job, quiet)
  {
    var now := State(store.rows, store.lease, store.runs, store.checkpoints, store.cursor, store.complete,
        store.batches);
    yes := EnvStep(now, step, cutoff, job, quiet);
  }

  /** An await: any finite number of steps of the others happen. */
  method Interfere(store: Store, cutoff: Time, job: JobId, quiet: set<ThreadId>)
    modifies store
    ensures Permitted(old(store.rows), store.rows, cutoff, job, quiet) && store.history == old(store.history)
  {
    var more: nat := *;
    while more > 0
      invariant Permitted(old(store.rows), store.rows, cutoff, job, quiet) && store.history == old(store.history)
    {
      var step: Step := *;
      var clear := EnvAllows(store, step, cutoff, job, quiet);
      if clear {
        ghost var before := store.rows;
        EnvStepIsPermitted(store.Abs(), step, cutoff, job, quiet);
        Perform(store, step);
        PermittedComposes(old(store.rows), before, store.rows, cutoff, job, quiet);
      }
      more := more - 1;
    }
  }

  method Later(now: Time) returns (later: Time)
    ensures now <= later
  {
    later :| now <= later;
  }
}
