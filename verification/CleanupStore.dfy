/** ThreadCleanupService's database operations, updating the tables in place. Every method
    is one transaction and lands exactly on the step CleanupState gives it. */
module CleanupStore {
  import opened Common
  import opened CleanupState

  /** The paging cursor and sort key of the candidate query: (last_activity_at, thread_id). */
  datatype Key = Key(last: Time, thread: ThreadId)

  predicate KeyLess(a: Key, b: Key) {
    a.last < b.last || (a.last == b.last && TextLess(a.thread, b.thread))
  }

  lemma KeyOrderIsTotal()
    ensures StrictTotal(KeyLess)
  {
    forall a: Key, b: Key
      ensures !KeyLess(a, a) && (KeyLess(a, b) || KeyLess(b, a) || a == b)
    {
      TextTrichotomy(a.thread, a.thread);
      TextTrichotomy(a.thread, b.thread);
    }
    forall a: Key, b: Key, c: Key | KeyLess(a, b) && KeyLess(b, c)
      ensures KeyLess(a, c)
    {
      if a.last == b.last == c.last { TextTransitive(a.thread, b.thread, c.thread); }
    }
  }

  predicate After(cursor: Option<Key>, key: Key) {
    cursor.None? || KeyLess(cursor.value, key)
  }

  /** The key of the row of `t`. */
  function KeyOf(rows: Rows, t: ThreadId): Key
    requires t in rows
  {
    Key(rows[t].last, t)
  }

  function Selected(rows: Rows, cutoff: Time, now: Time, after: Option<Key>): set<Key> {
    set t | t in rows && Eligible(rows[t], cutoff, now) && After(after, KeyOf(rows, t)) :: KeyOf(rows, t)
  }

  /** One page of the candidate query, in its own words: the eligible rows past the cursor, in
      order, no more than the limit; a row left out comes later, and only a full page leaves any. */
  ghost predicate IsPage(page: seq<Key>, rows: Rows, cutoff: Time, now: Time, after: Option<Key>, limit: nat) {
    && Ascending(page, KeyLess)
    && |page| <= limit
    && (forall k :: k in page ==>
          k.thread in rows && k == KeyOf(rows, k.thread) && Eligible(rows[k.thread], cutoff, now) && After(after, k))
    && (forall t :: t in rows && Eligible(rows[t], cutoff, now) && After(after, KeyOf(rows, t))
                    && KeyOf(rows, t) !in page ==>
          |page| == limit && forall k :: k in page ==> KeyLess(k, KeyOf(rows, t)))
  }

  /** What this service did and saw: a step on the tables with the state it met, a page it was given, one
      look at the flags that stop a job, an answer about a thread, the end of a thread's deletion (and
      whether the job was cancelled meanwhile). */
  datatype Act =
    | Did(step: Step, met: State)
    | Paged(page: seq<Key>)
    | Looked(stopping: bool, lost: bool, active: bool, raised: bool)
    | SawRunning(thread: ThreadId, yes: bool)
    | SawScheduled(thread: ThreadId, yes: bool)
    | Deleted(thread: ThreadId, success: bool, cancelled: bool)

  /** What the backfill query returns: checkpointed threads past the cursor without a row, in order, the first
      ones, and as many as asked for or all there are. */
  ghost predicate FirstMissing(batch: Batch, rows: Rows, checkpoints: map<ThreadId, Option<Time>>, cursor: ThreadId,
                               limit: int) {
    && Ascending(batch, TextLess) && |batch| <= (if limit < 1 then 1 else limit)
    && (forall t :: t in batch ==> t in checkpoints && t !in rows && TextLess(cursor, t))
    && forall t :: t in checkpoints && t !in rows && TextLess(cursor, t) && t !in batch ==>
         |batch| == (if limit < 1 then 1 else limit) && forall u :: u in batch ==> TextLess(u, t)
  }

  class Store {
    var rows: Rows
    var lease: Option<Lease>
    var runs: map<JobId, Run>
    var checkpoints: map<ThreadId, Option<Time>>
    var cursor: ThreadId
    var complete: bool
    var batches: map<int, Batch>      // what backfill calls have read and not yet written
    ghost var history: seq<Act>       // of this service; steps of others leave no mark in it

    ghost function Abs(): State
      reads this
    {
      State(rows, lease, runs, checkpoints, cursor, complete, batches)
    }

    constructor (checkpoints: map<ThreadId, Option<Time>>)
      ensures Abs() == State(map[], None, map[], checkpoints, "", false, map[]) && history == []
    {
      rows, lease, runs, cursor, complete := map[], None, map[], "", false;
      this.checkpoints, batches, history := checkpoints, map[], [];
    }

    /** `touch_thread_sync`: raises (refused) over an unexpired claim, else records activity. */
    method TouchThread(t: ThreadId, stamp: Time, now: Time) returns (refused: bool)
      modifies this`rows, this`history
      ensures Abs() == Apply(old(Abs()), Touch(t, stamp, now))
      ensures history == old(history) + [Did(Touch(t, stamp, now), old(Abs()))]
      // refused over a claim that has not run out, or whose end nobody can read
      ensures refused <==>
                && t in old(rows) && t != "" && old(rows)[t].claimedBy.Some? && old(rows)[t].claimedBy.value != ""
                && (old(rows)[t].claimExpires.None? || now < old(rows)[t].claimExpires.value)
      ensures refused || t == "" ==> rows == old(rows)
      // activity never moves backwards, the claim is gone, protection stays
      ensures !refused && t != "" ==>
                rows == old(rows)[t := if t !in old(rows) then Row(stamp, false, None, None)
                                       else Row(if old(rows)[t].last < stamp then stamp else old(rows)[t].last,
                                                old(rows)[t].protected, None, None)]
    {
      history := history + [Did(Touch(t, stamp, now), Abs())];
      refused := false;
      if t == "" { return; }
      if t in rows {
        var existing := rows[t];
        if existing.claimedBy.Some? && existing.claimedBy.value != "" {
          if existing.claimExpires.None? || existing.claimExpires.value > now {
            refused := true;
            return;
          }
        }
        var last := existing.last;
        if stamp > last { last := stamp; }
        rows := rows[t := Row(last, existing.protected, None, None)];
      } else {
        rows := rows[t := Row(stamp, false, None, None)];
      }
    }

    method ForgetThread(t: ThreadId)
      modifies this`rows, this`history
      ensures Abs() == Apply(old(Abs()), Forget(t))
      ensures history == old(history) + [Did(Forget(t), old(Abs()))]
      ensures rows == old(rows) - {t}
    {
      history := history + [Did(Forget(t), Abs())];
      rows := rows - {t};
    }

    /** `_claim_thread_sync`. */
    method ClaimThread(t: ThreadId, cutoff: Time, job: JobId, now: Time) returns (claimed: bool)
      modifies this`rows, this`history
      ensures Abs() == Apply(old(Abs()), Claim(t, job, cutoff, now))
      ensures history == old(history) + [Did(Claim(t, job, cutoff, now), old(Abs()))]
      ensures claimed <==>
                && t in old(rows) && !old(rows)[t].protected && old(rows)[t].last < cutoff
                && (old(rows)[t].claimedBy.None? || old(rows)[t].claimExpires.None?
                    || old(rows)[t].claimExpires.value <= now)
      ensures claimed ==>
                var row := old(rows)[t];
                rows == old(rows)[t := Row(row.last, row.protected, Some(job), Some(now + 600))]
      ensures !claimed ==> rows == old(rows)
    {
      history := history + [Did(Claim(t, job, cutoff, now), Abs())];
      claimed := false;
      if t in rows {
        var row := rows[t];
        if !row.protected && row.last < cutoff
           && (row.claimedBy.None? || row.claimExpires.None? || row.claimExpires.value <= now) {
          rows := rows[t := row.(claimedBy := Some(job), claimExpires := Some(now + THREAD_CLAIM_SECONDS))];
          claimed := true;
        }
      }
    }

    method RenewThreadClaim(t: ThreadId, job: JobId, now: Time) returns (renewed: bool)
      modifies this`rows, this`history
      ensures Abs() == Apply(old(Abs()), RenewClaim(t, job, now))
      ensures history == old(history) + [Did(RenewClaim(t, job, now), old(Abs()))]
      ensures renewed <==> t in old(rows) && old(rows)[t].claimedBy == Some(job)
      ensures rows == if !renewed then old(rows) else old(rows)[t := old(rows)[t].(claimExpires := Some(now + 600))]
    {
      history := history + [Did(RenewClaim(t, job, now), Abs())];
      renewed := t in rows && rows[t].claimedBy == Some(job);
      if renewed {
        rows := rows[t := rows[t].(claimExpires := Some(now + THREAD_CLAIM_SECONDS))];
      }
    }

    method ReleaseThreadClaim(t: ThreadId, job: JobId)
      modifies this`rows, this`history
      ensures Abs() == Apply(old(Abs()), ReleaseClaim(t, job))
      ensures history == old(history) + [Did(ReleaseClaim(t, job), old(Abs()))]
      ensures rows == if t !in old(rows) || old(rows)[t].claimedBy != Some(job) then old(rows)
                      else old(rows)[t := Row(old(rows)[t].last, old(rows)[t].protected, None, None)]
    {
      history := history + [Did(ReleaseClaim(t, job), Abs())];
      if t in rows && rows[t].claimedBy == Some(job) {
        rows := rows[t := Unclaimed(rows[t])];
      }
    }

    /** `_acquire_job_lease_sync`: (granted, the owner found). */
    method AcquireJobLease(job: JobId, now: Time) returns (granted: bool, found: Option<JobId>)
      modifies this`rows, this`runs, this`lease, this`history
      ensures Abs() == Apply(old(Abs()), Acquire(job, now))
      ensures history == old(history) + [Did(Acquire(job, now), old(Abs()))]
      ensures found == if old(lease).Some? then Some(old(lease).value.owner) else None
      ensures granted <==>
                old(lease).None? || old(lease).value.expires.None? || old(lease).value.expires.value <= now
      ensures lease == if granted then Some(Lease(job, Some(now + 600))) else old(lease)
      ensures !granted ==> rows == old(rows) && runs == old(runs)
      // the claims of the owner before, and those that have run out, are gone, and nothing else of any row
      ensures granted ==> rows.Keys == old(rows).Keys
      ensures granted ==> forall t :: t in rows ==>
                var row := old(rows)[t];
                var its := found.Some? && found.value != "" && row.claimedBy == found;
                var over := row.claimedBy.Some? && row.claimExpires.Some? && row.claimExpires.value <= now;
                rows[t] == if its || over then Row(row.last, row.protected, None, None) else row
      // and its run, if it was not finished, is abandoned
      ensures granted ==>
                var left := found.Some? && found.value != "" && found.value in old(runs)
                            && old(runs)[found.value].status in {Pending, Running};
                if !left then runs == old(runs)
                else
                  var run := old(runs)[found.value];
                  runs == old(runs)[found.value := Run(Abandoned, Some(now), run.scanned, run.deleted, run.skipped,
                            run.failed, None, run.limit,
                            if run.error.Some? then run.error else Some("Cleanup worker lease expired"))]
    {
      history := history + [Did(Acquire(job, now), Abs())];
      found := None;
      if lease.Some? {
        found := Some(lease.value.owner);
        // an unreadable expiry counts as expired: `(_parse_iso(..) or now) > now` is false
        if lease.value.expires.GetOr(now) > now { return false, found; }
      }
      if found.Some? && found.value != "" && found.value in runs {
        var run := runs[found.value];
        if run.status == Pending || run.status == Running {
          runs := runs[found.value := AbandonedRun(run, now)];
        }
      }
      rows := ClearedRows(rows, found, now);
      lease := Some(Lease(job, Some(now + JOB_LEASE_SECONDS)));
      granted := true;
    }

    method RenewJobLease(job: JobId, now: Time) returns (renewed: bool)
      modifies this`lease, this`history
      ensures Abs() == Apply(old(Abs()), RenewLease(job, now))
      ensures history == old(history) + [Did(RenewLease(job, now), old(Abs()))]
      ensures renewed <==> old(lease).Some? && old(lease).value.owner == job
      ensures lease == if renewed then Some(Lease(job, Some(now + 600))) else old(lease)
    {
      history := history + [Did(RenewLease(job, now), Abs())];
      renewed := lease.Some? && lease.value.owner == job;
      if renewed { lease := Some(Lease(job, Some(now + JOB_LEASE_SECONDS))); }
    }

    method ReleaseJobLease(job: JobId)
      modifies this`lease, this`history
      ensures Abs() == Apply(old(Abs()), ReleaseLease(job))
      ensures history == old(history) + [Did(ReleaseLease(job), old(Abs()))]
      ensures lease == if old(lease).Some? && old(lease).value.owner == job then None else old(lease)
    {
      history := history + [Did(ReleaseLease(job), Abs())];
      if lease.Some? && lease.value.owner == job { lease := None; }
    }

    /** `_insert_run_sync`; false is SQLite's primary-key error. */
    method InsertRunRow(job: JobId, run: Run) returns (ok: bool)
      modifies this`runs, this`history
      ensures Abs() == Apply(old(Abs()), InsertRun(job, run))
      ensures history == old(history) + [Did(InsertRun(job, run), old(Abs()))]
      ensures ok <==> job !in old(runs)
      ensures runs == if ok then old(runs)[job := run] else old(runs)
    {
      history := history + [Did(InsertRun(job, run), Abs())];
      ok := job !in runs;
      if ok { runs := runs[job := run]; }
    }

    method UpdateRunRow(job: JobId, run: Run)
      modifies this`runs, this`history
      ensures Abs() == Apply(old(Abs()), UpdateRun(job, run))
      ensures runs == if job !in old(runs) || old(runs)[job].status == Abandoned then old(runs)
                      else old(runs)[job := run]
      ensures history == old(history) + [Did(UpdateRun(job, run), old(Abs()))]
    {
      history := history + [Did(UpdateRun(job, run), Abs())];
      if job in runs && runs[job].status != Abandoned { runs := runs[job := run]; }
    }

    /** `_candidate_rows_sync`: reads one page, changes nothing. */
    method CandidateRows(cutoff: Time, limit: int, after: Option<Key>, now: Time) returns (page: seq<Key>)
      ensures IsPage(page, rows, cutoff, now, after, AtLeastOne(limit))
      // the longest inactive first
      ensures forall i, j :: 0 <= i < j < |page| ==>
                page[i].last < page[j].last
                || (page[i].last == page[j].last && TextLess(page[i].thread, page[j].thread))
      ensures page == [] ==> forall t :: t in rows && After(after, KeyOf(rows, t)) ==> !Eligible(rows[t], cutoff, now)
    {
      KeyOrderIsTotal();
      page := FirstN(Selected(rows, cutoff, now, after), AtLeastOne(limit), KeyLess);
      forall t | t in rows && Eligible(rows[t], cutoff, now) && After(after, KeyOf(rows, t))
        ensures KeyOf(rows, t) in Selected(rows, cutoff, now, after)
      {
      }
    }

    /** The query of `backfill_activity_sync`. */
    method ReadBackfillBatch(worker: int, limit: int)
      modifies this`batches, this`history
      ensures Abs() == Apply(old(Abs()), BackfillRead(worker, limit))
      ensures history == old(history) + [Did(BackfillRead(worker, limit), old(Abs()))]
      ensures if complete then batches == old(batches)
              else worker in batches && batches == old(batches)[worker := batches[worker]]
                   && FirstMissing(batches[worker], rows, checkpoints, cursor, limit)
    {
      history := history + [Did(BackfillRead(worker, limit), Abs())];
      if complete { return; }
      batches := batches[worker := NextBatch(MissingFrom(rows, checkpoints, cursor), limit)];
    }

    /** Its inserts and the cursor, or the completion mark; other calls may have written since the query. */
    method WriteBackfillBatch(worker: int, now: Time) returns (count: nat)
      modifies this`rows, this`cursor, this`complete, this`batches, this`history
      ensures Abs() == Apply(old(Abs()), BackfillWrite(worker, now))
      ensures history == old(history) + [Did(BackfillWrite(worker, now), old(Abs()))]
      ensures count == if worker in old(batches) then |old(batches)[worker]| else 0
      ensures complete <==> old(complete) || (worker in old(batches) && old(batches)[worker] == [])
      ensures worker !in old(batches) || old(batches)[worker] == [] ==> rows == old(rows)
      ensures worker in old(batches) ==>
                var batch := old(batches)[worker];
                && batches == old(batches) - {worker}
                && cursor == (if batch == [] then "" else batch[|batch| - 1])
                && rows.Keys == old(rows).Keys + (set t | t in batch)
                && (forall t :: t in old(rows) ==> rows[t] == old(rows)[t])
                && forall t :: t in batch && t !in old(rows) ==>
                     rows[t] == if t in checkpoints && checkpoints[t].Some?
                                then Row(checkpoints[t].value, false, None, None) else Row(now, true, None, None)
    {
      history := history + [Did(BackfillWrite(worker, now), Abs())];
      if worker !in batches { return 0; }
      var batch := batches[worker];
      batches := batches - {worker};
      count := |batch|;
      if batch == [] {
        complete, cursor := true, "";
      } else {
        rows := InsertBatch(rows, checkpoints, batch, now);
        cursor := batch[|batch| - 1];
      }
    }

    /** `backfill_activity_sync` when no other call writes between its read and its write. */
    method BackfillActivity(worker: int, limit: int, now: Time) returns (count: nat)
      requires worker !in batches
      modifies this`rows, this`cursor, this`complete, this`batches, this`history
      ensures Abs() == Apply(Apply(old(Abs()), BackfillRead(worker, limit)), BackfillWrite(worker, now))
      ensures history == old(history) + [Did(BackfillRead(worker, limit), old(Abs()))]
                          + [Did(BackfillWrite(worker, now), Apply(old(Abs()), BackfillRead(worker, limit)))]
      ensures count == 0 <==> complete
    {
      ReadBackfillBatch(worker, limit);
      count := WriteBackfillBatch(worker, now);
    }
  }
}
