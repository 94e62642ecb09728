/** Claims against touches, lease fencing, and backfill completeness, over every
    interleaving of cleanup jobs, foreground touches and backfill calls. */
module CleanupSafety {
  import opened Common
  import opened CleanupState

  // ---- a touch keeps cleanup away --------------------------------------------------

  /** Some step in `steps` deletes the row of `t`. */
  ghost predicate Forgotten(steps: seq<Step>, t: ThreadId) {
    Forget(t) in steps
  }

  /** A row that cleanup with this cutoff may claim once it is free. */
  predicate Exposed(s: State, t: ThreadId, cutoff: Time) {
    t in s.rows && !s.rows[t].protected && s.rows[t].last < cutoff
  }

  /** The steps that bring a deleted row back unprotected and below the cutoff: a touch stamped below
      it, and the write of a backfill batch that still holds the thread with an old checkpoint. */
  predicate Recreates(s: State, step: Step, t: ThreadId, cutoff: Time) {
    t !in s.rows &&
    match step
    case Touch(u, stamp, _) => u == t && t != "" && stamp < cutoff
    case BackfillWrite(worker, _) =>
      && worker in s.batches && t in s.batches[worker]
      && t in s.checkpoints && s.checkpoints[t].Some? && s.checkpoints[t].value < cutoff
    case _ => false
  }

  /** A thread becomes exposed by exactly those steps. */
  lemma ExposedExactlyByRecreation(s: State, step: Step, t: ThreadId, cutoff: Time)
    requires !Exposed(s, t, cutoff)
    ensures Exposed(Apply(s, step), t, cutoff) <==> Recreates(s, step, t, cutoff)
  {
    if step.BackfillWrite? { WriteExposesExactly(s, step.worker, step.now, t, cutoff); }
  }

  lemma WriteExposesExactly(s: State, worker: int, now: Time, t: ThreadId, cutoff: Time)
    requires !Exposed(s, t, cutoff)
    ensures Exposed(Apply(s, BackfillWrite(worker, now)), t, cutoff) <==>
            Recreates(s, BackfillWrite(worker, now), t, cutoff)
  {
  }

  /** And a recreated row is free: it can be claimed at once, at any clock. */
  lemma RecreatedIsClaimable(s: State, step: Step, t: ThreadId, cutoff: Time, now: Time)
    requires Recreates(s, step, t, cutoff)
    ensures ClaimGranted(Apply(s, step).rows, t, cutoff, now)
  {
  }

  ghost predicate SomeRecreation(s: State, steps: seq<Step>, t: ThreadId, cutoff: Time)
    decreases |steps|
  {
    steps != [] && (Recreates(s, steps[0], t, cutoff) || SomeRecreation(Apply(s, steps[0]), steps[1..], t, cutoff))
  }

  /** At some moment of the run a claim with this cutoff would be granted, whatever its clock. */
  ghost predicate EverClaimable(s: State, steps: seq<Step>, t: ThreadId, cutoff: Time)
    decreases |steps|
  {
    || (exists now :: ClaimGranted(s.rows, t, cutoff, now))
    || (steps != [] && EverClaimable(Apply(s, steps[0]), steps[1..], t, cutoff))
  }

  lemma {:induction false} ClaimableExactlyByRecreation(s: State, steps: seq<Step>, t: ThreadId, cutoff: Time)
    requires !Exposed(s, t, cutoff)
    ensures EverClaimable(s, steps, t, cutoff) <==> SomeRecreation(s, steps, t, cutoff)
    decreases |steps|
  {
    if steps != [] {
      var next := Apply(s, steps[0]);
      ExposedExactlyByRecreation(s, steps[0], t, cutoff);
      if Recreates(s, steps[0], t, cutoff) {
        RecreatedIsClaimable(s, steps[0], t, cutoff, 0);
        assert ClaimGranted(next.rows, t, cutoff, 0);
      } else {
        ClaimableExactlyByRecreation(next, steps[1..], t, cutoff);
      }
    }
  }

  /** After a touch stamped at or after a cutoff, and any run of steps, deletions included: the thread
      was claimable for that cutoff at some moment exactly when a step recreated its row below it. */
  lemma TouchedIsClaimableExactly(s: State, t: ThreadId, stamp: Time, now: Time, steps: seq<Step>, cutoff: Time)
    requires t != "" && !TouchRefused(s.rows, t, now) && cutoff <= stamp
    ensures var touched := Apply(s, Touch(t, stamp, now));
      EverClaimable(touched, steps, t, cutoff) <==> SomeRecreation(touched, steps, t, cutoff)
  {
    ClaimableExactlyByRecreation(Apply(s, Touch(t, stamp, now)), steps, t, cutoff);
  }

  lemma {:induction false} NotExposedAfterwards(s: State, steps: seq<Step>, t: ThreadId, cutoff: Time)
    requires !Exposed(s, t, cutoff) && !SomeRecreation(s, steps, t, cutoff)
    ensures !Exposed(Exec(s, steps), t, cutoff)
    decreases |steps|
  {
    if steps != [] {
      ExposedExactlyByRecreation(s, steps[0], t, cutoff);
      NotExposedAfterwards(Apply(s, steps[0]), steps[1..], t, cutoff);
    }
  }

  /** Touches stamped with the present never recreate below the cutoff, so only backfill could. */
  ghost predicate TouchedInThePresent(steps: seq<Step>, cutoff: Time) {
    forall step :: step in steps && step.Touch? ==> step.stamp >= cutoff
  }

  /** No write of a batch that holds `t` with a checkpoint below the cutoff finds its row missing. */
  ghost predicate NoStaleWrite(s: State, steps: seq<Step>, t: ThreadId, cutoff: Time)
    decreases |steps|
  {
    steps == [] ||
    ((steps[0].BackfillWrite? ==> !Recreates(s, steps[0], t, cutoff))
     && NoStaleWrite(Apply(s, steps[0]), steps[1..], t, cutoff))
  }

  lemma {:induction false} OnlyStaleWritesRecreate(s: State, steps: seq<Step>, t: ThreadId, cutoff: Time)
    requires TouchedInThePresent(steps, cutoff)
    ensures SomeRecreation(s, steps, t, cutoff) <==> !NoStaleWrite(s, steps, t, cutoff)
    decreases |steps|
  {
    if steps != [] {
      assert steps[0] in steps && forall step :: step in steps[1..] ==> step in steps;
      OnlyStaleWritesRecreate(Apply(s, steps[0]), steps[1..], t, cutoff);
    }
  }

  /** A touch keeps the thread from being claimed for its cutoff through any number of deletions and
      later touches, as long as no stale backfill batch is written over a deletion. */
  lemma TouchedIsNeverClaimed(s: State, t: ThreadId, stamp: Time, now: Time,
                              steps: seq<Step>, cutoff: Time, later: Time)
    requires t != "" && !TouchRefused(s.rows, t, now) && cutoff <= stamp
    requires var touched := Apply(s, Touch(t, stamp, now));
      TouchedInThePresent(steps, cutoff) && NoStaleWrite(touched, steps, t, cutoff)
    ensures !ClaimGranted(Exec(Apply(s, Touch(t, stamp, now)), steps).rows, t, cutoff, later)
  {
    var touched := Apply(s, Touch(t, stamp, now));
    OnlyStaleWritesRecreate(touched, steps, t, cutoff);
    NotExposedAfterwards(touched, steps, t, cutoff);
  }

  /** The way round: a batch read before the touch and written after the deletion brings the thread
      back with its old checkpoint time, claimable for the cutoff the touch had passed. */
  lemma StaleBackfillUndoesTheTouch(s: State, t: ThreadId, before: Time, stamp: Time, now: Time, cutoff: Time,
      later: Time)
    requires t != "" && before < cutoff <= stamp
    requires s.rows == map[] && s.checkpoints == map[t := Some(before)] && s.cursor == "" && !s.complete
    ensures var read := Apply(s, BackfillRead(0, 500));
      && !TouchRefused(read.rows, t, now)
      && ClaimGranted(
           Apply(Apply(Apply(read, Touch(t, stamp, now)), Forget(t)), BackfillWrite(0, now)).rows, t, cutoff, later)
  {
    var read := Apply(s, BackfillRead(0, 500));
    var batch := ReadBatch(s, 500);
    assert Missing(s) == {t};
    assert batch != [] && batch[0] in batch && batch[0] == t;
    var deleted := Apply(Apply(read, Touch(t, stamp, now)), Forget(t));
    assert deleted.batches[0] == batch;
    assert Recreates(deleted, BackfillWrite(0, now), t, cutoff);
    RecreatedIsClaimable(deleted, BackfillWrite(0, now), t, cutoff, later);
  }

  // ---- a claim keeps touches away ----------------------------------------------------

  /** The guards of the steps that end job `a`'s unexpired-dated claim on `t`. */
  ghost predicate EndsClaim(s: State, step: Step, t: ThreadId, a: JobId)
    requires t in s.rows && s.rows[t].claimExpires.Some?
  {
    var expiry := s.rows[t].claimExpires.value;
    match step
    case Touch(u, _, now) => u == t && expiry <= now
    case Forget(u) => u == t
    case Claim(u, job, cutoff, now) =>
      u == t && job != a && !s.rows[t].protected && s.rows[t].last < cutoff && expiry <= now
    case ReleaseClaim(u, job) => u == t && job == a
    case Acquire(_, now) => LeaseGranted(s.lease, now) && (LeaseHeldBy(s.lease, a) || expiry <= now)
    case _ => false
  }

  /** A claim survives a step exactly when none of those guards holds. */
  lemma ClaimSurvivesExactly(s: State, step: Step, t: ThreadId, a: JobId)
    requires a != "" && t != "" && ClaimedBy(s.rows, t, a) && s.rows[t].claimExpires.Some?
    ensures ClaimedBy(Apply(s, step).rows, t, a) <==> !EndsClaim(s, step, t, a)
    ensures !EndsClaim(s, step, t, a) ==> Apply(s, step).rows[t].claimExpires.Some?
  {
    if step.Acquire? { AcquireEndsExactly(s, step.job, step.now, t, a); }
  }

  lemma AcquireEndsExactly(s: State, job: JobId, now: Time, t: ThreadId, a: JobId)
    requires a != "" && ClaimedBy(s.rows, t, a) && s.rows[t].claimExpires.Some?
    ensures ClaimedBy(Apply(s, Acquire(job, now)).rows, t, a) <==> !EndsClaim(s, Acquire(job, now), t, a)
    ensures !EndsClaim(s, Acquire(job, now), t, a) ==> Apply(s, Acquire(job, now)).rows[t] == s.rows[t]
  {
  }

  /** The job's claim and lease as last renewed: at `claimed` and at `leased`. */
  ghost predicate Held(s: State, t: ThreadId, a: JobId, claimed: Time, leased: Time) {
    && ClaimedBy(s.rows, t, a) && s.rows[t].claimExpires == Some(claimed + THREAD_CLAIM_SECONDS)
    && s.lease == Some(Lease(a, Some(leased + JOB_LEASE_SECONDS)))
  }

  function ClaimedAfter(step: Step, t: ThreadId, a: JobId, claimed: Time): Time {
    if step.RenewClaim? && step.thread == t && step.job == a then step.now else claimed
  }

  function LeasedAfter(step: Step, a: JobId, leased: Time): Time {
    if step.RenewLease? && step.job == a then step.now else leased
  }

  /** The schedule alone: the job has not released and nobody has deleted the row yet, whoever touches or claims the
      thread reads a clock within 600 seconds of the last claim renewal, and whoever wants the lease
      one within 600 seconds of the last lease renewal. */
  predicate Punctual(steps: seq<Step>, t: ThreadId, a: JobId, claimed: Time, leased: Time)
    decreases |steps|
  {
    steps == [] ||
    var step := steps[0];
    && step != Forget(t) && step != ReleaseClaim(t, a) && step != ReleaseLease(a)
    && ((step.Touch? || step.Claim?) && step.thread == t ==> step.now < claimed + THREAD_CLAIM_SECONDS)
    && (step.Acquire? ==> step.now < leased + JOB_LEASE_SECONDS)
    && Punctual(steps[1..], t, a, ClaimedAfter(step, t, a, claimed), LeasedAfter(step, a, leased))
  }

  lemma PunctualStepHolds(s: State, step: Step, t: ThreadId, a: JobId, claimed: Time, leased: Time)
    requires a != "" && t != "" && Held(s, t, a, claimed, leased) && Punctual([step], t, a, claimed, leased)
    ensures Held(Apply(s, step), t, a, ClaimedAfter(step, t, a, claimed), LeasedAfter(step, a, leased))
  {
    if step.Acquire? { UnexpiredLeaseIsExclusive(s, a, step.job, step.now); }
    ClaimSurvivesExactly(s, step, t, a);
  }

  /** From a granted claim on, while the renewals come in time: the claim and the lease stay the job's,
      and every touch of the thread, every claim of it and every attempt at the lease is refused. */
  lemma {:induction false} ClaimExcludesForeground(s: State, steps: seq<Step>, t: ThreadId, a: JobId,
                                                   claimed: Time, leased: Time, i: nat)
    requires a != "" && t != "" && Held(s, t, a, claimed, leased)
    requires Punctual(steps, t, a, claimed, leased) && i <= |steps|
    ensures var si := Exec(s, steps[..i]);
      && ClaimedBy(si.rows, t, a) && LeaseHeldBy(si.lease, a)
      && (i < |steps| && steps[i].Touch? && steps[i].thread == t ==> TouchRefused(si.rows, t, steps[i].now))
      && (i < |steps| && steps[i].Claim? && steps[i].thread == t ==>
            !ClaimGranted(si.rows, t, steps[i].cutoff, steps[i].now))
      && (i < |steps| && steps[i].Acquire? ==> !LeaseGranted(si.lease, steps[i].now))
    decreases |steps|
  {
    if i > 0 {
      var step, rest := steps[0], steps[1..];
      assert [step][1..] == [];
      PunctualStepHolds(s, step, t, a, claimed, leased);
      ClaimExcludesForeground(Apply(s, step), rest, t, a, ClaimedAfter(step, t, a, claimed),
        LeasedAfter(step, a, leased), i - 1);
      assert steps[..i][0] == steps[0] && steps[..i][1..] == rest[..i - 1];
    }
  }

  /** A claim granted to the lease holder is such a starting point, and any granted claim came after no touch at or
      past its cutoff. */
  lemma ClaimStartsExclusion(s: State, t: ThreadId, a: JobId, cutoff: Time, now: Time, leased: Time)
    requires ClaimGranted(s.rows, t, cutoff, now)
    ensures ClaimedBy(Apply(s, Claim(t, a, cutoff, now)).rows, t, a)
    ensures Apply(s, Claim(t, a, cutoff, now)).rows[t].claimExpires == Some(now + THREAD_CLAIM_SECONDS)
    ensures s.lease == Some(Lease(a, Some(leased + JOB_LEASE_SECONDS))) ==>
              Held(Apply(s, Claim(t, a, cutoff, now)), t, a, now, leased)
    ensures s.rows[t].last < cutoff
    ensures forall stamp, at :: !TouchRefused(s.rows, t, at) && stamp >= cutoff && t != "" ==>
              !ClaimGranted(Apply(s, Touch(t, stamp, at)).rows, t, cutoff, now)
  {
  }

  /** Keeping only the claim unexpired is not enough: when the job's lease has lapsed, a
      takeover clears the unexpired claim, and a touch then succeeds under the running delete. */
  lemma TakeoverUncoversClaimedThread(s: State, t: ThreadId, a: JobId, b: JobId, now: Time)
    requires a != "" && t != "" && ClaimedBy(s.rows, t, a)
    requires s.rows[t].claimExpires.Some? && s.rows[t].claimExpires.value > now
    requires LeaseHeldBy(s.lease, a) && LeaseGranted(s.lease, now)
    ensures TouchRefused(s.rows, t, now)
    ensures !TouchRefused(Apply(s, Acquire(b, now)).rows, t, now)
  {
  }

  // ---- lease fencing ---------------------------------------------------------------------

  ghost predicate NeverAcquires(steps: seq<Step>, job: JobId) {
    forall step :: step in steps ==> !(step.Acquire? && step.job == job)
  }

  /** What a takeover leaves behind: the new owner, the old run abandoned in place with its
      own error kept, and no claim of the old owner. */
  lemma TakeoverFences(s: State, a: JobId, b: JobId, now: Time)
    requires a != "" && a != b && LeaseHeldBy(s.lease, a) && LeaseGranted(s.lease, now)
    ensures var s' := Apply(s, Acquire(b, now));
      && LeaseHeldBy(s'.lease, b) && !LeaseGranted(s'.lease, now)
      && (forall t :: !ClaimedBy(s'.rows, t, a))
      && (a in s.runs && Unfinished(s.runs[a]) ==>
            a in s'.runs && s'.runs[a].status == Abandoned && s'.runs[a].current == None
            && s'.runs[a].completedAt == Some(now) && s'.runs[a].deleted == s.runs[a].deleted
            && (s.runs[a].error.Some? ==> s'.runs[a].error == s.runs[a].error))
      && (a in s.runs && !Unfinished(s.runs[a]) ==> a in s'.runs && s'.runs[a] == s.runs[a])
      && (forall j :: j in s.runs && j != a ==> j in s'.runs && s'.runs[j] == s.runs[j])
      && s'.rows.Keys == s.rows.Keys
      && (forall t :: t in s.rows ==>
            (s'.rows[t].last == s.rows[t].last && s'.rows[t].protected == s.rows[t].protected))
  {
  }

  lemma FencedStep(s: State, step: Step, a: JobId)
    requires !LeaseHeldBy(s.lease, a) && !(step.Acquire? && step.job == a)
    ensures !LeaseHeldBy(Apply(s, step).lease, a)
    ensures a in s.runs && s.runs[a].status == Abandoned ==>
              a in Apply(s, step).runs && Apply(s, step).runs[a] == s.runs[a]
  {
  }

  /** Once displaced, and job ids acquiring once: the old job never owns the lease again, its
      renewals fail and its release changes nothing, and its abandoned run row never changes,
      whatever it or anyone else does. */
  lemma {:induction false} DisplacedJobIsFenced(s: State, steps: seq<Step>, a: JobId, now: Time)
    requires !LeaseHeldBy(s.lease, a) && NeverAcquires(steps, a)
    ensures var s' := Exec(s, steps);
      && !LeaseHeldBy(s'.lease, a)
      && Apply(s', RenewLease(a, now)) == s'
      && Apply(s', ReleaseLease(a)) == s'
      && (a in s.runs && s.runs[a].status == Abandoned ==> a in s'.runs && s'.runs[a] == s.runs[a])
    decreases |steps|
  {
    if steps != [] {
      assert !(steps[0].Acquire? && steps[0].job == a);
      FencedStep(s, steps[0], a);
      DisplacedJobIsFenced(Apply(s, steps[0]), steps[1..], a, now);
    }
  }

  /** The run row is fenced exactly when it was pending or running at the takeover (or already
      abandoned): otherwise the next status write of the displaced job still lands. */
  lemma RunRowFencedExactly(s: State, a: JobId, b: JobId, now: Time, run: Run)
    requires a != "" && a != b && LeaseHeldBy(s.lease, a) && LeaseGranted(s.lease, now) && a in s.runs
    requires run != s.runs[a]
    ensures var s' := Apply(s, Acquire(b, now));
      Apply(s', UpdateRun(a, run)).runs[a] == s'.runs[a]
      <==> Unfinished(s.runs[a]) || s.runs[a].status == Abandoned
  {
  }

  /** A job displaced before it inserted its run row is not fenced on that row. */
  lemma MissingRunRowIsNotFenced(s: State, a: JobId, b: JobId, now: Time, first: Run, next: Run)
    requires a != "" && a != b && LeaseHeldBy(s.lease, a) && LeaseGranted(s.lease, now)
    requires a !in s.runs && first.status == Pending
    ensures var s' := Exec(Apply(s, Acquire(b, now)), [InsertRun(a, first), UpdateRun(a, next)]);
      a in s'.runs && s'.runs[a] == next
  {
    var s1 := Apply(s, Acquire(b, now));
    assert s1.runs == s.runs;
    var s2 := Apply(s1, InsertRun(a, first));
    var s3 := Apply(s2, UpdateRun(a, next));
    var steps := [InsertRun(a, first), UpdateRun(a, next)];
    assert steps[1..] == [UpdateRun(a, next)] && steps[1..][1..] == [];
    assert Exec(s2, steps[1..]) == Exec(s3, []);
  }

  /** At most one job runs under a lease: while it is unexpired nobody else acquires it. */
  lemma UnexpiredLeaseIsExclusive(s: State, a: JobId, b: JobId, now: Time)
    requires LeaseHeldBy(s.lease, a) && s.lease.value.expires.Some? && s.lease.value.expires.value > now
    ensures Apply(s, Acquire(b, now)) == s
  {
  }

  // ---- backfill -------------------------------------------------------------------------------

  /** Every checkpointed thread up to `bound` has an activity row or waits in `batch`. */
  ghost predicate CoveredUpTo(s: State, bound: ThreadId, batch: Batch) {
    forall t :: t in s.checkpoints && t != "" && (t == bound || TextLess(t, bound)) ==>
      t in s.rows || t in batch
  }

  ghost predicate Covered(s: State, batch: Batch) {
    forall t :: t in s.checkpoints && t != "" ==> t in s.rows || t in batch
  }

  ghost predicate BatchSound(s: State, batch: Batch) {
    if batch == [] then Covered(s, []) else CoveredUpTo(s, batch[|batch| - 1], batch)
  }

  /** What each backfill call in flight still guarantees, and what the cursor and the
      completion flag mean. The empty id is never after the initial cursor. */
  ghost predicate BackfillSound(s: State) {
    && CoveredUpTo(s, s.cursor, [])
    && (s.complete ==> Covered(s, []))
    && (forall w :: w in s.batches ==> BatchSound(s, s.batches[w]))
  }

  ghost predicate NoForgets(steps: seq<Step>) {
    forall step :: step in steps ==> !step.Forget?
  }

  lemma RowsOnlyGrow(s: State, step: Step)
    requires !step.Forget?
    ensures s.rows.Keys <= Apply(s, step).rows.Keys
    ensures Apply(s, step).checkpoints == s.checkpoints
  {
  }

  /** A batch covers everything up to its last id, and an empty batch means nothing is missing. */
  lemma BatchCovers(s: State, limit: int, t: ThreadId)
    requires CoveredUpTo(s, s.cursor, []) && t in s.checkpoints && t != ""
    ensures BatchSoundAt(s, ReadBatch(s, limit), t)
  {
    TextTrichotomy(s.cursor, t);
    if t !in s.rows {
      assert t in Missing(s);
      MissingIsReadOrLater(s, limit, t);
    }
  }

  /** A missing thread is in the batch or after all of it. */
  lemma MissingIsReadOrLater(s: State, limit: int, t: ThreadId)
    requires t in Missing(s)
    ensures var batch := ReadBatch(s, limit);
      && batch != []
      && (t in batch || (t != batch[|batch| - 1] && !TextLess(t, batch[|batch| - 1])))
  {
    var batch := ReadBatch(s, limit);
    if t !in batch { TextAsymmetric(batch[|batch| - 1], t); }
  }

  lemma NewBatchSound(s: State, limit: int)
    requires CoveredUpTo(s, s.cursor, [])
    ensures BatchSound(s, ReadBatch(s, limit))
  {
    forall t | t in s.checkpoints && t != "" ensures BatchSoundAt(s, ReadBatch(s, limit), t) {
      BatchCovers(s, limit, t);
    }
    SoundEverywhere(s, ReadBatch(s, limit));
  }

  /** What a sound batch says of one thread. */
  ghost predicate BatchSoundAt(s: State, batch: Batch, t: ThreadId) {
    if batch == [] then t in s.rows
    else t == batch[|batch| - 1] || TextLess(t, batch[|batch| - 1]) ==> t in s.rows || t in batch
  }

  lemma SoundEverywhere(s: State, batch: Batch)
    requires forall t :: t in s.checkpoints && t != "" ==> BatchSoundAt(s, batch, t)
    ensures BatchSound(s, batch)
  {
  }

  /** Coverage looks only at rows and checkpoints. */
  lemma SameCoverage(s: State, s': State, batch: Batch)
    requires s'.rows == s.rows && s'.checkpoints == s.checkpoints
    ensures BatchSound(s, batch) <==> BatchSound(s', batch)
    ensures forall bound :: CoveredUpTo(s, bound, []) <==> CoveredUpTo(s', bound, [])
    ensures Covered(s, []) <==> Covered(s', [])
  {
  }

  lemma ReadKeepsSound(s: State, worker: int, limit: int)
    requires BackfillSound(s)
    ensures BackfillSound(Apply(s, BackfillRead(worker, limit)))
  {
    if !s.complete {
      var batch := ReadBatch(s, limit);
      NewBatchSound(s, limit);
      AddBatch(s, worker, batch);
    }
  }

  lemma AddBatch(s: State, worker: int, batch: Batch)
    requires BackfillSound(s) && BatchSound(s, batch)
    ensures BackfillSound(s.(batches := s.batches[worker := batch]))
  {
    var s' := s.(batches := s.batches[worker := batch]);
    SameCoverage(s, s', batch);
    forall w | w in s'.batches ensures BatchSound(s', s'.batches[w]) {
      if w != worker {
        assert BatchSound(s, s.batches[w]);
        SameCoverage(s, s', s.batches[w]);
      }
    }
  }

  /** The write that finds its batch empty: nothing is missing. */
  lemma LastWriteKeepsSound(s: State, worker: int, now: Time)
    requires BackfillSound(s) && worker in s.batches && s.batches[worker] == []
    ensures BackfillSound(Apply(s, BackfillWrite(worker, now)))
  {
    assert BatchSound(s, s.batches[worker]);
    assert forall t: ThreadId :: !TextLess(t, "");
  }

  lemma FullWriteKeepsSound(s: State, worker: int, now: Time)
    requires BackfillSound(s) && worker in s.batches && s.batches[worker] != []
    ensures BackfillSound(Apply(s, BackfillWrite(worker, now)))
  {
    assert BatchSound(s, s.batches[worker]);
  }

  lemma WriteKeepsSound(s: State, worker: int, now: Time)
    requires BackfillSound(s)
    ensures BackfillSound(Apply(s, BackfillWrite(worker, now)))
  {
    if worker in s.batches {
      if s.batches[worker] == [] {
        LastWriteKeepsSound(s, worker, now);
      } else {
        FullWriteKeepsSound(s, worker, now);
      }
    }
  }

  lemma OtherStepKeepsSound(s: State, step: Step)
    requires BackfillSound(s) && !step.Forget? && !step.BackfillRead? && !step.BackfillWrite?
    ensures BackfillSound(Apply(s, step))
  {
    RowsOnlyGrow(s, step);
  }

  lemma {:induction false} BackfillStaysSound(s: State, steps: seq<Step>)
    requires BackfillSound(s) && NoForgets(steps)
    ensures BackfillSound(Exec(s, steps))
    decreases |steps|
  {
    if steps != [] {
      assert !steps[0].Forget?;
      if steps[0].BackfillRead? {
        ReadKeepsSound(s, steps[0].worker, steps[0].limit);
      } else if steps[0].BackfillWrite? {
        WriteKeepsSound(s, steps[0].worker, steps[0].now);
      } else {
        OtherStepKeepsSound(s, steps[0]);
      }
      BackfillStaysSound(Apply(s, steps[0]), steps[1..]);
    }
  }

  /** From a fresh table, in any interleaving of overlapping backfill calls with everything
      but deletion: when backfill reports completion, every checkpointed thread is indexed. */
  lemma CompletedBackfillIndexesEveryThread(s: State, steps: seq<Step>, t: ThreadId)
    requires s.cursor == "" && !s.complete && s.batches == map[] && NoForgets(steps)
    requires Exec(s, steps).complete && t in Exec(s, steps).checkpoints && t != ""
    ensures t in Exec(s, steps).rows
  {
    assert forall u: ThreadId :: !TextLess(u, "");
    BackfillStaysSound(s, steps);
  }

  /** The one id completion says nothing about is the empty one: it never follows the cursor. */
  lemma EmptyIdIsNeverBackfilled(s: State, limit: int)
    ensures "" !in Missing(s) && "" !in ReadBatch(s, limit)
  {
    assert !TextLess(s.cursor, "");
  }

  /** One whole call: read, then write. */
  ghost function BackfillCall(s: State, limit: int, now: Time): State {
    Apply(Apply(s, BackfillRead(0, limit)), BackfillWrite(0, now))
  }

  ghost function RepeatBackfill(s: State, limit: int, now: Time, calls: nat): State
    decreases calls
  {
    if calls == 0 then s else RepeatBackfill(BackfillCall(s, limit, now), limit, now, calls - 1)
  }

  /** Each call either completes the backfill or indexes at least one more thread. */
  lemma CallMakesProgress(s: State, limit: int, now: Time)
    requires !s.complete && 0 !in s.batches
    ensures var s' := BackfillCall(s, limit, now);
      && 0 !in s'.batches
      && (s'.complete || Missing(s') < Missing(s))
  {
    var batch := ReadBatch(s, limit);
    var s' := BackfillCall(s, limit, now);
    if batch != [] {
      var last := batch[|batch| - 1];
      assert last in Missing(s) && last !in Missing(s');
      assert TextLess(s.cursor, last);
      TextTrichotomy(last, last);
      forall t | t in Missing(s') ensures t in Missing(s) {
        TextTransitive(s.cursor, last, t);
      }
    }
  }

  lemma SmallerSet<T>(a: set<T>, b: set<T>)
    requires a < b
    ensures |a| < |b|
  {
    var x :| x in b && x !in a;
    assert a <= b - {x};
    SubsetSize(a, b - {x});
  }

  lemma FewerMissing(s: State, limit: int, now: Time)
    requires !s.complete && 0 !in s.batches
    ensures var s' := BackfillCall(s, limit, now);
      0 !in s'.batches && (s'.complete || |Missing(s')| < |Missing(s)|)
  {
    CallMakesProgress(s, limit, now);
    var s' := BackfillCall(s, limit, now);
    if !s'.complete { SmallerSet(Missing(s'), Missing(s)); }
  }

  lemma {:induction false} CompleteIsStable(s: State, limit: int, now: Time, calls: nat)
    requires s.complete && 0 !in s.batches
    ensures RepeatBackfill(s, limit, now, calls).complete
  {
    if calls > 0 { CompleteIsStable(BackfillCall(s, limit, now), limit, now, calls - 1); }
  }

  /** What is still to be shown for a number of calls when at most `left` threads are missing. */
  ghost predicate WillComplete(s: State, left: nat, calls: nat) {
    0 !in s.batches && (s.complete || (|Missing(s)| <= left && left < calls))
  }

  /** One call on: one call fewer to go, and one thread fewer missing unless it completed. */
  lemma OneCallOn(s: State, limit: int, now: Time, left: nat, calls: nat)
    requires WillComplete(s, left, calls) && !s.complete
    ensures var s' := BackfillCall(s, limit, now); s'.complete || left > 0
    ensures WillComplete(BackfillCall(s, limit, now), if left > 0 then left - 1 else 0, calls - 1)
  {
    FewerMissing(s, limit, now);
  }

  lemma {:induction false} CallsComplete(s: State, limit: int, now: Time, left: nat, calls: nat)
    requires WillComplete(s, left, calls)
    ensures RepeatBackfill(s, limit, now, calls).complete
    decreases calls
  {
    if s.complete {
      CompleteIsStable(s, limit, now, calls);
    } else {
      OneCallOn(s, limit, now, left, calls);
      CallsComplete(BackfillCall(s, limit, now), limit, now, if left > 0 then left - 1 else 0, calls - 1);
    }
  }

  /** Repeated calls over an unchanging checkpoint table complete, within one call more than
      there are unindexed threads. */
  lemma RepeatedBackfillCompletes(s: State, limit: int, now: Time, calls: nat)
    requires 0 !in s.batches && (s.complete || calls > |Missing(s)|)
    ensures RepeatBackfill(s, limit, now, calls).complete
  {
    CallsComplete(s, limit, now, if s.complete then 0 else |Missing(s)|, calls);
  }

  // ---- calls that overlap ----------------------------------------------------------------------

  /** Checkpointed threads without an activity row; backfill never sees the empty id. */
  ghost function Unindexed(s: State): set<ThreadId> {
    set t | t in s.checkpoints && t != "" && t !in s.rows
  }

  /** What goes on around a call of `worker`: anything but deletions and that call itself. */
  ghost predicate Around(steps: seq<Step>, worker: int) {
    forall step :: step in steps ==>
      !step.Forget? && !(step.BackfillRead? && step.worker == worker) && !(step.BackfillWrite? && step.worker == worker)
  }

  /** Nothing is unindexed again, nothing uncompletes, and the call's batch stays as it was read. */
  lemma AroundStep(s: State, step: Step, worker: int)
    requires Around([step], worker)
    ensures var t := Apply(s, step);
      && s.rows.Keys <= t.rows.Keys && t.checkpoints == s.checkpoints
      && (s.complete ==> t.complete)
      && (worker in t.batches <==> worker in s.batches)
      && (worker in s.batches ==> t.batches[worker] == s.batches[worker])
  {
    assert step in [step];
  }

  lemma {:induction false} AroundRun(s: State, steps: seq<Step>, worker: int)
    requires Around(steps, worker)
    ensures var t := Exec(s, steps);
      && s.rows.Keys <= t.rows.Keys && t.checkpoints == s.checkpoints
      && (s.complete ==> t.complete)
      && (worker in t.batches <==> worker in s.batches)
      && (worker in s.batches ==> t.batches[worker] == s.batches[worker])
    decreases |steps|
  {
    if steps != [] {
      assert steps[0] in steps && forall step :: step in steps[1..] ==> step in steps;
      AroundStep(s, steps[0], worker);
      AroundRun(Apply(s, steps[0]), steps[1..], worker);
    }
  }

  /** A call of `worker` with `during` in the middle of it. */
  ghost function OverlappedCall(s: State, worker: int, limit: int, during: seq<Step>, now: Time): State {
    Apply(Exec(Apply(s, BackfillRead(worker, limit)), during), BackfillWrite(worker, now))
  }

  lemma ReadHolds(s: State, worker: int, limit: int)
    requires !s.complete
    ensures var r := Apply(s, BackfillRead(worker, limit));
      && worker in r.batches && r.batches[worker] == ReadBatch(s, limit)
      && r.rows == s.rows && r.checkpoints == s.checkpoints
  {
  }

  lemma WriteIndexes(s: State, worker: int, now: Time)
    requires worker in s.batches
    ensures var t := Apply(s, BackfillWrite(worker, now));
      && s.rows.Keys <= t.rows.Keys && t.checkpoints == s.checkpoints && worker !in t.batches
      && (if s.batches[worker] == [] then t.complete else forall x :: x in s.batches[worker] ==> x in t.rows)
      && (s.complete ==> t.complete)
  {
  }

  /** However calls overlap, with whatever but deletions in between: a call ends with the backfill
      complete, or with strictly fewer threads unindexed than when it began. */
  lemma OverlappedCallMakesProgress(s: State, worker: int, limit: int, during: seq<Step>, now: Time)
    requires !s.complete && Around(during, worker)
    ensures var t := OverlappedCall(s, worker, limit, during, now);
      && worker !in t.batches && (t.complete || Unindexed(t) < Unindexed(s))
  {
    var read := Apply(s, BackfillRead(worker, limit));
    var batch := ReadBatch(s, limit);
    ReadHolds(s, worker, limit);
    AroundRun(read, during, worker);
    var late := Exec(read, during);
    WriteIndexes(late, worker, now);
    if batch != [] { BatchWasUnindexed(s, limit, Apply(late, BackfillWrite(worker, now))); }
  }

  lemma BatchWasUnindexed(s: State, limit: int, t: State)
    requires ReadBatch(s, limit) != [] && s.rows.Keys <= t.rows.Keys && t.checkpoints == s.checkpoints
    requires forall x :: x in ReadBatch(s, limit) ==> x in t.rows
    ensures Unindexed(t) < Unindexed(s)
  {
    var x := ReadBatch(s, limit)[0];
    assert x in ReadBatch(s, limit) && x in Missing(s);
    assert x in Unindexed(s) && x !in Unindexed(t);
  }

  /** One call of a worker: what goes on before it and in the middle of it. */
  datatype Call = Call(before: seq<Step>, during: seq<Step>, limit: int, now: Time)

  ghost function RunCall(s: State, worker: int, call: Call): State {
    OverlappedCall(Exec(s, call.before), worker, call.limit, call.during, call.now)
  }

  ghost function RunCalls(s: State, worker: int, calls: seq<Call>): State
    decreases |calls|
  {
    if calls == [] then s else RunCalls(RunCall(s, worker, calls[0]), worker, calls[1..])
  }

  ghost predicate Undeleted(calls: seq<Call>, worker: int) {
    forall call :: call in calls ==> Around(call.before, worker) && Around(call.during, worker)
  }

  lemma CompleteStays(s: State, worker: int, limit: int, during: seq<Step>, now: Time)
    requires s.complete && worker !in s.batches && Around(during, worker)
    ensures var t := OverlappedCall(s, worker, limit, during, now); t.complete && worker !in t.batches
  {
    AroundRun(s, during, worker);
    assert Apply(s, BackfillRead(worker, limit)) == s;
  }

  /** One call on: complete, or fewer threads left than before it. */
  lemma OneOverlappedCallOn(s: State, worker: int, call: Call, left: nat) returns (t: State)
    requires worker !in s.batches && Around(call.before, worker) && Around(call.during, worker)
    requires s.complete || |Unindexed(s)| <= left
    ensures t == RunCall(s, worker, call) && worker !in t.batches
    ensures s.complete ==> t.complete
    ensures t.complete || (left > 0 && |Unindexed(t)| <= left - 1)
  {
    var begun := Exec(s, call.before);
    AroundRun(s, call.before, worker);
    t := RunCall(s, worker, call);
    if begun.complete {
      CompleteStays(begun, worker, call.limit, call.during, call.now);
    } else {
      OverlappedCallMakesProgress(begun, worker, call.limit, call.during, call.now);
      assert Unindexed(begun) <= Unindexed(s);
      SubsetSize(Unindexed(begun), Unindexed(s));
      if !t.complete { SmallerSet(Unindexed(t), Unindexed(begun)); }
    }
  }

  lemma {:induction false} CallsFinish(s: State, worker: int, calls: seq<Call>, left: nat)
    requires worker !in s.batches && Undeleted(calls, worker)
    requires s.complete || (|Unindexed(s)| <= left && left < |calls|)
    ensures RunCalls(s, worker, calls).complete
    decreases |calls|
  {
    if calls != [] {
      assert calls[0] in calls && forall call :: call in calls[1..] ==> call in calls;
      var t := OneOverlappedCallOn(s, worker, calls[0], left);
      CallsFinish(t, worker, calls[1..], if left > 0 then left - 1 else 0);
    }
  }

  /** One worker's calls complete the backfill within one call more than there are unindexed threads,
      whatever other calls, touches and jobs do before and in the middle of each, deletions apart. */
  lemma OverlappedBackfillCompletes(s: State, worker: int, calls: seq<Call>)
    requires worker !in s.batches && Undeleted(calls, worker) && |calls| > |Unindexed(s)|
    ensures RunCalls(s, worker, calls).complete
  {
    CallsFinish(s, worker, calls, |Unindexed(s)|);
  }

  // ---- protected threads -------------------------------------------------------------------------

  lemma ProtectionKept(s: State, step: Step, t: ThreadId)
    requires t in s.rows && s.rows[t].protected && step != Forget(t)
    ensures t in Apply(s, step).rows && Apply(s, step).rows[t].protected
  {
  }

  /** A thread whose checkpoint time was unreadable is protected from cleanup for good: the flag
      survives every step but deletion, and no listing or claim ever selects the row. */
  lemma {:induction false} ProtectionLasts(s: State, steps: seq<Step>, t: ThreadId, cutoff: Time, now: Time)
    requires t in s.rows && s.rows[t].protected && !Forgotten(steps, t)
    ensures var s' := Exec(s, steps);
      && t in s'.rows && s'.rows[t].protected
      && !Eligible(s'.rows[t], cutoff, now) && !ClaimGranted(s'.rows, t, cutoff, now)
    decreases |steps|
  {
    if steps != [] {
      assert steps[0] != Forget(t);
      ProtectionKept(s, steps[0], t);
      ProtectionLasts(Apply(s, steps[0]), steps[1..], t, cutoff, now);
    }
  }

  /** Backfill protects exactly the unreadable threads it inserts, dates the others by their
      checkpoint, and overwrites no row that exists. */
  lemma BackfillWritesExactly(s: State, limit: int, now: Time, t: ThreadId)
    requires !s.complete && 0 !in s.batches
    requires t in BackfillCall(s, limit, now).rows
    ensures var row := BackfillCall(s, limit, now).rows[t];
      if t in s.rows then row == s.rows[t]
      else t in s.checkpoints && row.claimedBy == None
           && (row.protected <==> s.checkpoints[t].None?)
           && row.last == (if s.checkpoints[t].Some? then s.checkpoints[t].value else now)
  {
  }
}
