/** What a deletion job may do, read off its own history: which of its acts fit after the acts before, what
    they add up to, and why it ended. `_execute_run` is held to this in CleanupRun. */
module CleanupLog {
  import opened Common
  import opened CleanupState
  import opened CleanupStore

  datatype Counts = Counts(scanned: nat, deleted: nat, skipped: nat, failed: nat) {
    function Handled(): nat { deleted + skipped + failed }
  }

  function Zero(): Counts { Counts(0, 0, 0, 0) }

  datatype Settings = Settings(batchSize: int, protectScheduled: bool, stopOnNewActivity: bool)

  /** What a run was asked to do. */
  datatype Plan = Plan(job: JobId, cutoff: Time, limit: nat, dryRun: bool, settings: Settings)

  function RunRow(status: Status, counts: Counts, current: Option<ThreadId>, limit: nat): Run {
    Run(status, None, counts.scanned, counts.deleted, counts.skipped, counts.failed, current, limit, None)
  }

  // ---- what acts add up to ---------------------------------------------------------------------

  /** `listed` are the keys of all pages; `eligible` counts a dry run's finds, `batch` the claims since the
      lease was last renewed; `published` is the run row's last counts. */
  datatype Ledger = Ledger(counts: Counts, listed: seq<Key>, eligible: nat, batch: nat, refused: bool,
                           cancelled: bool, published: Counts)

  function Blank(): Ledger { Ledger(Zero(), [], 0, 0, false, false, Zero()) }

  function Skip(l: Ledger): Ledger { l.(counts := l.counts.(skipped := l.counts.skipped + 1)) }

  /** A claim that won the thread when it was made. */
  predicate Won(a: Act) {
    a.Did? && a.step.Claim? && ClaimGranted(a.met.rows, a.step.thread, a.step.cutoff, a.step.now)
  }

  /** The last question about a thread, answered no. */
  predicate Cleared(plan: Plan, a: Act) {
    if plan.settings.protectScheduled then a.SawScheduled? && !a.yes else a.SawRunning? && !a.yes
  }

  /** An act that leaves its candidate alone. */
  predicate Passes(plan: Plan, a: Act) {
    || (a.SawRunning? && a.yes)
    || (a.SawScheduled? && a.yes)
    || (plan.dryRun && Cleared(plan, a))
    || (a.Did? && a.step.Claim? && !Won(a))
  }

  function Book(plan: Plan, l: Ledger, a: Act): Ledger {
    if Passes(plan, a) then Skip(l).(eligible := if Cleared(plan, a) then l.eligible + 1 else l.eligible)
    else
      match a
      case Paged(page) => l.(listed := l.listed + page, counts := l.counts.(scanned := l.counts.scanned + |page|))
      case Deleted(_, success, cancelled) =>
        l.(counts := if success then l.counts.(deleted := l.counts.deleted + 1)
                     else l.counts.(failed := l.counts.failed + 1),
           cancelled := l.cancelled || cancelled)
      case Did(Claim(_, _, _, _), _) => l.(batch := l.batch + 1)
      case Did(RenewLease(job, _), met) => l.(batch := 0, refused := l.refused || !LeaseHeldBy(met.lease, job))
      case Did(UpdateRun(_, run), _) => l.(published := Counts(run.scanned, run.deleted, run.skipped, run.failed))
      case _ => l
  }

  function Books(plan: Plan, acts: seq<Act>): Ledger {
    if acts == [] then Blank() else Book(plan, Books(plan, acts[..|acts| - 1]), acts[|acts| - 1])
  }

  function Progress(plan: Plan, l: Ledger): nat { if plan.dryRun then l.eligible else l.counts.deleted }

  // ---- which act fits after which ----------------------------------------------------------------

  predicate Clear(plan: Plan, a: Act) {
    a.Looked? && !a.stopping && !a.lost && !a.raised && !(plan.settings.stopOnNewActivity && a.active)
  }

  /** What the last act leaves to be done at once. */
  predicate Due(plan: Plan, last: Act, a: Act) {
    match last
    case Deleted(t, true, _) => a.Did? && a.step == Forget(t)
    case Deleted(t, false, _) => a.Did? && a.step == ReleaseClaim(t, plan.job)
    case Did(UpdateRun(_, run), _) => run.current.Some? ==> a.Deleted? && a.thread == run.current.value
    case Did(RenewLease(_, _), _) => a.Did? && a.step.UpdateRun?
    case Did(Claim(t, _, _, _), _) => Won(last) ==> a.Did? && a.step.UpdateRun? && a.step.run.current == Some(t)
    case _ => true
  }

  /** Nothing is left to be done at once. */
  predicate Settled(plan: Plan, acts: seq<Act>) {
    acts == [] ||
    var last := acts[|acts| - 1];
    !last.Deleted? && !Won(last) && !(last.Did? && last.step.RenewLease?)
    && (last.Did? && last.step.UpdateRun? ==> last.step.run.current.None?)
  }

  /** The next candidate, in the order of the pages. */
  predicate NextUp(l: Ledger, t: ThreadId) {
    l.counts.Handled() < |l.listed| && l.listed[l.counts.Handled()].thread == t
  }

  /** When an act of the job fits after all its acts so far. */
  predicate Fits(plan: Plan, past: seq<Act>, a: Act) {
    var l := Books(plan, past);
    && (past != [] ==> Due(plan, past[|past| - 1], a))
    && match a
       case Looked(_, lost, _, _) => !l.cancelled && (l.refused ==> lost)
       case Paged(page) =>
         && past != [] && Clear(plan, past[|past| - 1]) && Progress(plan, l) < plan.limit && l.published == l.counts
         && l.counts.Handled() == |l.listed|
       case SawRunning(t, _) =>
         && past != [] && Clear(plan, past[|past| - 1]) && Progress(plan, l) < plan.limit && NextUp(l, t)
         && l.batch < AtLeastOne(plan.settings.batchSize)
       case SawScheduled(t, _) =>
         plan.settings.protectScheduled && past != [] && past[|past| - 1] == SawRunning(t, false)
       case Deleted(t, _, _) =>
         past != [] && past[|past| - 1].Did? && past[|past| - 1].step.UpdateRun?
         && past[|past| - 1].step.run.current == Some(t)
       case Did(Claim(t, job, cutoff, _), _) =>
         && job == plan.job && cutoff == plan.cutoff && !plan.dryRun
         && past != [] && Cleared(plan, past[|past| - 1]) && past[|past| - 1].thread == t
       case Did(Forget(t), _) => past != [] && past[|past| - 1].Deleted?
       case Did(ReleaseClaim(t, job), _) => past != [] && past[|past| - 1].Deleted?
       case Did(RenewLease(job, _), _) => job == plan.job && 0 < l.batch && plan.settings.batchSize <= l.batch
       case Did(UpdateRun(job, run), _) =>
         && job == plan.job && run == RunRow(Running, l.counts, run.current, plan.limit)
         && (run.current.Some? ==> past != [] && Won(past[|past| - 1]))
       case _ => false
  }

  /** Every act fits after those before it. */
  ghost predicate Sound(plan: Plan, acts: seq<Act>) {
    acts == [] ||
    (Sound(plan, acts[..|acts| - 1]) && Fits(plan, acts[..|acts| - 1], acts[|acts| - 1]))
  }

  lemma {:induction false} SoundBefore(plan: Plan, acts: seq<Act>, n: nat)
    requires Sound(plan, acts) && n <= |acts|
    ensures Sound(plan, acts[..n])
    decreases |acts|
  {
    if n < |acts| {
      SoundBefore(plan, acts[..|acts| - 1], n);
      assert acts[..|acts| - 1][..n] == acts[..n];
    } else {
      assert acts[..n] == acts;
    }
  }

  /** Every act fits where it stands. */
  lemma FitsWhereItStands(plan: Plan, acts: seq<Act>, i: nat)
    requires Sound(plan, acts) && i < |acts|
    ensures Fits(plan, acts[..i], acts[i])
    ensures i > 0 ==> acts[..i] != [] && acts[..i][|acts[..i]| - 1] == acts[i - 1] && Due(plan, acts[i - 1], acts[i])
  {
    SoundBefore(plan, acts, i + 1);
    assert acts[..i + 1][..i] == acts[..i];
  }

  // ---- one act more ------------------------------------------------------------------------------------

  /** Sound acts that add up to `l`. */
  ghost predicate Kept(plan: Plan, acts: seq<Act>, l: Ledger) { Sound(plan, acts) && Books(plan, acts) == l }

  function Last(acts: seq<Act>): Option<Act> { if acts == [] then None else Some(acts[|acts| - 1]) }

  lemma OneMore(plan: Plan, acts: seq<Act>, l: Ledger, a: Act)
    requires Kept(plan, acts, l) && Fits(plan, acts, a)
    ensures Kept(plan, acts + [a], Book(plan, l, a)) && Last(acts + [a]) == Some(a)
  {
    assert (acts + [a])[..|acts|] == acts;
  }

  lemma LookOnce(plan: Plan, acts: seq<Act>, l: Ledger, look: Act)
    requires Kept(plan, acts, l) && Settled(plan, acts) && !l.cancelled
    requires look.Looked? && (l.refused ==> look.lost)
    ensures Kept(plan, acts + [look], l) && Last(acts + [look]) == Some(look) && Settled(plan, acts + [look])
  {
    OneMore(plan, acts, l, look);
  }

  lemma TakePage(plan: Plan, acts: seq<Act>, l: Ledger, page: seq<Key>)
    requires Kept(plan, acts, l) && acts != [] && Clear(plan, acts[|acts| - 1]) && Progress(plan, l) < plan.limit
    requires l.published == l.counts && l.counts.Handled() == |l.listed|
    ensures Kept(plan, acts + [Paged(page)],
                 l.(listed := l.listed + page, counts := l.counts.(scanned := l.counts.scanned + |page|)))
    ensures Settled(plan, acts + [Paged(page)]) && Last(acts + [Paged(page)]) == Some(Paged(page))
  {
    OneMore(plan, acts, l, Paged(page));
  }

  lemma AskFirst(plan: Plan, acts: seq<Act>, l: Ledger, t: ThreadId, yes: bool)
    requires Kept(plan, acts, l) && acts != [] && Clear(plan, acts[|acts| - 1]) && Progress(plan, l) < plan.limit
    requires NextUp(l, t) && l.batch < AtLeastOne(plan.settings.batchSize)
    ensures var a := SawRunning(t, yes);
      Kept(plan, acts + [a], Book(plan, l, a)) && Settled(plan, acts + [a]) && Last(acts + [a]) == Some(a)
  {
    OneMore(plan, acts, l, SawRunning(t, yes));
  }

  lemma AskNext(plan: Plan, acts: seq<Act>, l: Ledger, t: ThreadId, yes: bool)
    requires Kept(plan, acts, l) && Last(acts) == Some(SawRunning(t, false)) && plan.settings.protectScheduled
    ensures var a := SawScheduled(t, yes);
      Kept(plan, acts + [a], Book(plan, l, a)) && Settled(plan, acts + [a]) && Last(acts + [a]) == Some(a)
  {
    OneMore(plan, acts, l, SawScheduled(t, yes));
  }

  lemma ClaimIt(plan: Plan, acts: seq<Act>, l: Ledger, t: ThreadId, now: Time, met: State)
    requires Kept(plan, acts, l) && acts != [] && Cleared(plan, acts[|acts| - 1]) && acts[|acts| - 1].thread == t
    requires !plan.dryRun
    ensures var a := Did(Claim(t, plan.job, plan.cutoff, now), met);
      && Last(acts + [a]) == Some(a)
      && Kept(plan, acts + [a], if Won(a) then l.(batch := l.batch + 1) else Skip(l))
      && (!Won(a) ==> Settled(plan, acts + [a]))
  {
    OneMore(plan, acts, l, Did(Claim(t, plan.job, plan.cutoff, now), met));
  }

  lemma PublishCurrent(plan: Plan, acts: seq<Act>, l: Ledger, met: State)
    requires Kept(plan, acts, l) && acts != [] && Won(acts[|acts| - 1])
    ensures var run := RunRow(Running, l.counts, Some(acts[|acts| - 1].step.thread), plan.limit);
      var a := Did(UpdateRun(plan.job, run), met);
      Kept(plan, acts + [a], l.(published := l.counts)) && Last(acts + [a]) == Some(a)
  {
    OneMore(plan, acts, l,
            Did(UpdateRun(plan.job, RunRow(Running, l.counts, Some(acts[|acts| - 1].step.thread), plan.limit)), met));
  }

  lemma DeleteIt(plan: Plan, acts: seq<Act>, l: Ledger, t: ThreadId, success: bool, cancelled: bool)
    requires Kept(plan, acts, l) && acts != [] && acts[|acts| - 1].Did? && acts[|acts| - 1].step.UpdateRun?
    requires acts[|acts| - 1].step.run.current == Some(t)
    ensures var a := Deleted(t, success, cancelled);
      Kept(plan, acts + [a], Book(plan, l, a)) && Last(acts + [a]) == Some(a)
  {
    OneMore(plan, acts, l, Deleted(t, success, cancelled));
  }

  lemma SettleIt(plan: Plan, acts: seq<Act>, l: Ledger, t: ThreadId, success: bool, cancelled: bool, met: State)
    requires Kept(plan, acts, l) && Last(acts) == Some(Deleted(t, success, cancelled))
    ensures var a := Did(if success then Forget(t) else ReleaseClaim(t, plan.job), met);
      Kept(plan, acts + [a], l) && Settled(plan, acts + [a]) && Last(acts + [a]) == Some(a)
  {
    OneMore(plan, acts, l, Did(if success then Forget(t) else ReleaseClaim(t, plan.job), met));
  }

  lemma RenewIt(plan: Plan, acts: seq<Act>, l: Ledger, now: Time, met: State)
    requires Kept(plan, acts, l) && Settled(plan, acts) && 0 < l.batch && plan.settings.batchSize <= l.batch
    ensures var a := Did(RenewLease(plan.job, now), met);
      && Kept(plan, acts + [a], l.(batch := 0, refused := l.refused || !LeaseHeldBy(met.lease, plan.job)))
      && Last(acts + [a]) == Some(a)
  {
    OneMore(plan, acts, l, Did(RenewLease(plan.job, now), met));
  }

  lemma PublishCounts(plan: Plan, acts: seq<Act>, l: Ledger, met: State)
    requires Kept(plan, acts, l)
    requires Settled(plan, acts) || (acts != [] && acts[|acts| - 1].Did? && acts[|acts| - 1].step.RenewLease?)
    ensures var a := Did(UpdateRun(plan.job, RunRow(Running, l.counts, None, plan.limit)), met);
      && Kept(plan, acts + [a], l.(published := l.counts))
      && Settled(plan, acts + [a]) && Last(acts + [a]) == Some(a)
  {
    OneMore(plan, acts, l, Did(UpdateRun(plan.job, RunRow(Running, l.counts, None, plan.limit)), met));
  }

  // ---- what that means -----------------------------------------------------------------------------

  /** Where the thread of a claim at `i` was asked about. */
  function AskedAt(plan: Plan, i: nat): int { if plan.settings.protectScheduled then i - 2 else i - 1 }

  /** A claim is the job's own, for its cutoff, in no dry run, and for a thread just seen not to run and,
      where scheduled threads are protected, to have no schedule. */
  lemma ClaimsAreChecked(plan: Plan, acts: seq<Act>, i: nat)
    requires Sound(plan, acts) && i < |acts| && acts[i].Did? && acts[i].step.Claim?
    ensures acts[i].step.job == plan.job && acts[i].step.cutoff == plan.cutoff && !plan.dryRun
    ensures AskedAt(plan, i) >= 0 && acts[AskedAt(plan, i)] == SawRunning(acts[i].step.thread, false)
    ensures plan.settings.protectScheduled ==> acts[i - 1] == SawScheduled(acts[i].step.thread, false)
  {
    FitsWhereItStands(plan, acts, i);
    if plan.settings.protectScheduled {
      FitsWhereItStands(plan, acts, i - 1);
      assert acts[..i - 1][i - 2] == acts[i - 2];
    }
  }

  /** No thread is destroyed but under this job's claim: two acts earlier the claim was made, on a row
      unprotected, below the cutoff and free. */
  lemma DeletionsAreClaimed(plan: Plan, acts: seq<Act>, i: nat)
    requires Sound(plan, acts) && i < |acts| && acts[i].Deleted?
    ensures i >= 2 && acts[i - 2].Did? && acts[i - 2].step.Claim? && !plan.dryRun
    ensures var t, claim, rows := acts[i].thread, acts[i - 2].step, acts[i - 2].met.rows;
      && claim.thread == t && claim.job == plan.job && claim.cutoff == plan.cutoff
      && t in rows && !rows[t].protected && rows[t].last < plan.cutoff
      && (rows[t].claimedBy.None? || rows[t].claimExpires.None? || rows[t].claimExpires.value <= claim.now)
  {
    FitsWhereItStands(plan, acts, i);
    FitsWhereItStands(plan, acts, i - 1);
    assert acts[..i - 1][i - 2] == acts[i - 2];
    ClaimsAreChecked(plan, acts, i - 2);
  }

  /** A row is forgotten only right after its thread was deleted, and a claim given up only right after
      the deletion failed. */
  lemma ForgetsFollowDeletions(plan: Plan, acts: seq<Act>, i: nat)
    requires Sound(plan, acts) && i < |acts| && acts[i].Did?
    ensures acts[i].step.Forget? ==>
              i > 0 && acts[i - 1].Deleted? && acts[i - 1].success && acts[i - 1].thread == acts[i].step.thread
    ensures acts[i].step.ReleaseClaim? ==>
              i > 0 && acts[i - 1].Deleted? && !acts[i - 1].success && acts[i - 1].thread == acts[i].step.thread
  {
    FitsWhereItStands(plan, acts, i);
    if i > 0 { assert acts[..i][i - 1] == acts[i - 1]; }
  }

  /** How many acts are of a kind. */
  function Count(acts: seq<Act>, kind: Act -> bool): nat {
    if acts == [] then 0
    else Count(acts[..|acts| - 1], kind) + if kind(acts[|acts| - 1]) then 1 else 0
  }

  predicate Destroyed(a: Act) { a.Deleted? && a.success }
  predicate Spared(a: Act) { a.Deleted? && !a.success }
  predicate Forgot(a: Act) { a.Did? && a.step.Forget? }

  /** The counts are counts of acts. */
  lemma {:induction false} BooksCount(plan: Plan, acts: seq<Act>)
    ensures var counts := Books(plan, acts).counts;
      && counts.deleted == Count(acts, Destroyed) && counts.failed == Count(acts, Spared)
      && counts.skipped == Count(acts, (a: Act) => Passes(plan, a))
      && counts.scanned == |Books(plan, acts).listed|
    decreases |acts|
  {
    if acts != [] { BooksCount(plan, acts[..|acts| - 1]); }
  }

  /** Every deletion that succeeded has had its row forgotten, and nothing else has. */
  lemma {:induction false} ForgetsAreDeletions(plan: Plan, acts: seq<Act>)
    requires Sound(plan, acts)
    ensures Count(acts, Destroyed) ==
            Count(acts, Forgot) + if acts != [] && Destroyed(acts[|acts| - 1]) then 1 else 0
    decreases |acts|
  {
    if acts != [] {
      var n := |acts| - 1;
      SoundBefore(plan, acts, n);
      ForgetsAreDeletions(plan, acts[..n]);
      FitsWhereItStands(plan, acts, n);
      if n > 0 { assert acts[..n][n - 1] == acts[n - 1]; }
    }
  }

  /** A dry run claims, destroys, forgets and releases nothing. */
  lemma DryRunsTouchNothing(plan: Plan, acts: seq<Act>, i: nat)
    requires Sound(plan, acts) && plan.dryRun && i < |acts|
    ensures !acts[i].Deleted?
    ensures acts[i].Did? ==> !acts[i].step.Claim? && !acts[i].step.Forget? && !acts[i].step.ReleaseClaim?
  {
    if acts[i].Deleted? {
      DeletionsAreClaimed(plan, acts, i);
    } else if acts[i].Did? && acts[i].step.Claim? {
      ClaimsAreChecked(plan, acts, i);
    } else if acts[i].Did? && (acts[i].step.Forget? || acts[i].step.ReleaseClaim?) {
      ForgetsFollowDeletions(plan, acts, i);
      DryRunsTouchNothing(plan, acts, i - 1);
    }
  }

  /** A renewal of the job's lease that was refused. */
  predicate Refused(a: Act) { a.Did? && a.step.RenewLease? && !LeaseHeldBy(a.met.lease, a.step.job) }

  lemma {:induction false} RefusalStays(plan: Plan, acts: seq<Act>, i: nat)
    requires i < |acts| && Refused(acts[i])
    ensures Books(plan, acts).refused
    decreases |acts|
  {
    var n := |acts| - 1;
    if i < n {
      assert acts[..n][i] == acts[i];
      RefusalStays(plan, acts[..n], i);
    }
  }

  /** A look after a refusal finds the lease lost. */
  lemma RefusalIsSeen(plan: Plan, acts: seq<Act>, i: nat, k: nat)
    requires Sound(plan, acts) && i < k < |acts| && Refused(acts[i]) && acts[k].Looked?
    ensures acts[k].lost
  {
    FitsWhereItStands(plan, acts, k);
    assert acts[..k][i] == acts[i];
    RefusalStays(plan, acts[..k], i);
  }

  /** A page or a candidate is taken up only right after a look that was clear. */
  lemma LooksFirst(plan: Plan, acts: seq<Act>, k: nat)
    requires Sound(plan, acts) && k < |acts| && (acts[k].SawRunning? || acts[k].Paged?)
    ensures k >= 1 && Clear(plan, acts[k - 1])
  {
    FitsWhereItStands(plan, acts, k);
  }

  lemma TakenUpBefore(plan: Plan, acts: seq<Act>, i: nat, k: nat)
    requires Sound(plan, acts) && i < |acts| && k < |acts|
    requires Refused(acts[i]) && (acts[k].SawRunning? || acts[k].Paged?)
    ensures k < i
  {
    LooksFirst(plan, acts, k);
    if i < k - 1 { RefusalIsSeen(plan, acts, i, k - 1); }
  }

  lemma ClaimedBefore(plan: Plan, acts: seq<Act>, i: nat, j: nat)
    requires Sound(plan, acts) && i < |acts| && j < |acts| && Refused(acts[i]) && acts[j].Did? && acts[j].step.Claim?
    ensures j < i
  {
    ClaimsAreChecked(plan, acts, j);
    TakenUpBefore(plan, acts, i, AskedAt(plan, j));
  }

  lemma UpdateBeforeDeletion(plan: Plan, acts: seq<Act>, i: nat)
    requires Sound(plan, acts) && i < |acts| && acts[i].Deleted?
    ensures i >= 1 && acts[i - 1].Did? && acts[i - 1].step.UpdateRun?
  {
    FitsWhereItStands(plan, acts, i);
  }

  lemma DestroyedBefore(plan: Plan, acts: seq<Act>, i: nat, j: nat)
    requires Sound(plan, acts) && i < |acts| && j < |acts| && Refused(acts[i]) && acts[j].Deleted?
    ensures j < i
  {
    DeletionsAreClaimed(plan, acts, j);
    ClaimedBefore(plan, acts, i, j - 2);
    UpdateBeforeDeletion(plan, acts, j);
  }

  /** Once a renewal of the job's lease has been refused, it takes up, claims and destroys nothing more. */
  lemma NothingAfterRefusal(plan: Plan, acts: seq<Act>, i: nat, j: nat)
    requires Sound(plan, acts) && i < j < |acts| && Refused(acts[i])
    ensures !(acts[j].Did? && acts[j].step.Claim?) && !acts[j].Deleted? && !acts[j].SawRunning? && !acts[j].Paged?
  {
    if acts[j].SawRunning? || acts[j].Paged? {
      TakenUpBefore(plan, acts, i, j);
    } else if acts[j].Did? && acts[j].step.Claim? {
      ClaimedBefore(plan, acts, i, j);
    } else if acts[j].Deleted? {
      DestroyedBefore(plan, acts, i, j);
    }
  }

  // ---- why a run ended ---------------------------------------------------------------------------

  /** What a look stops a run with, in the order of the checks. */
  function StoppedBy(plan: Plan, look: Act): Option<Status>
    requires look.Looked?
  {
    if look.stopping then Some(Cancelled)
    else if look.lost then Some(LostLease)
    else if plan.settings.stopOnNewActivity && look.active then Some(StoppedOnActivity)
    else if look.raised then Some(Failed)
    else None
  }

  /** The status of a run that was cut short after these acts: cancelled during a deletion, or stopped by
      what it saw at its last look. */
  function CutShortBy(plan: Plan, acts: seq<Act>): Option<Status> {
    if Books(plan, acts).cancelled then Some(Cancelled)
    else if acts != [] && acts[|acts| - 1].Looked? then StoppedBy(plan, acts[|acts| - 1])
    else None
  }
}
