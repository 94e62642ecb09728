/** Cleanup and foreground runs together: the shared activity table with its claims, and one process's
    registry of running threads and deletions. A foreground run touches the thread first and marks it
    running afterwards (app/dependencies.py:722-741); the deletion of a claimed thread marks it in the
    registry, destroys its data, forgets its row, takes the mark back, and the job then forgets the row
    once more (app/dependencies.py:1017-1141, app/thread_cleanup.py:901-944). */
module CleanupForeground {
  import opened Common
  import C = CleanupState
  import S = CleanupSafety
  import O = Occupancy

  /** A foreground start: touched and not yet marked, running, or over. */
  datatype Start = Touched(thread: string, stamp: int) | Started(thread: string) | Rejected | Finished

  /** The deletion of one candidate by a cleanup job: claimed, marked while its data is destroyed, its row
      forgotten, the mark taken back; or refused by the registry, or failed; and over. `claimed` and
      `leased` are the last renewals of the claim and of the job's lease. */
  datatype Wipe =
    | Claimed(thread: string, job: string, cutoff: int, claimed: int, leased: int)
    | Erasing(thread: string, job: string, cutoff: int, claimed: int, leased: int)
    | Forgotten(thread: string)
    | Unmarked(thread: string)
    | Failed(thread: string, job: string)
    | Done

  datatype Joint = Joint(store: C.State, world: O.World, starts: map<nat, Start>, wipes: map<nat, Wipe>)

  /** `Db` is any table step of other jobs, processes and the heartbeat; `Reg` a step of an archive request or
      of a deletion somebody asked for. */
  datatype Step =
    | Db(row: C.Step)
    | Reg(mark: O.Step)
    | TouchStart(f: nat, thread: string, stamp: int, now: int)
    | MarkStart(f: nat)
    | EndStart(f: nat)
    | ClaimIt(d: nat, thread: string, job: string, cutoff: int, now: int, leased: int)
    | MarkIt(d: nat)
    | ForgetIt(d: nat)
    | FailIt(d: nat)
    | UnmarkIt(d: nat)
    | ForgetAgain(d: nat)
    | ReleaseIt(d: nat)

  /** Neither a foreground mark nor the deletion of a wipe. */
  predicate Aside(mark: O.Step, wipes: map<nat, Wipe>) {
    && !mark.RunAsked? && !mark.RunDone?
    && (mark.DeleteAsked? || mark.DeleteDone? ==> mark.d !in wipes)
  }

  /** Claimed and not yet forgotten: what the claim has to cover. */
  predicate Covered(w: Wipe) { w.Claimed? || w.Erasing? }

  predicate Enabled(j: Joint, step: Step) {
    match step
    case Db(_) => true
    case Reg(s) => Aside(s, j.wipes) && O.Enabled(j.world, s)
    case TouchStart(f, t, _, _) => f !in j.starts && t != ""
    case MarkStart(f) => f in j.starts && j.starts[f].Touched?
    case EndStart(f) => f in j.starts && j.starts[f].Started? && j.starts[f].thread in j.world.runs
    case ClaimIt(d, t, job, _, _, _) => d !in j.wipes && d !in j.world.deletions && t != "" && job != ""
    case MarkIt(d) => d in j.wipes && j.wipes[d].Claimed? && d !in j.world.deletions
    case ForgetIt(d) => d in j.wipes && j.wipes[d].Erasing?
    case FailIt(d) => d in j.wipes && j.wipes[d].Erasing? && d in j.world.deletions
    case UnmarkIt(d) => d in j.wipes && j.wipes[d].Forgotten? && d in j.world.deletions
    case ForgetAgain(d) => d in j.wipes && j.wipes[d].Unmarked?
    case ReleaseIt(d) => d in j.wipes && j.wipes[d].Failed?
  }

  /** What a step does to the table; None when it leaves it alone. */
  function DbStep(j: Joint, step: Step): Option<C.Step>
    requires Enabled(j, step)
  {
    match step
    case Db(s) => Some(s)
    case TouchStart(_, t, stamp, now) => Some(C.Touch(t, stamp, now))
    case ClaimIt(_, t, job, cutoff, now, _) => Some(C.Claim(t, job, cutoff, now))
    case ForgetIt(d) => Some(C.Forget(j.wipes[d].thread))
    case ForgetAgain(d) => Some(C.Forget(j.wipes[d].thread))
    case ReleaseIt(d) => Some(C.ReleaseClaim(j.wipes[d].thread, j.wipes[d].job))
    case _ => None
  }

  /** What a step does to the registry. */
  function RegStep(j: Joint, step: Step): Option<O.Step>
    requires Enabled(j, step)
  {
    match step
    case Reg(s) => Some(s)
    case MarkStart(f) => Some(O.RunAsked(j.starts[f].thread))
    case EndStart(f) => Some(O.RunDone(j.starts[f].thread))
    case MarkIt(d) => Some(O.DeleteAsked(d, j.wipes[d].thread))
    case FailIt(d) => Some(O.DeleteDone(d))
    case UnmarkIt(d) => Some(O.DeleteDone(d))
    case _ => None
  }

  function StartsAfter(j: Joint, step: Step): map<nat, Start>
    requires Enabled(j, step)
  {
    match step
    case TouchStart(f, t, stamp, now) =>
      j.starts[f := if C.TouchRefused(j.store.rows, t, now) then Rejected else Touched(t, stamp)]
    case MarkStart(f) =>
      j.starts[f := if O.MayRun(j.world.reg, j.starts[f].thread) then Started(j.starts[f].thread) else Rejected]
    case EndStart(f) => j.starts[f := Finished]
    case _ => j.starts
  }

  /** The heartbeat's renewals, as a wipe remembers them. */
  function Renewed(w: Wipe, step: Option<C.Step>): Wipe {
    if step.None? || !Covered(w) then w
    else
      var claimed := S.ClaimedAfter(step.value, w.thread, w.job, w.claimed);
      var leased := S.LeasedAfter(step.value, w.job, w.leased);
      if w.Claimed? then Claimed(w.thread, w.job, w.cutoff, claimed, leased)
      else Erasing(w.thread, w.job, w.cutoff, claimed, leased)
  }

  function WipesAfter(j: Joint, step: Step): map<nat, Wipe>
    requires Enabled(j, step)
  {
    var w := map d | d in j.wipes :: Renewed(j.wipes[d], DbStep(j, step));
    match step
    case ClaimIt(d, t, job, cutoff, now, leased) =>
      if C.ClaimGranted(j.store.rows, t, cutoff, now) then w[d := Claimed(t, job, cutoff, now, leased)] else w
    case MarkIt(d) =>
      var x := j.wipes[d];
      w[d := if O.MayDelete(j.world.reg, x.thread) then Erasing(x.thread, x.job, x.cutoff, x.claimed, x.leased)
             else Failed(x.thread, x.job)]
    case ForgetIt(d) => w[d := Forgotten(j.wipes[d].thread)]
    case FailIt(d) => w[d := Failed(j.wipes[d].thread, j.wipes[d].job)]
    case UnmarkIt(d) => w[d := Unmarked(j.wipes[d].thread)]
    case ForgetAgain(d) => w[d := Done]
    case ReleaseIt(d) => w[d := Done]
    case _ => w
  }

  ghost function StoreAfter(s: C.State, step: Option<C.Step>): C.State {
    if step.Some? then C.Apply(s, step.value) else s
  }

  function WorldAfter(w: O.World, step: Option<O.Step>): O.World
    requires step.Some? ==> O.Enabled(w, step.value)
  {
    if step.Some? then O.Apply(w, step.value) else w
  }

  ghost function Apply(j: Joint, step: Step): Joint
    requires Enabled(j, step)
  {
    Joint(StoreAfter(j.store, DbStep(j, step)), WorldAfter(j.world, RegStep(j, step)), StartsAfter(j, step),
      WipesAfter(j, step))
  }

  // ---- what the claim needs of a run ------------------------------------------------------------------

  /** A job claims while its lease stands; the renewals of every covered wipe come in time for this step,
      and nobody else deletes the row or gives up claim or lease; and no pending start's row is brought
      back from below its touch by a stale backfill batch. */
  ghost predicate Orderly(j: Joint, step: Step)
    requires Enabled(j, step)
  {
    var s := DbStep(j, step);
    && (step.ClaimIt? ==> j.store.lease == Some(C.Lease(step.job, Some(step.leased + C.JOB_LEASE_SECONDS))))
    && (forall d :: d in j.wipes && Covered(j.wipes[d]) && s.Some? && step != ForgetIt(d) ==>
          var w := j.wipes[d]; S.Punctual([s.value], w.thread, w.job, w.claimed, w.leased))
    && (forall f :: f in j.starts && j.starts[f].Touched? && s.Some? ==>
          !S.Recreates(j.store, s.value, j.starts[f].thread, j.starts[f].stamp))
  }

  ghost predicate Possible(j: Joint, steps: seq<Step>)
    decreases |steps|
  {
    steps == [] || (Enabled(j, steps[0]) && Possible(Apply(j, steps[0]), steps[1..]))
  }

  ghost function Exec(j: Joint, steps: seq<Step>): Joint
    requires Possible(j, steps)
    decreases |steps|
  {
    if steps == [] then j else Exec(Apply(j, steps[0]), steps[1..])
  }

  ghost predicate OrderlyRun(j: Joint, steps: seq<Step>)
    requires Possible(j, steps)
    decreases |steps|
  {
    steps == [] || (Orderly(j, steps[0]) && OrderlyRun(Apply(j, steps[0]), steps[1..]))
  }

  // ---- the invariant ---------------------------------------------------------------------------------

  function RunningOn(starts: map<nat, Start>, t: string): set<nat> { set f | f in starts && starts[f] == Started(t) }

  predicate Marked(w: Wipe) { w.Erasing? || w.Forgotten? }

  /** The registry's marks are those of the starts and wipes. */
  ghost predicate RegistryOk(j: Joint) {
    && O.Inv(j.world)
    && (forall t :: |RunningOn(j.starts, t)| == j.world.runs[t])
    && (forall d :: d in j.wipes && Marked(j.wipes[d]) ==>
          d in j.world.deletions && j.world.deletions[d] == j.wipes[d].thread)
  }

  /** A start waiting to mark the thread that a covered wipe is about. */
  predicate Pending(j: Joint, d: nat, f: nat) {
    && d in j.wipes && Covered(j.wipes[d]) && f in j.starts && j.starts[f].Touched?
    && j.starts[f].thread == j.wipes[d].thread
  }

  /** A pending touch still stands, and a covered wipe still holds claim and lease; every start of its
      thread still pending touched it before the cutoff. */
  ghost predicate TableOk(j: Joint) {
    && (forall f :: f in j.starts && j.starts[f].Touched? ==>
         !S.Exposed(j.store, j.starts[f].thread, j.starts[f].stamp))
    && (forall d :: d in j.wipes && Covered(j.wipes[d]) ==>
          var w := j.wipes[d]; w.job != "" && w.thread != "" && S.Held(j.store, w.thread, w.job, w.claimed, w.leased))
    && (forall d, f :: Pending(j, d, f) ==> j.starts[f].stamp < j.wipes[d].cutoff)
  }

  ghost predicate Inv(j: Joint) { RegistryOk(j) && TableOk(j) }

  // ---- the registry side ---------------------------------------------------------------------------------

  lemma RunningAfter(starts: map<nat, Start>, f: nat, x: Start, t: string)
    ensures RunningOn(starts[f := x], t) ==
            if x == Started(t) then RunningOn(starts, t) + {f} else RunningOn(starts, t) - {f}
  {
  }

  /** A start that is not running on `t` before or after changes nothing there. */
  lemma RunningSame(starts: map<nat, Start>, f: nat, x: Start, t: string)
    requires x == Started(t) <==> f in starts && starts[f] == Started(t)
    ensures RunningOn(starts[f := x], t) == RunningOn(starts, t)
  {
    RunningAfter(starts, f, x, t);
  }

  lemma GrantCounts(j: Joint, f: nat, t: string)
    requires RegistryOk(j) && Enabled(j, MarkStart(f)) && O.MayRun(j.world.reg, j.starts[f].thread)
    ensures var k := Apply(j, MarkStart(f)); |RunningOn(k.starts, t)| == k.world.runs[t]
  {
    var u := j.starts[f].thread;
    assert |RunningOn(j.starts, t)| == j.world.runs[t] && f !in RunningOn(j.starts, t);
    if t == u { RunningAfter(j.starts, f, Started(u), t); } else { RunningSame(j.starts, f, Started(u), t); }
  }

  lemma RefusalCounts(j: Joint, f: nat, t: string)
    requires RegistryOk(j) && Enabled(j, MarkStart(f)) && !O.MayRun(j.world.reg, j.starts[f].thread)
    ensures var k := Apply(j, MarkStart(f)); |RunningOn(k.starts, t)| == k.world.runs[t]
  {
    assert |RunningOn(j.starts, t)| == j.world.runs[t];
    RunningSame(j.starts, f, Rejected, t);
  }

  lemma MarkCounts(j: Joint, f: nat, t: string)
    requires RegistryOk(j) && Enabled(j, MarkStart(f))
    ensures var k := Apply(j, MarkStart(f)); |RunningOn(k.starts, t)| == k.world.runs[t]
  {
    if O.MayRun(j.world.reg, j.starts[f].thread) { GrantCounts(j, f, t); } else { RefusalCounts(j, f, t); }
  }

  lemma EndElsewhere(j: Joint, f: nat, t: string)
    requires RegistryOk(j) && Enabled(j, EndStart(f)) && t != j.starts[f].thread
    ensures var k := Apply(j, EndStart(f));
      && RunningOn(k.starts, t) == RunningOn(j.starts, t)
      && k.world.runs[t] == j.world.runs[t]
  {
    RunningSame(j.starts, f, Finished, t);
  }

  lemma EndHere(j: Joint, f: nat)
    requires RegistryOk(j) && Enabled(j, EndStart(f))
    ensures var k, t := Apply(j, EndStart(f)), j.starts[f].thread;
      && f in RunningOn(j.starts, t) && RunningOn(k.starts, t) == RunningOn(j.starts, t) - {f}
      && k.world.runs[t] == j.world.runs[t] - 1
  {
    RunningAfter(j.starts, f, Finished, j.starts[f].thread);
  }

  lemma EndCounts(j: Joint, f: nat, t: string)
    requires RegistryOk(j) && Enabled(j, EndStart(f))
    ensures var k := Apply(j, EndStart(f)); |RunningOn(k.starts, t)| == k.world.runs[t]
  {
    assert |RunningOn(j.starts, t)| == j.world.runs[t];
    if t == j.starts[f].thread { EndHere(j, f); } else { EndElsewhere(j, f, t); }
  }

  lemma AsideKeepsRuns(w: O.World, s: O.Step)
    requires O.Enabled(w, s) && !s.RunAsked? && !s.RunDone?
    ensures O.Apply(w, s).runs == w.runs
  {
  }

  lemma CountsKept(j: Joint, step: Step, t: string)
    requires RegistryOk(j) && Enabled(j, step)
    ensures var k := Apply(j, step); |RunningOn(k.starts, t)| == k.world.runs[t]
  {
    assert |RunningOn(j.starts, t)| == j.world.runs[t];
    if step.MarkStart? { MarkCounts(j, step.f, t); }
    else if step.EndStart? { EndCounts(j, step.f, t); }
    else {
      if step.TouchStart? { RunningSame(j.starts, step.f, StartsAfter(j, step)[step.f], t); }
      if RegStep(j, step).Some? { AsideKeepsRuns(j.world, RegStep(j, step).value); }
    }
  }

  /** Deletions of others leave a wipe's mark alone. */
  lemma DeletionsAfter(w: O.World, s: O.Step, d: nat)
    requires O.Enabled(w, s) && d in w.deletions && s != O.DeleteDone(d)
    ensures d in O.Apply(w, s).deletions && O.Apply(w, s).deletions[d] == w.deletions[d]
  {
  }

  lemma RenewedKind(w: Wipe, step: Option<C.Step>)
    ensures var x := Renewed(w, step);
      && (Covered(x) <==> Covered(w)) && (Marked(x) <==> Marked(w))
      && (Covered(w) || Marked(w) ==> x.thread == w.thread)
      && (Covered(w) ==> x.job == w.job && x.cutoff == w.cutoff && (x.Claimed? <==> w.Claimed?))
      && (!Covered(w) ==> x == w)
  {
  }

  /** Where a covered wipe comes from: it was covered before, or a claim has just been granted. */
  lemma CoveredBefore(j: Joint, step: Step, d: nat)
    requires Enabled(j, step) && d in WipesAfter(j, step) && Covered(WipesAfter(j, step)[d])
    ensures var x := WipesAfter(j, step)[d];
      if d in j.wipes then
        && Covered(j.wipes[d]) && step != ForgetIt(d)
        && var w := Renewed(j.wipes[d], DbStep(j, step));
           x.thread == w.thread && x.job == w.job && x.cutoff == w.cutoff && x.claimed == w.claimed
             && x.leased == w.leased
      else
        && step.ClaimIt? && step.d == d && C.ClaimGranted(j.store.rows, step.thread, step.cutoff, step.now)
        && x == Claimed(step.thread, step.job, step.cutoff, step.now, step.leased)
  {
    if d in j.wipes { RenewedKind(j.wipes[d], DbStep(j, step)); }
  }

  /** Where a marked wipe comes from. */
  lemma MarkedBefore(j: Joint, step: Step, d: nat)
    requires Enabled(j, step) && d in WipesAfter(j, step) && Marked(WipesAfter(j, step)[d])
    ensures d in j.wipes && WipesAfter(j, step)[d].thread == j.wipes[d].thread
    ensures (Marked(j.wipes[d]) && step != FailIt(d) && step != UnmarkIt(d))
            || (step == MarkIt(d) && O.MayDelete(j.world.reg, j.wipes[d].thread))
  {
    if d in j.wipes { RenewedKind(j.wipes[d], DbStep(j, step)); }
  }

  /** Where a pending start comes from. */
  lemma TouchedBefore(j: Joint, step: Step, f: nat)
    requires Enabled(j, step) && f in StartsAfter(j, step) && StartsAfter(j, step)[f].Touched?
    ensures var x := StartsAfter(j, step)[f];
      if f in j.starts then j.starts[f] == x
      else step.TouchStart? && step.f == f && x == Touched(step.thread, step.stamp)
           && !C.TouchRefused(j.store.rows, step.thread, step.now)
  {
  }

  /** The registry never sees another deletion's end under a wipe's number. */
  lemma OwnDeletionOnly(j: Joint, step: Step, d: nat)
    requires Enabled(j, step) && d in j.wipes && step != FailIt(d) && step != UnmarkIt(d)
    ensures RegStep(j, step) != Some(O.DeleteDone(d))
  {
  }

  lemma MarksKept(j: Joint, step: Step, d: nat)
    requires RegistryOk(j) && Enabled(j, step) && d in WipesAfter(j, step) && Marked(WipesAfter(j, step)[d])
    ensures var w := WorldAfter(j.world, RegStep(j, step));
      d in w.deletions && w.deletions[d] == WipesAfter(j, step)[d].thread
  {
    MarkedBefore(j, step, d);
    if Marked(j.wipes[d]) {
      OwnDeletionOnly(j, step, d);
      if RegStep(j, step).Some? { DeletionsAfter(j.world, RegStep(j, step).value, d); }
    }
  }

  lemma RegistryKept(j: Joint, step: Step)
    requires RegistryOk(j) && Enabled(j, step)
    ensures RegistryOk(Apply(j, step))
  {
    var k := Apply(j, step);
    if RegStep(j, step).Some? { O.StepKeeps(j.world, RegStep(j, step).value); }
    forall t ensures |RunningOn(k.starts, t)| == k.world.runs[t] { CountsKept(j, step, t); }
    forall d | d in k.wipes && Marked(k.wipes[d])
      ensures d in k.world.deletions && k.world.deletions[d] == k.wipes[d].thread
    {
      MarksKept(j, step, d);
    }
  }

  /** In every run, orderly or not. */
  lemma {:induction false} RegistryInEveryRun(j: Joint, steps: seq<Step>)
    requires RegistryOk(j) && Possible(j, steps)
    ensures RegistryOk(Exec(j, steps))
    decreases |steps|
  {
    if steps != [] {
      RegistryKept(j, steps[0]);
      RegistryInEveryRun(Apply(j, steps[0]), steps[1..]);
    }
  }

  // ---- the table side -------------------------------------------------------------------------------------

  /** A touch that was not refused stands. */
  lemma TouchStands(s: C.State, t: string, stamp: int, now: int)
    requires t != "" && !C.TouchRefused(s.rows, t, now)
    ensures !S.Exposed(C.Apply(s, C.Touch(t, stamp, now)), t, stamp)
  {
  }

  lemma PendingStands(j: Joint, step: Step, f: nat)
    requires Inv(j) && Enabled(j, step) && Orderly(j, step)
    requires f in StartsAfter(j, step) && StartsAfter(j, step)[f].Touched?
    ensures var x := StartsAfter(j, step)[f]; !S.Exposed(StoreAfter(j.store, DbStep(j, step)), x.thread, x.stamp)
  {
    var s := DbStep(j, step);
    TouchedBefore(j, step, f);
    if f !in j.starts {
      TouchStands(j.store, step.thread, step.stamp, step.now);
    } else if s.Some? {
      S.ExposedExactlyByRecreation(j.store, s.value, j.starts[f].thread, j.starts[f].stamp);
    }
  }

  /** The fields a wipe remembers are what the table holds. */
  lemma HeldAfter(j: Joint, step: Step, d: nat)
    requires Inv(j) && Enabled(j, step) && Orderly(j, step) && d in j.wipes && Covered(j.wipes[d])
        && step != ForgetIt(d)
    ensures var w := Renewed(j.wipes[d], DbStep(j, step));
      Covered(w) && S.Held(StoreAfter(j.store, DbStep(j, step)), w.thread, w.job, w.claimed, w.leased)
  {
    var w, s := j.wipes[d], DbStep(j, step);
    if s.Some? { S.PunctualStepHolds(j.store, s.value, w.thread, w.job, w.claimed, w.leased); }
  }

  lemma NewlyHeld(j: Joint, step: Step)
    requires Enabled(j, step) && Orderly(j, step) && step.ClaimIt?
    requires C.ClaimGranted(j.store.rows, step.thread, step.cutoff, step.now)
    ensures S.Held(StoreAfter(j.store, DbStep(j, step)), step.thread, step.job, step.now, step.leased)
  {
    S.ClaimStartsExclusion(j.store, step.thread, step.job, step.cutoff, step.now, step.leased);
  }

  lemma HeldKept(j: Joint, step: Step, d: nat)
    requires Inv(j) && Enabled(j, step) && Orderly(j, step)
    requires d in WipesAfter(j, step) && Covered(WipesAfter(j, step)[d])
    ensures var w := WipesAfter(j, step)[d];
      && w.job != "" && w.thread != ""
      && S.Held(StoreAfter(j.store, DbStep(j, step)), w.thread, w.job, w.claimed, w.leased)
  {
    CoveredBefore(j, step, d);
    if d in j.wipes {
      RenewedKind(j.wipes[d], DbStep(j, step));
      HeldAfter(j, step, d);
    } else {
      NewlyHeld(j, step);
    }
  }

  /** While a claim is held in time, a touch of its thread is refused. */
  lemma TouchMeetsTheClaim(j: Joint, d: nat, f: nat, t: string, stamp: int, now: int)
    requires Inv(j) && Enabled(j, TouchStart(f, t, stamp, now)) && Orderly(j, TouchStart(f, t, stamp, now))
    requires d in j.wipes && Covered(j.wipes[d]) && j.wipes[d].thread == t
    ensures C.TouchRefused(j.store.rows, t, now)
  {
    var w := j.wipes[d];
    assert S.Punctual([C.Touch(t, stamp, now)], w.thread, w.job, w.claimed, w.leased);
  }

  /** A claim is granted only below every touch still pending. */
  lemma ClaimMeetsTheTouch(j: Joint, f: nat, t: string, cutoff: int, now: int)
    requires Inv(j) && f in j.starts && j.starts[f].Touched? && j.starts[f].thread == t
    requires C.ClaimGranted(j.store.rows, t, cutoff, now)
    ensures j.starts[f].stamp < cutoff
  {
    assert !S.Exposed(j.store, t, j.starts[f].stamp);
  }

  lemma PendingKept(j: Joint, step: Step, d: nat, f: nat)
    requires Inv(j) && Enabled(j, step) && Orderly(j, step)
    requires d in WipesAfter(j, step) && Covered(WipesAfter(j, step)[d])
    requires f in StartsAfter(j, step) && StartsAfter(j, step)[f].Touched?
    requires StartsAfter(j, step)[f].thread == WipesAfter(j, step)[d].thread
    ensures StartsAfter(j, step)[f].stamp < WipesAfter(j, step)[d].cutoff
  {
    CoveredBefore(j, step, d);
    TouchedBefore(j, step, f);
    if d !in j.wipes {
      ClaimMeetsTheTouch(j, f, step.thread, step.cutoff, step.now);
    } else {
      RenewedKind(j.wipes[d], DbStep(j, step));
      if f in j.starts { assert Pending(j, d, f); }
      else { TouchMeetsTheClaim(j, d, f, step.thread, step.stamp, step.now); }
    }
  }

  lemma TableKept(j: Joint, step: Step)
    requires Inv(j) && Enabled(j, step) && Orderly(j, step)
    ensures TableOk(Apply(j, step))
  {
    var k := Apply(j, step);
    forall f | f in k.starts && k.starts[f].Touched?
      ensures !S.Exposed(k.store, k.starts[f].thread, k.starts[f].stamp)
    {
      PendingStands(j, step, f);
    }
    forall d | d in k.wipes && Covered(k.wipes[d])
      ensures var w := k.wipes[d];
        && w.job != "" && w.thread != ""
        && S.Held(k.store, w.thread, w.job, w.claimed, w.leased)
    {
      HeldKept(j, step, d);
    }
    forall d, f | Pending(k, d, f) ensures k.starts[f].stamp < k.wipes[d].cutoff { PendingKept(j, step, d, f); }
  }

  lemma {:induction false} EveryOrderlyRunKeeps(j: Joint, steps: seq<Step>)
    requires Inv(j) && Possible(j, steps) && OrderlyRun(j, steps)
    ensures Inv(Exec(j, steps))
    decreases |steps|
  {
    if steps != [] {
      RegistryKept(j, steps[0]);
      TableKept(j, steps[0]);
      EveryOrderlyRunKeeps(Apply(j, steps[0]), steps[1..]);
    }
  }

  /** Any table, and a process that has just come up. */
  function Boot(store: C.State): Joint { Joint(store, O.IDLE, map[], map[]) }

  lemma BootHolds(store: C.State)
    ensures Inv(Boot(store))
  {
    O.IdleHolds();
    forall t ensures |RunningOn(map[], t)| == 0 { assert RunningOn(map[], t) == {}; }
  }

  // ---- no run over a thread being deleted ---------------------------------------------------------------------

  lemma NobodyRuns(starts: map<nat, Start>, t: string)
    requires |RunningOn(starts, t)| == 0
    ensures forall f :: f in starts ==> starts[f] != Started(t)
  {
    assert forall f :: f in RunningOn(starts, t) <==> f in starts && starts[f] == Started(t);
    assert RunningOn(starts, t) == {};
  }

  /** In every run whatever, with late renewals, takeovers and other deletions: from the mark until it is
      taken back no foreground run of the thread is running, and none that marks it would get through. */
  lemma NoRunOverADeletion(store: C.State, steps: seq<Step>, d: nat)
    requires Possible(Boot(store), steps)
    requires var j := Exec(Boot(store), steps); d in j.wipes && Marked(j.wipes[d])
    ensures var j := Exec(Boot(store), steps);
      var t := j.wipes[d].thread;
      && (forall f :: f in j.starts ==> j.starts[f] != Started(t))
      && !O.MayRun(j.world.reg, t)
  {
    BootHolds(store);
    RegistryInEveryRun(Boot(store), steps);
    var j := Exec(Boot(store), steps);
    var t := j.wipes[d].thread;
    assert j.world.deletions[d] == t && t in j.world.reg.deleting;
    assert O.CountOf(j.world.reg, t) == j.world.runs[t] && |RunningOn(j.starts, t)| == j.world.runs[t];
    NobodyRuns(j.starts, t);
  }

  /** In an orderly run, every start still waiting to mark a thread that is claimed or being erased had
      touched it before the cutoff. */
  lemma PendingTouchesAreOld(store: C.State, steps: seq<Step>, d: nat, f: nat)
    requires Possible(Boot(store), steps) && OrderlyRun(Boot(store), steps)
    requires Pending(Exec(Boot(store), steps), d, f)
    ensures var j := Exec(Boot(store), steps); j.starts[f].stamp < j.wipes[d].cutoff
  {
    BootHolds(store);
    EveryOrderlyRunKeeps(Boot(store), steps);
  }

  /** In an orderly run, from the granted claim until the row is forgotten no start even gets past its
      touch. */
  lemma NoStartUnderAClaim(store: C.State, steps: seq<Step>, d: nat, f: nat, stamp: int, now: int)
    requires Possible(Boot(store), steps) && OrderlyRun(Boot(store), steps)
    requires var j := Exec(Boot(store), steps);
      && d in j.wipes && Covered(j.wipes[d])
      && var touch := TouchStart(f, j.wipes[d].thread, stamp, now); Enabled(j, touch) && Orderly(j, touch)
    ensures var j := Exec(Boot(store), steps);
      Apply(j, TouchStart(f, j.wipes[d].thread, stamp, now)).starts[f] == Rejected
  {
    BootHolds(store);
    EveryOrderlyRunKeeps(Boot(store), steps);
    var j := Exec(Boot(store), steps);
    TouchMeetsTheClaim(j, d, f, j.wipes[d].thread, stamp, now);
  }

  // ---- the second forget ------------------------------------------------------------------------------------------

  /** A run that starts between the end of a deletion and the job's second forget loses the row its touch
      has just made: the thread runs without an activity row. */
  lemma SecondForgetErasesANewRun(j: Joint, d: nat, f: nat, stamp: int, now: int)
    requires d in j.wipes && j.wipes[d].Unmarked? && j.wipes[d].thread != "" && f !in j.starts
    requires j.wipes[d].thread !in j.store.rows && O.MayRun(j.world.reg, j.wipes[d].thread)
    ensures var t := j.wipes[d].thread;
      var j1 := Apply(j, TouchStart(f, t, stamp, now));
      && Enabled(j1, MarkStart(f))
      && var j2 := Apply(j1, MarkStart(f));
         && Enabled(j2, ForgetAgain(d)) && t in j2.store.rows
         && var j3 := Apply(j2, ForgetAgain(d)); j3.starts[f] == Started(t) && t !in j3.store.rows
  {
    var t := j.wipes[d].thread;
    var j1 := Apply(j, TouchStart(f, t, stamp, now));
    assert j1.starts[f] == Touched(t, stamp) && t in j1.store.rows;
    var j2 := Apply(j1, MarkStart(f));
    assert j2.starts[f] == Started(t) && j2.wipes[d] == Unmarked(t);
  }

  /** It changes the table exactly when the row is back: touched or backfilled since the first forget. */
  lemma SecondForgetErasesExactly(j: Joint, d: nat)
    requires Enabled(j, ForgetAgain(d))
    ensures Apply(j, ForgetAgain(d)).store.rows == j.store.rows <==> j.wipes[d].thread !in j.store.rows
  {
    var t := j.wipes[d].thread;
    assert t !in Apply(j, ForgetAgain(d)).store.rows;
    if t !in j.store.rows { assert j.store.rows - {t} == j.store.rows; }
  }

  lemma Prepend(j: Joint, step: Step, steps: seq<Step>)
    requires Enabled(j, step) && Possible(Apply(j, step), steps)
    ensures Possible(j, [step] + steps) && Exec(j, [step] + steps) == Exec(Apply(j, step), steps)
    ensures Orderly(j, step) && OrderlyRun(Apply(j, step), steps) ==> OrderlyRun(j, [step] + steps)
  {
    assert ([step] + steps)[1..] == steps;
  }

  /** The job's own steps up to the destruction of the data; with the row forgotten and the mark taken
      back as well, the second forget is still to come. */
  function DeletionSteps(t: string, job: string, cutoff: int, now: int, leased: int, rest: seq<Step>): seq<Step> {
    [ClaimIt(0, t, job, cutoff, now, leased)] + ([MarkIt(0)] + rest)
  }

  const UNMARKING: seq<Step> := [ForgetIt(0)] + ([UnmarkIt(0)] + [])

  ghost predicate Reaches(j: Joint, steps: seq<Step>, k: Joint) {
    Possible(j, steps) && OrderlyRun(j, steps) && Exec(j, steps) == k
  }

  lemma ReachesFrom(j: Joint, step: Step, rest: seq<Step>, k: Joint)
    requires Enabled(j, step) && Orderly(j, step) && Reaches(Apply(j, step), rest, k)
    ensures Reaches(j, [step] + rest, k)
  {
    Prepend(j, step, rest);
  }

  /** Such states are reached: a claimable thread, whose job holds the lease, is claimed and marked; and
      when its row is forgotten and the mark taken back, the second forget is still to come. */
  lemma DeletionsAreReached(store: C.State, t: string, job: string, cutoff: int, now: int, leased: int)
    requires t != "" && job != "" && C.ClaimGranted(store.rows, t, cutoff, now)
    requires store.lease == Some(C.Lease(job, Some(leased + C.JOB_LEASE_SECONDS)))
    ensures exists k :: (
        Reaches(Boot(store), DeletionSteps(t, job, cutoff, now, leased, []), k)
        && k.wipes == map[0 := Erasing(t, job, cutoff, now, leased)])
    ensures exists k :: (
        Reaches(Boot(store), DeletionSteps(t, job, cutoff, now, leased, UNMARKING), k)
        && k.wipes == map[0 := Unmarked(t)] && t !in k.store.rows && O.MayRun(k.world.reg, t) && k.starts == map[])
  {
    var claim := ClaimIt(0, t, job, cutoff, now, leased);
    var claimed := ClaimFirst(store, t, job, cutoff, now, leased);
    var erasing := MarkNext(claimed);
    ReachesFrom(claimed, MarkIt(0), [], erasing);
    ReachesFrom(Boot(store), claim, [MarkIt(0)] + [], erasing);
    var unmarked := UnmarkedFrom(erasing);
    ReachesFrom(claimed, MarkIt(0), UNMARKING, unmarked);
    ReachesFrom(Boot(store), claim, [MarkIt(0)] + UNMARKING, unmarked);
  }

  lemma ClaimFirst(store: C.State, t: string, job: string, cutoff: int, now: int, leased: int) returns (j: Joint)
    requires t != "" && job != "" && C.ClaimGranted(store.rows, t, cutoff, now)
    requires store.lease == Some(C.Lease(job, Some(leased + C.JOB_LEASE_SECONDS)))
    ensures var claim := ClaimIt(0, t, job, cutoff, now, leased);
      && Enabled(Boot(store), claim) && Orderly(Boot(store), claim) && j == Apply(Boot(store), claim)
    ensures j.world == O.IDLE && j.starts == map[] && j.wipes == map[0 := Claimed(t, job, cutoff, now, leased)]
  {
    j := Apply(Boot(store), ClaimIt(0, t, job, cutoff, now, leased));
  }

  lemma MarkNext(j: Joint) returns (k: Joint)
    requires j.world == O.IDLE && j.starts == map[] && j.wipes.Keys == {0} && j.wipes[0].Claimed?
    ensures Enabled(j, MarkIt(0)) && Orderly(j, MarkIt(0)) && k == Apply(j, MarkIt(0))
    ensures var w := j.wipes[0];
      && k.wipes == map[0 := Erasing(w.thread, w.job, w.cutoff, w.claimed, w.leased)] && k.starts == map[]
      && k.world.deletions == map[0 := w.thread] && k.world.reg.archiving == {}
  {
    k := Apply(j, MarkIt(0));
  }

  lemma UnmarkedFrom(j: Joint) returns (k: Joint)
    requires 0 in j.wipes && j.wipes[0].Erasing? && j.wipes.Keys == {0} && j.starts == map[]
    requires 0 in j.world.deletions && j.world.deletions[0] == j.wipes[0].thread
    requires j.wipes[0].thread !in j.world.reg.archiving
    ensures Reaches(j, UNMARKING, k)
    ensures var t := j.wipes[0].thread;
      k.wipes == map[0 := Unmarked(t)] && t !in k.store.rows && O.MayRun(k.world.reg, t) && k.starts == map[]
  {
    var j1 := Apply(j, ForgetIt(0));
    k := Apply(j1, UnmarkIt(0));
    ReachesFrom(j1, UnmarkIt(0), [], k);
    ReachesFrom(j, ForgetIt(0), [UnmarkIt(0)] + [], k);
  }
}
