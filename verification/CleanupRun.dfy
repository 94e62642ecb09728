/** The deletion job (`_execute_run`): a keyset-paged loop that deletes rows as it pages,
    with other workers acting on the database at every await. */
module CleanupRun {
  import opened Common
  import opened CleanupState
  import opened CleanupStore
  import opened CleanupLog
  import opened CleanupOthers

  // ---- the loop ------------------------------------------------------------------------

  /** A run that did not get through its candidates. */
  predicate CutShort(status: Status) {
    status == Cancelled || status == LostLease || status == StoppedOnActivity || status == Failed
  }

  /** Where every run of the loop ends: never pending or running, and abandoned only by someone else. */
  predicate Final(status: Status) { status == Completed || status == CompletedWithErrors || CutShort(status) }

  /** How the loop ended: the run status, whether the candidates ran out, and every key it was given. */
  datatype Outcome = Outcome(status: Status, exhausted: bool, counts: Counts, returned: seq<Key>)

  /** Pages strictly ascend, no thread is returned twice, and none that was not below the cutoff at the
      start; when the candidates ran out, every row eligible at the start and left alone was returned. */
  ghost predicate Paging(plan: Plan, start: Rows, quiet: set<ThreadId>, since: Time, out: Outcome) {
    && Ascending(out.returned, KeyLess)
    && (forall i, j :: 0 <= i < j < |out.returned| ==> out.returned[i].thread != out.returned[j].thread)
    && (forall k :: k in out.returned ==> k in Below(start, plan.cutoff))
    && (out.exhausted ==> forall k :: k in EligibleKeys(start, plan.cutoff, since, quiet) ==> k in out.returned)
  }

  /** Every act fits, nothing is left half done, the counts are what the acts add up to; and the loop ended
      because of what it saw, or with its candidates or its limit exhausted. */
  ghost predicate Accounted(plan: Plan, out: Outcome, acts: seq<Act>) {
    var l := Books(plan, acts);
    && Sound(plan, acts) && Settled(plan, acts) && out.counts == l.counts && out.returned == l.listed
    && out.counts.deleted <= plan.limit && out.counts.scanned == |out.returned| >= out.counts.Handled()
    && (out.exhausted ==> out.counts.scanned == out.counts.Handled())
    && match CutShortBy(plan, acts)
       case Some(status) => out.status == status && !out.exhausted
       case None =>
         && out.status == (if out.counts.failed == 0 then Completed else CompletedWithErrors)
         && (out.exhausted || CleanupLog.Progress(plan, l) >= plan.limit)
  }

  /** Rows the first page query could already have returned. */
  ghost function EligibleKeys(rows: Rows, cutoff: Time, now: Time, quiet: set<ThreadId>): set<Key> {
    set t | t in rows && t in quiet && Eligible(rows[t], cutoff, now) :: KeyOf(rows, t)
  }

  ghost predicate Returned(returned: seq<Key>, t: ThreadId) {
    exists k :: k in returned && k.thread == t
  }

  /** A key still to come: its row is untouched, free to claim, and past the cursor. */
  ghost predicate Awaiting(rows: Rows, k: Key, cutoff: Time, now: Time, cursor: Option<Key>) {
    && k.thread in rows && k == KeyOf(rows, k.thread) && Eligible(rows[k.thread], cutoff, now)
    && After(cursor, k)
  }

  /** What holds whenever the loop looks: `start` is the table at the loop's start. */
  ghost predicate LoopInv(start: Rows, rows: Rows, cutoff: Time, since: Time, now: Time, job: JobId,
                          quiet: set<ThreadId>, cursor: Option<Key>, returned: seq<Key>) {
    && since <= now
    && Below(rows, cutoff) <= Below(start, cutoff)
    && Ascending(returned, KeyLess)
    && (cursor.None? <==> returned == [])
    && (cursor.Some? ==> returned[|returned| - 1] == cursor.value)
    && (forall k :: k in returned ==> k in Below(start, cutoff))
    && (forall t :: t in rows && rows[t].claimedBy == Some(job) ==> Returned(returned, t))
    && (forall k :: k in EligibleKeys(start, cutoff, since, quiet) ==>
          k in returned || Awaiting(rows, k, cutoff, now, cursor))
  }

  /** A thread has one key below the cutoff, so an unreturned key means an unreturned thread. */
  lemma UnreturnedThread(start: Rows, cutoff: Time, since: Time, quiet: set<ThreadId>, returned: seq<Key>, k: Key)
    requires forall r :: r in returned ==> r in Below(start, cutoff)
    requires k in EligibleKeys(start, cutoff, since, quiet) && k !in returned
    ensures !Returned(returned, k.thread)
  {
    forall r | r in returned ensures r.thread != k.thread {
      assert r in Below(start, cutoff) && k in Below(start, cutoff);
    }
  }

  lemma InterferenceKeepsInv(start: Rows, before: Rows, after: Rows, cutoff: Time, since: Time, now: Time,
                             later: Time, job: JobId, quiet: set<ThreadId>, cursor: Option<Key>, returned: seq<Key>)
    requires LoopInv(start, before, cutoff, since, now, job, quiet, cursor, returned)
    requires Permitted(before, after, cutoff, job, quiet) && now <= later
    ensures LoopInv(start, after, cutoff, since, later, job, quiet, cursor, returned)
  {
    forall k | k in Below(after, cutoff) ensures k in Below(start, cutoff) {
      assert k in Below(before, cutoff);
    }
    forall k | k in EligibleKeys(start, cutoff, since, quiet) && k !in returned
      ensures Awaiting(after, k, cutoff, later, cursor)
    {
      UnreturnedThread(start, cutoff, since, quiet, returned, k);
      assert before[k.thread].claimedBy != Some(job);
    }
  }

  /** Taking one page: everything in it is new, and nothing awaited is passed over. */
  lemma PageKeepsInv(start: Rows, rows: Rows, cutoff: Time, since: Time, now: Time, job: JobId,
                     quiet: set<ThreadId>, cursor: Option<Key>, returned: seq<Key>, page: seq<Key>, limit: nat)
    requires LoopInv(start, rows, cutoff, since, now, job, quiet, cursor, returned)
    requires IsPage(page, rows, cutoff, now, cursor, limit) && page != []
    ensures LoopInv(start, rows, cutoff, since, now, job, quiet, Some(page[|page| - 1]), returned + page)
  {
    KeyOrderIsTotal();
    var last := page[|page| - 1];
    var all := returned + page;
    forall i, j | 0 <= i < j < |all| ensures KeyLess(all[i], all[j]) {
      if i < |returned| && j >= |returned| {
        assert all[j] in page && cursor.Some?;
        if i < |returned| - 1 { assert KeyLess(returned[i], cursor.value); }
      }
    }
    forall k | k in page ensures k in Below(start, cutoff) {
      assert k in Below(rows, cutoff);
    }
    forall t | t in rows && rows[t].claimedBy == Some(job) ensures Returned(all, t) {
      var k :| k in returned && k.thread == t;
      assert k in all;
    }
    forall k | k in EligibleKeys(start, cutoff, since, quiet) && k !in all
      ensures Awaiting(rows, k, cutoff, now, Some(last))
    {
      assert last in page;
      assert KeyLess(last, k);
    }
  }

  /** The job's own claim, release or deletion of a returned thread. */
  lemma OwnStepKeepsInv(start: Rows, before: Rows, after: Rows, cutoff: Time, since: Time, now: Time, job: JobId,
                        quiet: set<ThreadId>, cursor: Option<Key>, returned: seq<Key>, t: ThreadId)
    requires LoopInv(start, before, cutoff, since, now, job, quiet, cursor, returned)
    requires Returned(returned, t)
    requires forall u :: u != t ==> (u in after <==> u in before) && (u in before ==> after[u] == before[u])
    requires t in after ==> t in before && after[t].last == before[t].last
    ensures LoopInv(start, after, cutoff, since, now, job, quiet, cursor, returned)
  {
    forall k | k in Below(after, cutoff) ensures k in Below(start, cutoff) {
      assert k in Below(before, cutoff);
    }
    forall k | k in EligibleKeys(start, cutoff, since, quiet) && k !in returned
      ensures k.thread != t
    {
      UnreturnedThread(start, cutoff, since, quiet, returned, k);
    }
  }

  /** Each page shrinks what is left to return. */
  ghost function Ahead(start: Rows, cutoff: Time, cursor: Option<Key>): set<Key> {
    set k | k in Below(start, cutoff) && After(cursor, k)
  }

  lemma PageAdvances(start: Rows, cutoff: Time, cursor: Option<Key>, last: Key)
    requires last in Below(start, cutoff) && After(cursor, last)
    ensures Ahead(start, cutoff, Some(last)) < Ahead(start, cutoff, cursor)
  {
    KeyOrderIsTotal();
    assert last in Ahead(start, cutoff, cursor) && last !in Ahead(start, cutoff, Some(last));
  }

  /** Strictly ascending keys below one cutoff name each thread once. */
  lemma ReturnedOnce(start: Rows, cutoff: Time, returned: seq<Key>, i: nat, j: nat)
    requires Ascending(returned, KeyLess) && i < j < |returned|
    requires forall k :: k in returned ==> k in Below(start, cutoff)
    ensures returned[i].thread != returned[j].thread
  {
    KeyOrderIsTotal();
    assert returned[i] in Below(start, cutoff) && returned[j] in Below(start, cutoff);
  }

  // ---- what the job sees ---------------------------------------------------------------------------

  /** `manager.is_thread_running`. */
  method AskRunning(store: Store, t: ThreadId) returns (yes: bool)
    modifies store`history
    ensures store.history == old(store.history) + [SawRunning(t, yes)]
  {
    yes := *;
    store.history := store.history + [SawRunning(t, yes)];
  }

  /** Whether an enabled schedule exists. */
  method AskScheduled(store: Store, t: ThreadId) returns (yes: bool)
    modifies store`history
    ensures store.history == old(store.history) + [SawScheduled(t, yes)]
  {
    yes := *;
    store.history := store.history + [SawScheduled(t, yes)];
  }

  /** `manager.delete_thread_completely`: while it runs the others act, and the job may be cancelled; a
      cancellation is raised only after the deletion has been accounted for. */
  method DeleteCompletely(store: Store, plan: Plan, quiet: set<ThreadId>, t: ThreadId)
    returns (success: bool, cancelled: bool)
    modifies store
    ensures Permitted(old(store.rows), store.rows, plan.cutoff, plan.job, quiet)
    ensures store.history == old(store.history) + [Deleted(t, success, cancelled)]
  {
    Interfere(store, plan.cutoff, plan.job, quiet);
    success, cancelled := *, *;
    store.history := store.history + [Deleted(t, success, cancelled)];
  }

  /** The checks before each page and each candidate: shutdown, a lost lease, new activity,
      or an exception. */
  method Interrupted(store: Store, plan: Plan, lostLease: bool) returns (yes: bool, status: Status, ghost look: Act)
    modifies store`history
    ensures store.history == old(store.history) + [look] && look.Looked? && (lostLease ==> look.lost)
    ensures yes <==> !Clear(plan, look)
    ensures yes ==> StoppedBy(plan, look) == Some(status)
  {
    var stopping, noticed, active, raised := *, *, *, *;
    var lost: bool := lostLease || noticed;       // `noticed`: the heartbeat found it lost
    look := Looked(stopping, lost, active, raised);
    store.history := store.history + [look];
    yes, status := true, Running;
    if stopping { status := Cancelled; return; }
    if lost { status := LostLease; return; }
    if plan.settings.stopOnNewActivity && active { status := StoppedOnActivity; return; }
    if raised { status := Failed; return; }
    yes := false;
  }

  // ---- the loop's log ---------------------------------------------------------------------------------

  /** The work counters the loop carries besides the published counts. */
  datatype Work = Work(counts: Counts, dryRunEligible: nat, batchWork: nat, lostLease: bool)

  predicate Matches(l: Ledger, work: Work, returned: seq<Key>) {
    && l.counts == work.counts && l.eligible == work.dryRunEligible && l.batch == work.batchWork
    && l.refused == work.lostLease && l.listed == returned
  }

  /** The acts after the history the loop began with. */
  function Since(history: seq<Act>, base: seq<Act>): seq<Act>
    requires base <= history
  {
    history[|base|..]
  }

  lemma SincePush(history: seq<Act>, base: seq<Act>, a: Act)
    requires base <= history
    ensures base <= history + [a] && Since(history + [a], base) == Since(history, base) + [a]
  {
  }

  lemma SinceJoins(history: seq<Act>, base: seq<Act>)
    requires base <= history
    ensures history == base + Since(history, base)
  {
  }

  /** The acts so far are sound and add up to `l`, with nothing left half done. */
  ghost predicate Logged(plan: Plan, history: seq<Act>, base: seq<Act>, l: Ledger) {
    base <= history && Kept(plan, Since(history, base), l) && Settled(plan, Since(history, base))
  }

  /** The last act was a look that lets the job go on. */
  ghost predicate MayGoOn(plan: Plan, history: seq<Act>, base: seq<Act>) {
    base < history && Clear(plan, history[|history| - 1])
  }

  ghost predicate NotLooking(history: seq<Act>, base: seq<Act>) {
    base < history && !history[|history| - 1].Looked?
  }

  /** One look. */
  method LookAround(store: Store, plan: Plan, lostLease: bool, ghost base: seq<Act>, ghost l: Ledger)
    returns (interrupted: bool, status: Status)
    requires Logged(plan, store.history, base, l) && l.refused == lostLease && !l.cancelled
    modifies store`history
    ensures store.rows == old(store.rows) && Logged(plan, store.history, base, l)
    ensures !interrupted ==> MayGoOn(plan, store.history, base)
    ensures interrupted ==> CutShortBy(plan, Since(store.history, base)) == Some(status)
  {
    ghost var history := store.history;
    ghost var look;
    interrupted, status, look := Interrupted(store, plan, lostLease);
    LookOnce(plan, Since(history, base), l, look);
    SincePush(history, base, look);
  }

  /** Deleting one claimed thread, whatever the deletion reports. */
  method DeleteClaimed(store: Store, plan: Plan, quiet: set<ThreadId>, key: Key, counts: Counts, clock: Time,
                       ghost since: Time, ghost start: Rows, ghost cursor: Option<Key>, ghost returned: seq<Key>,
                       ghost base: seq<Act>, ghost l: Ledger)
    returns (result: Counts, cancelled: bool, now: Time)
    requires LoopInv(start, store.rows, plan.cutoff, since, clock, plan.job, quiet, cursor, returned)
    requires key in returned && counts == l.counts
    requires base < store.history && Kept(plan, Since(store.history, base), l)
    requires var last := store.history[|store.history| - 1]; Won(last) && last.step.thread == key.thread
    modifies store
    ensures LoopInv(start, store.rows, plan.cutoff, since, now, plan.job, quiet, cursor, returned)
    ensures Logged(plan, store.history, base,
                   l.(counts := result, cancelled := l.cancelled || cancelled, published := counts))
    ensures NotLooking(store.history, base)
    ensures result == counts.(deleted := counts.deleted + 1) || result == counts.(failed := counts.failed + 1)
  {
    var success;
    success, cancelled, now := Destroy(store, plan, quiet, key, counts, clock, since, start, cursor, returned, base, l);
    result := if success then counts.(deleted := counts.deleted + 1) else counts.(failed := counts.failed + 1);
    ghost var before, history, met := store.rows, store.history, store.Abs();
    if success {
      store.ForgetThread(key.thread);
    } else {
      store.ReleaseThreadClaim(key.thread, plan.job);
    }
    ghost var after := l.(counts := result, cancelled := l.cancelled || cancelled, published := counts);
    SettleIt(plan, Since(history, base), after, key.thread, success, cancelled, met);
    SincePush(history, base, Did(if success then Forget(key.thread) else ReleaseClaim(key.thread, plan.job), met));
    OwnStepKeepsInv(start, before, store.rows, plan.cutoff, since, now, plan.job, quiet, cursor, returned, key.thread);
  }

  /** The published counts and the deletion itself. */
  method Destroy(store: Store, plan: Plan, quiet: set<ThreadId>, key: Key, counts: Counts, clock: Time,
                 ghost since: Time, ghost start: Rows, ghost cursor: Option<Key>, ghost returned: seq<Key>,
                 ghost base: seq<Act>, ghost l: Ledger)
    returns (success: bool, cancelled: bool, now: Time)
    requires LoopInv(start, store.rows, plan.cutoff, since, clock, plan.job, quiet, cursor, returned)
    requires key in returned && counts == l.counts
    requires base < store.history && Kept(plan, Since(store.history, base), l)
    requires var last := store.history[|store.history| - 1]; Won(last) && last.step.thread == key.thread
    modifies store
    ensures LoopInv(start, store.rows, plan.cutoff, since, now, plan.job, quiet, cursor, returned)
    ensures base <= store.history
    ensures Last(Since(store.history, base)) == Some(Deleted(key.thread, success, cancelled))
    ensures Kept(plan, Since(store.history, base),
                 l.(counts := if success then counts.(deleted := counts.deleted + 1)
                              else counts.(failed := counts.failed + 1),
                    cancelled := l.cancelled || cancelled, published := counts))
  {
    var run := RunRow(Running, counts, Some(key.thread), plan.limit);
    ghost var before, history := store.rows, store.history;
    PublishCurrent(plan, Since(history, base), l, store.Abs());
    SincePush(history, base, Did(UpdateRun(plan.job, run), store.Abs()));
    store.UpdateRunRow(plan.job, run);
    history := store.history;
    success, cancelled := DeleteCompletely(store, plan, quiet, key.thread);
    DeleteIt(plan, Since(history, base), l.(published := counts), key.thread, success, cancelled);
    SincePush(history, base, Deleted(key.thread, success, cancelled));
    now := Later(clock);
    InterferenceKeepsInv(start, before, store.rows, plan.cutoff, since, clock, now, plan.job, quiet, cursor, returned);
  }

  /** The next page query: past the cursor, or nothing awaited is left. */
  method NextPage(store: Store, plan: Plan, quiet: set<ThreadId>, pageSize: nat, cursor: Option<Key>,
                  clock: Time, ghost since: Time, ghost start: Rows, ghost returned: seq<Key>)
    returns (page: seq<Key>, now: Time)
    requires LoopInv(start, store.rows, plan.cutoff, since, clock, plan.job, quiet, cursor, returned)
    modifies store
    ensures store.history == old(store.history) + [Paged(page)]
    ensures page == [] ==>
              && LoopInv(start, store.rows, plan.cutoff, since, now, plan.job, quiet, cursor, returned)
              && forall k :: k in EligibleKeys(start, plan.cutoff, since, quiet) ==> k in returned
    ensures page != [] ==>
              && LoopInv(start, store.rows, plan.cutoff, since, now, plan.job, quiet, Some(page[|page| - 1]),
                         returned + page)
              && Ahead(start, plan.cutoff, Some(page[|page| - 1])) < Ahead(start, plan.cutoff, cursor)
  {
    ghost var before := store.rows;
    Interfere(store, plan.cutoff, plan.job, quiet);
    now := Later(clock);
    InterferenceKeepsInv(start, before, store.rows, plan.cutoff, since, clock, now, plan.job, quiet, cursor, returned);
    page := store.CandidateRows(plan.cutoff, pageSize, cursor, now);
    store.history := store.history + [Paged(page)];
    if page != [] {
      assert page[|page| - 1] in page;
      PageKeepsInv(start, store.rows, plan.cutoff, since, now, plan.job, quiet, cursor, returned, page,
                   AtLeastOne(pageSize));
      assert page[|page| - 1] in Below(store.rows, plan.cutoff);
      PageAdvances(start, plan.cutoff, cursor, page[|page| - 1]);
    }
  }

  function Done(plan: Plan, work: Work): nat { if plan.dryRun then work.dryRunEligible else work.counts.deleted }

  predicate WorkOk(plan: Plan, work: Work) {
    && work.counts.deleted <= plan.limit && work.dryRunEligible <= work.counts.skipped
    && (plan.dryRun ==> work.counts.deleted == 0)
  }

  /** Skipped, or counted by a dry run. */
  function Passed(l: Ledger, skip: bool): Ledger { if skip then Skip(l) else Skip(l).(eligible := l.eligible + 1) }

  /** The questions about a candidate: whether it is to be left alone. */
  method AskAbout(store: Store, plan: Plan, t: ThreadId, ghost base: seq<Act>, ghost l: Ledger) returns (skip: bool)
    requires Logged(plan, store.history, base, l) && MayGoOn(plan, store.history, base)
    requires Progress(plan, l) < plan.limit && NextUp(l, t) && l.batch < AtLeastOne(plan.settings.batchSize)
    modifies store`history
    ensures Logged(plan, store.history, base, if skip || plan.dryRun then Passed(l, skip) else l)
    ensures NotLooking(store.history, base)
    ensures var last := store.history[|store.history| - 1]; !skip ==> Cleared(plan, last) && last.thread == t
  {
    ghost var history := store.history;
    skip := AskRunning(store, t);
    AskFirst(plan, Since(history, base), l, t, skip);
    SincePush(history, base, SawRunning(t, skip));
    if !skip && plan.settings.protectScheduled {
      history := store.history;
      skip := AskScheduled(store, t);
      AskNext(plan, Since(history, base), l, t, skip);
      SincePush(history, base, SawScheduled(t, skip));
    }
  }

  /** One candidate: skipped, counted by a dry run, or claimed and deleted. */
  method HandleCandidate(store: Store, plan: Plan, quiet: set<ThreadId>, key: Key, work: Work, clock: Time,
                         ghost since: Time, ghost start: Rows, ghost cursor: Option<Key>, ghost returned: seq<Key>,
                         ghost base: seq<Act>, ghost l: Ledger)
    returns (next: Work, cancelled: bool, now: Time, ghost after: Ledger)
    requires LoopInv(start, store.rows, plan.cutoff, since, clock, plan.job, quiet, cursor, returned)
    requires key in returned && WorkOk(plan, work) && Done(plan, work) < plan.limit
    requires Logged(plan, store.history, base, l) && MayGoOn(plan, store.history, base) && Matches(l, work, returned)
    requires NextUp(l, key.thread) && l.batch < AtLeastOne(plan.settings.batchSize) && !l.cancelled
    modifies store
    ensures LoopInv(start, store.rows, plan.cutoff, since, now, plan.job, quiet, cursor, returned)
    ensures Logged(plan, store.history, base, after) && NotLooking(store.history, base)
    ensures Matches(after, next, returned) && after.cancelled == cancelled
    ensures !cancelled ==> after.batch < AtLeastOne(plan.settings.batchSize)
    ensures WorkOk(plan, next)
    ensures next.counts.scanned == work.counts.scanned && next.counts.Handled() == work.counts.Handled() + 1
  {
    now, next, cancelled, after := clock, work, false, l;
    var leave := AskAbout(store, plan, key.thread, base, l);
    if leave || plan.dryRun {
      next := work.(counts := work.counts.(skipped := work.counts.skipped + 1),
                    dryRunEligible := if leave then work.dryRunEligible else work.dryRunEligible + 1);
      after := Passed(l, leave);
      return;
    }
    var claimed;
    claimed, now := TryClaim(store, plan, quiet, key, clock, since, start, cursor, returned, base, l);
    if !claimed {
      next := work.(counts := work.counts.(skipped := work.counts.skipped + 1));
      after := Skip(l);
      return;
    }
    var counts;
    after := l.(batch := l.batch + 1);
    counts, cancelled, now := DeleteClaimed(store, plan, quiet, key, work.counts, now, since, start, cursor, returned,
                                            base, after);
    after := after.(counts := counts, cancelled := cancelled, published := work.counts);
    next := work.(counts := counts, batchWork := work.batchWork + 1);
    if !cancelled && next.batchWork >= plan.settings.batchSize {
      next, after := RenewAfterBatch(store, plan, next, now, base, after);
    }
  }

  /** The claim, after whatever others do first. */
  method TryClaim(store: Store, plan: Plan, quiet: set<ThreadId>, key: Key, clock: Time, ghost since: Time,
                  ghost start: Rows, ghost cursor: Option<Key>, ghost returned: seq<Key>, ghost base: seq<Act>,
                  ghost l: Ledger)
    returns (claimed: bool, now: Time)
    requires LoopInv(start, store.rows, plan.cutoff, since, clock, plan.job, quiet, cursor, returned)
    requires key in returned && !plan.dryRun && base < store.history && Kept(plan, Since(store.history, base), l)
    requires var last := store.history[|store.history| - 1]; Cleared(plan, last) && last.thread == key.thread
    modifies store
    ensures LoopInv(start, store.rows, plan.cutoff, since, now, plan.job, quiet, cursor, returned)
    ensures base < store.history
    ensures var last := store.history[|store.history| - 1];
      if claimed
      then && Won(last) && last.step.thread == key.thread
           && Kept(plan, Since(store.history, base), l.(batch := l.batch + 1))
      else Logged(plan, store.history, base, Skip(l)) && NotLooking(store.history, base)
  {
    ghost var before := store.rows;
    Interfere(store, plan.cutoff, plan.job, quiet);
    now := Later(clock);
    InterferenceKeepsInv(start, before, store.rows, plan.cutoff, since, clock, now, plan.job, quiet, cursor, returned);
    before := store.rows;
    ghost var history, met := store.history, store.Abs();
    claimed := store.ClaimThread(key.thread, plan.cutoff, plan.job, now);
    ClaimIt(plan, Since(history, base), l, key.thread, now, met);
    SincePush(history, base, Did(Claim(key.thread, plan.job, plan.cutoff, now), met));
    OwnStepKeepsInv(start, before, store.rows, plan.cutoff, since, now, plan.job, quiet, cursor, returned, key.thread);
  }

  /** The renewal after a batch, and the published counts. */
  method RenewAfterBatch(store: Store, plan: Plan, work: Work, now: Time, ghost base: seq<Act>, ghost l: Ledger)
    returns (next: Work, ghost after: Ledger)
    requires Logged(plan, store.history, base, l) && 0 < l.batch && plan.settings.batchSize <= l.batch
    requires work.counts == l.counts && work.lostLease == l.refused
    modifies store
    ensures store.rows == old(store.rows) && Logged(plan, store.history, base, after) && NotLooking(store.history, base)
    ensures next == work.(batchWork := 0, lostLease := next.lostLease)
    ensures after == l.(batch := 0, refused := next.lostLease, published := l.counts)
  {
    ghost var history, met := store.history, store.Abs();
    var renewed := store.RenewJobLease(plan.job, now);
    next := work.(batchWork := 0, lostLease := work.lostLease || !renewed);
    RenewIt(plan, Since(history, base), l, now, met);
    SincePush(history, base, Did(RenewLease(plan.job, now), met));
    after := l.(batch := 0, refused := next.lostLease);
    Publish(store, plan, next.counts, base, after);
    after := after.(published := l.counts);
  }

  /** The run row's counts, between candidates. */
  method Publish(store: Store, plan: Plan, counts: Counts, ghost base: seq<Act>, ghost l: Ledger)
    requires base <= store.history && Kept(plan, Since(store.history, base), l) && counts == l.counts
    requires var acts := Since(store.history, base);
      Settled(plan, acts) || (acts != [] && acts[|acts| - 1].Did? && acts[|acts| - 1].step.RenewLease?)
    modifies store
    ensures store.rows == old(store.rows)
    ensures Logged(plan, store.history, base, l.(published := counts)) && NotLooking(store.history, base)
  {
    var run := RunRow(Running, counts, None, plan.limit);
    ghost var history, met := store.history, store.Abs();
    store.UpdateRunRow(plan.job, run);
    PublishCounts(plan, Since(history, base), l, met);
    SincePush(history, base, Did(UpdateRun(plan.job, run), met));
  }

  /** The `for` loop over one page; stops at the limit, or when interrupted. */
  method HandlePage(store: Store, plan: Plan, quiet: set<ThreadId>, page: seq<Key>, work: Work, clock: Time,
                    ghost since: Time, ghost start: Rows, ghost cursor: Option<Key>, ghost returned: seq<Key>,
                    ghost base: seq<Act>, ghost l: Ledger)
    returns (next: Work, interrupted: bool, status: Status, now: Time, ghost after: Ledger)
    requires LoopInv(start, store.rows, plan.cutoff, since, clock, plan.job, quiet, cursor, returned)
    requires WorkOk(plan, work) && |page| <= |returned| && page == returned[|returned| - |page|..]
    requires work.counts.scanned == |returned| == work.counts.Handled() + |page|
    requires Logged(plan, store.history, base, l) && NotLooking(store.history, base)
    requires Matches(l, work, returned) && !l.cancelled && l.batch < AtLeastOne(plan.settings.batchSize)
    modifies store
    ensures LoopInv(start, store.rows, plan.cutoff, since, now, plan.job, quiet, cursor, returned)
    ensures WorkOk(plan, next) && next.counts.scanned == work.counts.scanned >= next.counts.Handled()
    ensures Logged(plan, store.history, base, after) && Matches(after, next, returned)
    ensures interrupted ==> CutShortBy(plan, Since(store.history, base)) == Some(status)
    ensures !interrupted ==> !after.cancelled && after.batch < AtLeastOne(plan.settings.batchSize)
    ensures !interrupted && Done(plan, next) < plan.limit ==> next.counts.scanned == next.counts.Handled()
  {
    next, interrupted, status, now, after := work, false, Running, clock, l;
    var i := 0;
    while i < |page| && Done(plan, next) < plan.limit
      invariant i <= |page| && !interrupted
      invariant LoopInv(start, store.rows, plan.cutoff, since, now, plan.job, quiet, cursor, returned)
      invariant WorkOk(plan, next) && next.counts.scanned == work.counts.scanned
      invariant next.counts.scanned == next.counts.Handled() + (|page| - i)
      invariant Logged(plan, store.history, base, after) && Matches(after, next, returned)
      invariant !after.cancelled && after.batch < AtLeastOne(plan.settings.batchSize)
    {
      assert page[i] == returned[|returned| - |page| + i];
      next, interrupted, status, now, after := LookAndHandle(store, plan, quiet, page[i], next, now, since, start,
                                                             cursor, returned, base, after);
      if interrupted { return; }
      i := i + 1;
    }
  }

  /** One turn of that loop: the checks, and the candidate unless they interrupt. */
  method LookAndHandle(store: Store, plan: Plan, quiet: set<ThreadId>, key: Key, work: Work, clock: Time,
                       ghost since: Time, ghost start: Rows, ghost cursor: Option<Key>, ghost returned: seq<Key>,
                       ghost base: seq<Act>, ghost l: Ledger)
    returns (next: Work, interrupted: bool, status: Status, now: Time, ghost after: Ledger)
    requires LoopInv(start, store.rows, plan.cutoff, since, clock, plan.job, quiet, cursor, returned)
    requires key in returned && WorkOk(plan, work) && Done(plan, work) < plan.limit
    requires Logged(plan, store.history, base, l) && Matches(l, work, returned)
    requires NextUp(l, key.thread) && l.batch < AtLeastOne(plan.settings.batchSize) && !l.cancelled
    modifies store
    ensures LoopInv(start, store.rows, plan.cutoff, since, now, plan.job, quiet, cursor, returned)
    ensures WorkOk(plan, next) && next.counts.scanned == work.counts.scanned
    ensures Logged(plan, store.history, base, after) && Matches(after, next, returned)
    ensures interrupted ==> CutShortBy(plan, Since(store.history, base)) == Some(status)
    ensures work.counts.Handled() <= next.counts.Handled() <= work.counts.Handled() + 1
    ensures !interrupted ==>
              && next.counts.Handled() == work.counts.Handled() + 1
              && !after.cancelled && after.batch < AtLeastOne(plan.settings.batchSize)
  {
    interrupted, status := LookAround(store, plan, work.lostLease, base, l);
    if interrupted {
      next, now, after := work, clock, l;
    } else {
      next, interrupted, now, after := HandleCandidate(store, plan, quiet, key, work, clock, since, start, cursor,
                                                       returned, base, l);
      status := Cancelled;
    }
  }

  /** The next page, noted. */
  method TurnPage(store: Store, plan: Plan, quiet: set<ThreadId>, pageSize: nat, cursor: Option<Key>,
                  clock: Time, ghost since: Time, ghost start: Rows, ghost returned: seq<Key>,
                  ghost base: seq<Act>, ghost l: Ledger)
    returns (page: seq<Key>, now: Time, ghost after: Ledger)
    requires LoopInv(start, store.rows, plan.cutoff, since, clock, plan.job, quiet, cursor, returned)
    requires Logged(plan, store.history, base, l) && MayGoOn(plan, store.history, base) && l.listed == returned
    requires Progress(plan, l) < plan.limit && l.published == l.counts && l.counts.Handled() == |returned|
    modifies store
    ensures page == [] ==>
              && LoopInv(start, store.rows, plan.cutoff, since, now, plan.job, quiet, cursor, returned)
              && forall k :: k in EligibleKeys(start, plan.cutoff, since, quiet) ==> k in returned
    ensures page != [] ==>
              && LoopInv(start, store.rows, plan.cutoff, since, now, plan.job, quiet, Some(page[|page| - 1]),
                         returned + page)
              && Ahead(start, plan.cutoff, Some(page[|page| - 1])) < Ahead(start, plan.cutoff, cursor)
    ensures Logged(plan, store.history, base, after) && NotLooking(store.history, base)
    ensures after == l.(listed := returned + page, counts := l.counts.(scanned := l.counts.scanned + |page|))
  {
    ghost var history := store.history;
    page, now := NextPage(store, plan, quiet, pageSize, cursor, clock, since, start, returned);
    TakePage(plan, Since(history, base), l, page);
    SincePush(history, base, Paged(page));
    after := l.(listed := returned + page, counts := l.counts.(scanned := l.counts.scanned + |page|));
  }

  /** How one turn of the loop went. */
  datatype Turn = Stopped(status: Status) | Exhausted | Continued

  /** Where the loop stands after a turn. */
  ghost predicate Standing(plan: Plan, history: seq<Act>, base: seq<Act>, l: Ledger, work: Work, returned: seq<Key>) {
    && Logged(plan, history, base, l) && Matches(l, work, returned) && WorkOk(plan, work)
    && work.counts.scanned == |returned| >= work.counts.Handled()
  }

  /** Why it stands there. */
  ghost predicate Verdict(plan: Plan, history: seq<Act>, base: seq<Act>, l: Ledger, stopped: Option<Status>,
                          exhausted: bool)
    requires base <= history
  {
    if stopped.Some? then CutShortBy(plan, Since(history, base)) == stopped && !exhausted
    else !l.cancelled && (|history| == |base| || NotLooking(history, base))
  }

  /** Nothing is left of the last page, unless the limit is reached. */
  ghost predicate Ready(plan: Plan, l: Ledger, work: Work) {
    && l.published == l.counts && l.batch < AtLeastOne(plan.settings.batchSize)
    && (Done(plan, work) < plan.limit ==> work.counts.scanned == work.counts.Handled())
  }

  ghost predicate TurnDone(plan: Plan, history: seq<Act>, base: seq<Act>, l: Ledger, work: Work, turn: Turn)
    requires base <= history
  {
    match turn
    case Stopped(status) => CutShortBy(plan, Since(history, base)) == Some(status)
    case Exhausted => NotLooking(history, base) && !l.cancelled && work.counts.scanned == work.counts.Handled()
    case Continued => NotLooking(history, base) && !l.cancelled && Ready(plan, l, work)
  }

  function Why(turn: Turn): Option<Status> { if turn.Stopped? then Some(turn.status) else None }

  lemma TurnVerdict(plan: Plan, history: seq<Act>, base: seq<Act>, l: Ledger, work: Work, turn: Turn)
    requires base <= history && TurnDone(plan, history, base, l, work, turn)
    ensures Verdict(plan, history, base, l, Why(turn), turn.Exhausted?)
    ensures Why(turn).None? && !turn.Exhausted? ==> Ready(plan, l, work)
    ensures turn.Exhausted? ==> work.counts.scanned == work.counts.Handled()
  {
  }

  lemma LoopBegins(rows: Rows, cutoff: Time, since: Time, job: JobId, quiet: set<ThreadId>)
    requires forall t :: t in rows ==> rows[t].claimedBy != Some(job)
    ensures LoopInv(rows, rows, cutoff, since, since, job, quiet, None, [])
  {
  }

  lemma LogBegins(plan: Plan, history: seq<Act>)
    ensures Standing(plan, history, history, Blank(), Work(Zero(), 0, 0, false), [])
    ensures Verdict(plan, history, history, Blank(), None, false) && Ready(plan, Blank(), Work(Zero(), 0, 0, false))
  {
    assert Since(history, history) == [];
  }

  /** One turn: the checks, the next page, and its candidates. */
  method OneTurn(store: Store, plan: Plan, quiet: set<ThreadId>, pageSize: nat, cursor: Option<Key>,
                 returned: seq<Key>, work: Work, clock: Time, ghost since: Time, ghost start: Rows,
                 ghost base: seq<Act>, ghost l: Ledger)
    returns (turn: Turn, next: Work, last: Option<Key>, all: seq<Key>, now: Time, ghost after: Ledger)
    requires LoopInv(start, store.rows, plan.cutoff, since, clock, plan.job, quiet, cursor, returned)
    requires Standing(plan, store.history, base, l, work, returned)
    requires Ready(plan, l, work) && Done(plan, work) < plan.limit && !l.cancelled
    modifies store
    ensures LoopInv(start, store.rows, plan.cutoff, since, now, plan.job, quiet, last, all)
    ensures Standing(plan, store.history, base, after, next, all)
    ensures TurnDone(plan, store.history, base, after, next, turn)
    ensures turn.Exhausted? ==> forall k :: k in EligibleKeys(start, plan.cutoff, since, quiet) ==> k in all
    ensures turn.Continued? ==> Ahead(start, plan.cutoff, last) < Ahead(start, plan.cutoff, cursor)
  {
    next, last, all, now, after := work, cursor, returned, clock, l;
    var interrupted, status := LookAround(store, plan, work.lostLease, base, l);
    if interrupted { turn := Stopped(status); return; }
    var page;
    page, now, after := TurnPage(store, plan, quiet, pageSize, cursor, clock, since, start, returned, base, l);
    if page == [] {
      assert returned + page == returned;
      turn := Exhausted;
      return;
    }
    last, all := Some(page[|page| - 1]), returned + page;
    next := work.(counts := work.counts.(scanned := |all|));
    turn, next, now, after := TurnCandidates(store, plan, quiet, page, next, now, since, start, last, all, base, after);
  }

  /** The candidates of a page, and the published counts. */
  method TurnCandidates(store: Store, plan: Plan, quiet: set<ThreadId>, page: seq<Key>, work: Work, clock: Time,
                        ghost since: Time, ghost start: Rows, ghost last: Option<Key>, ghost all: seq<Key>,
                        ghost base: seq<Act>, ghost l: Ledger)
    returns (turn: Turn, next: Work, now: Time, ghost after: Ledger)
    requires LoopInv(start, store.rows, plan.cutoff, since, clock, plan.job, quiet, last, all)
    requires WorkOk(plan, work) && |page| <= |all| && page == all[|all| - |page|..]
    requires work.counts.scanned == |all| == work.counts.Handled() + |page|
    requires Logged(plan, store.history, base, l) && NotLooking(store.history, base)
    requires Matches(l, work, all) && !l.cancelled && l.batch < AtLeastOne(plan.settings.batchSize)
    modifies store
    ensures !turn.Exhausted? && LoopInv(start, store.rows, plan.cutoff, since, now, plan.job, quiet, last, all)
    ensures Standing(plan, store.history, base, after, next, all)
    ensures TurnDone(plan, store.history, base, after, next, turn)
  {
    var interrupted, status;
    next, interrupted, status, now, after := HandlePage(store, plan, quiet, page, work, clock, since, start, last, all,
                                                        base, l);
    if interrupted {
      turn := Stopped(status);
    } else {
      Publish(store, plan, next.counts, base, after);
      after := after.(published := after.counts);
      turn := Continued;
    }
  }

  /** The `while` loop of `_execute_run`: stopped with a status, or done. */
  method Turns(store: Store, plan: Plan, quiet: set<ThreadId>, since: Time)
    returns (stopped: Option<Status>, exhausted: bool, work: Work, returned: seq<Key>, cursor: Option<Key>,
             now: Time, ghost l: Ledger)
    requires forall t :: t in store.rows ==> store.rows[t].claimedBy != Some(plan.job)
    modifies store
    ensures LoopInv(old(store.rows), store.rows, plan.cutoff, since, now, plan.job, quiet, cursor, returned)
    ensures Standing(plan, store.history, old(store.history), l, work, returned)
    ensures Verdict(plan, store.history, old(store.history), l, stopped, exhausted)
    ensures stopped.None? ==> exhausted || Done(plan, work) >= plan.limit
    ensures exhausted ==> work.counts.scanned == work.counts.Handled()
    ensures exhausted ==>
              forall k :: k in EligibleKeys(old(store.rows), plan.cutoff, since, quiet) ==> k in returned
  {
    ghost var start, base := store.rows, store.history;
    stopped, exhausted, work, returned := None, false, Work(Zero(), 0, 0, false), [];
    var pageSize := AtLeastOne(plan.settings.batchSize);
    l, cursor, now := Blank(), None, since;
    LoopBegins(start, plan.cutoff, since, plan.job, quiet);
    LogBegins(plan, base);
    while stopped.None? && !exhausted && Done(plan, work) < plan.limit
      invariant LoopInv(start, store.rows, plan.cutoff, since, now, plan.job, quiet, cursor, returned)
      invariant Standing(plan, store.history, base, l, work, returned)
      invariant Verdict(plan, store.history, base, l, stopped, exhausted)
      invariant stopped.None? && !exhausted ==> Ready(plan, l, work)
      invariant exhausted ==> work.counts.scanned == work.counts.Handled()
      invariant exhausted ==> forall k :: k in EligibleKeys(start, plan.cutoff, since, quiet) ==> k in returned
      decreases stopped.None? && !exhausted, Ahead(start, plan.cutoff, cursor)
    {
      var turn;
      turn, work, cursor, returned, now, l := OneTurn(store, plan, quiet, pageSize, cursor, returned, work, now,
                                                          since, start, base, l);
      TurnVerdict(plan, store.history, base, l, work, turn);
      stopped, exhausted := Why(turn), turn.Exhausted?;
    }
  }

  /** The loop and the status it comes to. `acts` is what the job did and saw in it. */
  method DeletionLoop(store: Store, plan: Plan, quiet: set<ThreadId>, since: Time)
    returns (out: Outcome, ghost acts: seq<Act>)
    requires forall t :: t in store.rows ==> store.rows[t].claimedBy != Some(plan.job)
    modifies store
    ensures Paging(plan, old(store.rows), quiet, since, out) && Accounted(plan, out, acts)
    ensures store.history == old(store.history) + acts
  {
    var stopped, exhausted, work, returned, cursor, now;
    ghost var l;
    stopped, exhausted, work, returned, cursor, now, l := Turns(store, plan, quiet, since);
    var status := if work.counts.failed == 0 then Completed else CompletedWithErrors;
    out := Outcome(stopped.GetOr(status), exhausted, work.counts, returned);
    acts := Since(store.history, old(store.history));
    SinceJoins(store.history, old(store.history));
    PagesDone(plan, old(store.rows), store.rows, quiet, since, now, cursor, out);
    StandingIsAccounted(plan, store.history, old(store.history), l, work, stopped, out);
  }

  lemma StandingIsAccounted(plan: Plan, history: seq<Act>, base: seq<Act>, l: Ledger, work: Work,
                            stopped: Option<Status>, out: Outcome)
    requires Standing(plan, history, base, l, work, out.returned)
    requires Verdict(plan, history, base, l, stopped, out.exhausted)
    requires stopped.None? ==> out.exhausted || Done(plan, work) >= plan.limit
    requires out.exhausted ==> work.counts.scanned == work.counts.Handled()
    requires out.counts == work.counts
    requires out.status == stopped.GetOr(if work.counts.failed == 0 then Completed else CompletedWithErrors)
    ensures Accounted(plan, out, Since(history, base))
  {
    if stopped.Some? {
      StoppedIsAccounted(plan, Since(history, base), l, work, out);
    } else {
      NotCutShort(plan, history, base, l);
      EndedIsAccounted(plan, Since(history, base), l, work, out);
    }
  }

  lemma StoppedIsAccounted(plan: Plan, acts: seq<Act>, l: Ledger, work: Work, out: Outcome)
    requires Kept(plan, acts, l) && Settled(plan, acts) && Matches(l, work, out.returned) && WorkOk(plan, work)
    requires CutShortBy(plan, acts) == Some(out.status) && !out.exhausted && out.counts == work.counts
    requires work.counts.scanned == |out.returned| >= work.counts.Handled()
    ensures Accounted(plan, out, acts)
  {
  }

  lemma NotCutShort(plan: Plan, history: seq<Act>, base: seq<Act>, l: Ledger)
    requires base <= history && Books(plan, Since(history, base)) == l && !l.cancelled
    requires |history| == |base| || NotLooking(history, base)
    ensures CutShortBy(plan, Since(history, base)) == None
  {
    var acts := Since(history, base);
    if |history| != |base| { assert acts[|acts| - 1] == history[|history| - 1]; }
  }

  lemma EndedIsAccounted(plan: Plan, acts: seq<Act>, l: Ledger, work: Work, out: Outcome)
    requires Kept(plan, acts, l) && Settled(plan, acts) && Matches(l, work, out.returned) && WorkOk(plan, work)
    requires CutShortBy(plan, acts) == None
    requires out.counts == work.counts && (out.exhausted || Done(plan, work) >= plan.limit)
    requires out.status == if work.counts.failed == 0 then Completed else CompletedWithErrors
    requires work.counts.scanned == |out.returned| >= work.counts.Handled()
    requires out.exhausted ==> work.counts.scanned == work.counts.Handled()
    ensures Accounted(plan, out, acts)
  {
  }

  lemma PagesDone(plan: Plan, start: Rows, rows: Rows, quiet: set<ThreadId>, since: Time, now: Time,
                  cursor: Option<Key>, out: Outcome)
    requires LoopInv(start, rows, plan.cutoff, since, now, plan.job, quiet, cursor, out.returned)
    requires out.exhausted ==>
               forall k :: k in EligibleKeys(start, plan.cutoff, since, quiet) ==> k in out.returned
    ensures Paging(plan, start, quiet, since, out)
  {
    ReturnedOnceForAll(start, plan.cutoff, out.returned);
  }

  lemma ReturnedOnceForAll(start: Rows, cutoff: Time, returned: seq<Key>)
    requires Ascending(returned, KeyLess)
    requires forall k :: k in returned ==> k in Below(start, cutoff)
    ensures forall i, j :: 0 <= i < j < |returned| ==> returned[i].thread != returned[j].thread
  {
    forall i, j | 0 <= i < j < |returned| ensures returned[i].thread != returned[j].thread {
      ReturnedOnce(start, cutoff, returned, i, j);
    }
  }

  /** The table steps among these acts. */
  function Steps(acts: seq<Act>): seq<Step> {
    if acts == [] then []
    else Steps(acts[..|acts| - 1]) + if acts[|acts| - 1].Did? then [acts[|acts| - 1].step] else []
  }

  /** What a job does before its loop: the run is running, and unless it is a scheduled one, one backfill
      call. */
  function Opening(plan: Plan, scheduled: bool, worker: int, clock: Time): seq<Step> {
    [UpdateRun(plan.job, RunRow(Running, Zero(), None, plan.limit))]
    + if scheduled then [] else [BackfillRead(worker, 500)] + [BackfillWrite(worker, clock)]
  }

  /** And after it: the final row, if that write succeeds, and the end of its lease. */
  function Closing(plan: Plan, out: Outcome, lastWriteRaises: bool, clock: Time): seq<Step> {
    (if lastWriteRaises then []
     else [UpdateRun(plan.job, RunRow(out.status, out.counts, None, plan.limit).(completedAt := Some(clock)))])
    + [ReleaseLease(plan.job)]
  }

  /** The rows the loop finds. */
  ghost function RowsAtLoop(s: State, plan: Plan, scheduled: bool, worker: int, clock: Time): Rows {
    var running := Apply(s, UpdateRun(plan.job, RunRow(Running, Zero(), None, plan.limit)));
    if scheduled then running.rows
    else Apply(Apply(running, BackfillRead(worker, 500)), BackfillWrite(worker, clock)).rows
  }

  lemma StepsPush(acts: seq<Act>, step: Step, met: State)
    ensures Steps(acts + [Did(step, met)]) == Steps(acts) + [step]
  {
    assert (acts + [Did(step, met)])[..|acts|] == acts;
  }

  /** `_execute_run` after its lease and run row exist: the loop, then the final write and the
      release, which happen however the loop ended. Only an exception in the very first status write
      escapes them: then nothing ran and the lease stays with the job until it expires. */
  method ExecuteRun(store: Store, plan: Plan, scheduled: bool, quiet: set<ThreadId>, clock: Time, worker: int,
                    firstWriteRaises: bool, lastWriteRaises: bool)
    returns (out: Option<Outcome>, ghost opening: seq<Act>, ghost acts: seq<Act>, ghost closing: seq<Act>)
    requires worker !in store.batches      // the number of its own backfill call
    requires forall t :: t in store.rows ==> store.rows[t].claimedBy != Some(plan.job)
    modifies store
    ensures out.None? <==> firstWriteRaises
    ensures out.None? ==> store.Abs() == old(store.Abs()) && store.history == old(store.history)
    // its history is the opening, the loop's acts and the closing
    ensures out.Some? ==>
              && store.history == old(store.history) + opening + acts + closing
              && Steps(opening) == Opening(plan, scheduled, worker, clock)
              && Paging(plan, RowsAtLoop(old(store.Abs()), plan, scheduled, worker, clock), quiet, clock, out.value)
              && Accounted(plan, out.value, acts)
              && Steps(closing) == Closing(plan, out.value, lastWriteRaises, clock)
    ensures out.Some? ==> Final(out.value.status) && !LeaseHeldBy(store.lease, plan.job)
    ensures out.Some? && !lastWriteRaises && plan.job in store.runs ==>
              store.runs[plan.job].status == Abandoned
              || (store.runs[plan.job].status == out.value.status && store.runs[plan.job].current == None
                  && store.runs[plan.job].deleted == out.value.counts.deleted)
  {
    opening, acts, closing := [], [], [];
    if firstWriteRaises { return None, opening, acts, closing; }
    opening := Open(store, plan, scheduled, clock, worker);
    ghost var begun := store.history;
    var loop;
    loop, acts := DeletionLoop(store, plan, quiet, clock);
    closing := Close(store, plan, loop, clock, lastWriteRaises);
    out := Some(loop);
    assert store.history == old(store.history) + opening + acts + closing;
    AccountedIsFinal(plan, loop, acts);
  }

  lemma AccountedIsFinal(plan: Plan, out: Outcome, acts: seq<Act>)
    requires Accounted(plan, out, acts)
    ensures Final(out.status)
  {
  }

  method Open(store: Store, plan: Plan, scheduled: bool, clock: Time, worker: int) returns (ghost opening: seq<Act>)
    requires worker !in store.batches && forall t :: t in store.rows ==> store.rows[t].claimedBy != Some(plan.job)
    modifies store
    ensures store.history == old(store.history) + opening
    ensures Steps(opening) == Opening(plan, scheduled, worker, clock)
    ensures store.rows == RowsAtLoop(old(store.Abs()), plan, scheduled, worker, clock)
    ensures forall t :: t in store.rows ==> store.rows[t].claimedBy != Some(plan.job)
  {
    var running := RunRow(Running, Zero(), None, plan.limit);
    ghost var first := [Did(UpdateRun(plan.job, running), store.Abs())];
    StepsPush([], UpdateRun(plan.job, running), store.Abs());
    store.UpdateRunRow(plan.job, running);
    opening := first;
    if !scheduled {
      ghost var met := store.Abs();
      var _ := store.BackfillActivity(worker, 500, clock);
      ghost var after := Apply(met, BackfillRead(worker, 500));
      StepsPush(first, BackfillRead(worker, 500), met);
      StepsPush(first + [Did(BackfillRead(worker, 500), met)], BackfillWrite(worker, clock), after);
      opening := first + [Did(BackfillRead(worker, 500), met)] + [Did(BackfillWrite(worker, clock), after)];
      BackfillClaimsNothing(met, worker, 500, clock, plan.job);
    }
  }

  method Close(store: Store, plan: Plan, loop: Outcome, clock: Time, lastWriteRaises: bool)
    returns (ghost closing: seq<Act>)
    modifies store
    ensures store.history == old(store.history) + closing
    ensures Steps(closing) == Closing(plan, loop, lastWriteRaises, clock)
    ensures !LeaseHeldBy(store.lease, plan.job)
    ensures !lastWriteRaises && plan.job in store.runs ==>
              store.runs[plan.job].status == Abandoned
              || (store.runs[plan.job].status == loop.status && store.runs[plan.job].current == None
                  && store.runs[plan.job].deleted == loop.counts.deleted)
  {
    closing := [];
    if !lastWriteRaises {
      var final := RunRow(loop.status, loop.counts, None, plan.limit).(completedAt := Some(clock));
      closing := [Did(UpdateRun(plan.job, final), store.Abs())];
      StepsPush([], UpdateRun(plan.job, final), store.Abs());
      store.UpdateRunRow(plan.job, final);
    }
    StepsPush(closing, ReleaseLease(plan.job), store.Abs());
    closing := closing + [Did(ReleaseLease(plan.job), store.Abs())];
    store.ReleaseJobLease(plan.job);
  }

  lemma InsertClaimsNothing(rows: Rows, checkpoints: map<ThreadId, Option<Time>>, batch: Batch, now: Time, job: JobId)
    requires forall t :: t in rows ==> rows[t].claimedBy != Some(job)
    ensures forall t :: t in InsertBatch(rows, checkpoints, batch, now) ==>
              InsertBatch(rows, checkpoints, batch, now)[t].claimedBy != Some(job)
  {
  }

  lemma WriteClaimsNothing(s: State, worker: int, now: Time, job: JobId)
    requires forall t :: t in s.rows ==> s.rows[t].claimedBy != Some(job)
    ensures forall t :: t in Apply(s, BackfillWrite(worker, now)).rows ==>
              Apply(s, BackfillWrite(worker, now)).rows[t].claimedBy != Some(job)
  {
    if worker in s.batches && s.batches[worker] != [] {
      InsertClaimsNothing(s.rows, s.checkpoints, s.batches[worker], now, job);
    }
  }

  lemma ReadChangesNoRow(s: State, worker: int, limit: int)
    ensures Apply(s, BackfillRead(worker, limit)).rows == s.rows
  {
  }

  lemma BackfillClaimsNothing(s: State, worker: int, limit: int, now: Time, job: JobId)
    requires forall t :: t in s.rows ==> s.rows[t].claimedBy != Some(job)
    ensures var s' := Apply(Apply(s, BackfillRead(worker, limit)), BackfillWrite(worker, now));
      forall t :: t in s'.rows ==> s'.rows[t].claimedBy != Some(job)
  {
    ReadChangesNoRow(s, worker, limit);
    WriteClaimsNothing(Apply(s, BackfillRead(worker, limit)), worker, now, job);
  }
}
