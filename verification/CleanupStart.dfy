/** Starting a cleanup run (`start_run`): the job lease, the quiet-period check and the run row, with an
    exception possible at each statement and everybody else acting at every await. */
module CleanupStart {
  import opened Common
  import opened CleanupState
  import opened CleanupStore
  import opened CleanupLog
  import opened CleanupOthers
  import opened CleanupRun

  datatype StartResult = AlreadyRunning(owner: Option<JobId>) | CheckRaised | Deferred | StartFailed
                       | Started(limit: nat, cutoff: Time)

  /** Where an exception can come from: the quiet-period check, the insert of the run row, the creation
      of the loop after it, and the write that records such a failure. */
  datatype Faults = Faults(check: bool, insert: bool, create: bool, record: bool)

  ghost predicate RecentActivity(rows: Rows, since: Time) {
    exists t :: t in rows && rows[t].last > since
  }

  method LatestActivity(store: Store) returns (latest: Option<Time>)
    ensures latest.None? <==> store.rows == map[]
    ensures latest.Some? ==> forall t :: t in store.rows ==> store.rows[t].last <= latest.value
    ensures latest.Some? ==> exists t :: t in store.rows && store.rows[t].last == latest.value
  {
    latest := None;
    var todo := store.rows.Keys;
    while todo != {}
      invariant todo <= store.rows.Keys
      invariant latest.None? <==> todo == store.rows.Keys
      invariant latest.Some? ==> forall t :: t in store.rows && t !in todo ==> store.rows[t].last <= latest.value
      invariant latest.Some? ==> exists t :: t in store.rows && store.rows[t].last == latest.value
      decreases todo
    {
      var t :| t in todo;
      if latest.None? || latest.value < store.rows[t].last { latest := Some(store.rows[t].last); }
      todo := todo - {t};
    }
  }

  /** The quiet-period check. */
  method RecentlyActive(store: Store, since: Time) returns (yes: bool)
    ensures yes <==> RecentActivity(store.rows, since)
  {
    var latest := LatestActivity(store);
    yes := latest.Some? && latest.value > since;
  }

  /** Steps of everybody else while a run of `job` starts: anything but taking this job's lease for it
      or writing its run row. */
  predicate Foreign(step: Step, job: JobId) {
    match step
    case Acquire(other, _) => other != job
    case InsertRun(other, _) => other != job
    case UpdateRun(other, _) => other != job
    case _ => true
  }

  /** What such steps leave this job: no lease it did not have, and its run row, unless abandoned. */
  ghost predicate Respects(before: State, after: State, job: JobId) {
    && (LeaseHeldBy(after.lease, job) ==> LeaseHeldBy(before.lease, job))
    && (job in after.runs <==> job in before.runs)
    && (job in before.runs ==> after.runs[job] == before.runs[job] || after.runs[job].status == Abandoned)
  }

  lemma ForeignRespects(s: State, step: Step, job: JobId)
    requires Foreign(step, job)
    ensures Respects(s, Apply(s, step), job)
  {
  }

  /** An await of the start; nobody else acts when it is not `crowded`. */
  method Others(store: Store, job: JobId, crowded: bool)
    modifies store
    ensures Respects(old(store.Abs()), store.Abs(), job) && store.history == old(store.history)
    ensures !crowded ==> store.Abs() == old(store.Abs())
  {
    var more: nat := *;
    while crowded && more > 0
      invariant Respects(old(store.Abs()), store.Abs(), job) && store.history == old(store.history)
      invariant !crowded ==> store.Abs() == old(store.Abs())
    {
      var step: Step := *;
      if Foreign(step, job) {
        ForeignRespects(store.Abs(), step, job);
        Perform(store, step);
      }
      more := more - 1;
    }
  }

  function FailedRun(run: Run, now: Time): Run { run.(status := Failed, completedAt := Some(now)) }

  /** The table steps of a start that got as far as its run row. */
  function RecordSteps(job: JobId, run: Run, faults: Faults, now: Time): seq<Step> {
    var inserted := if faults.insert then [] else [InsertRun(job, run)];
    if !faults.insert && !faults.create then inserted
    else inserted + (if faults.record then [] else [UpdateRun(job, FailedRun(run, now))]) + [ReleaseLease(job)]
  }

  /** The run row and the creation of the loop; on an exception the failure is recorded, if that
      succeeds, and the lease released in any case. */
  method RecordRun(store: Store, job: JobId, run: Run, faults: Faults, crowded: bool, now: Time)
    returns (ok: bool, ghost did: seq<Act>)
    requires job !in store.runs && run.status == Pending
    modifies store
    ensures ok <==> !faults.insert && !faults.create
    ensures store.history == old(store.history) + did && Steps(did) == RecordSteps(job, run, faults, now)
    ensures LeaseHeldBy(store.lease, job) ==> ok && LeaseHeldBy(old(store.lease), job)
    ensures ok ==> job in store.runs && (store.runs[job] == run || store.runs[job].status == Abandoned)
    ensures !ok && faults.insert ==> job !in store.runs
    ensures !ok && !faults.insert ==>
              job in store.runs && store.runs[job].status in {if faults.record then Pending else Failed, Abandoned}
    ensures ok && !crowded ==> store.lease == old(store.lease)
  {
    ok, did := !faults.insert && !faults.create, [];
    if !faults.insert {
      StepsPush(did, InsertRun(job, run), store.Abs());
      did := did + [Did(InsertRun(job, run), store.Abs())];
      var _ := store.InsertRunRow(job, run);
    }
    Others(store, job, crowded);
    if !ok {
      ghost var sofar := GiveUp(store, job, run, faults, crowded, now, did);
      did := sofar;
    }
  }

  /** The failure recorded, and the lease released. */
  method GiveUp(store: Store, job: JobId, run: Run, faults: Faults, crowded: bool, now: Time, ghost past: seq<Act>)
    returns (ghost did: seq<Act>)
    modifies store
    ensures old(store.history) <= store.history && did == past + store.history[|old(store.history)|..]
    ensures Steps(did) ==
            Steps(past) + (if faults.record then [] else [UpdateRun(job, FailedRun(run, now))]) + [ReleaseLease(job)]
    ensures !LeaseHeldBy(store.lease, job) && (job in store.runs <==> job in old(store.runs))
    ensures job in store.runs && (old(store.runs)[job] == run || old(store.runs)[job].status == Abandoned) ==>
              store.runs[job].status in {if faults.record then run.status else Failed, Abandoned}
  {
    did := past;
    if !faults.record {
      StepsPush(did, UpdateRun(job, FailedRun(run, now)), store.Abs());
      did := did + [Did(UpdateRun(job, FailedRun(run, now)), store.Abs())];
      store.UpdateRunRow(job, FailedRun(run, now));
    }
    Others(store, job, crowded);
    StepsPush(did, ReleaseLease(job), store.Abs());
    did := did + [Did(ReleaseLease(job), store.Abs())];
    store.ReleaseJobLease(job);
  }

  lemma AcquireGrants(s: State, job: JobId, now: Time)
    requires LeaseGranted(s.lease, now) && job !in s.runs
    ensures var t := Apply(s, Acquire(job, now)); LeaseHeldBy(t.lease, job) && job !in t.runs
  {
  }

  lemma AcquireKeepsActivity(s: State, job: JobId, now: Time, since: Time)
    ensures RecentActivity(Apply(s, Acquire(job, now)).rows, since) <==> RecentActivity(s.rows, since)
  {
    var after := Apply(s, Acquire(job, now)).rows;
    assert after.Keys == s.rows.Keys && forall t :: t in after ==> after[t].last == s.rows[t].last;
    if RecentActivity(s.rows, since) {
      var t :| t in s.rows && s.rows[t].last > since;
      assert t in after && after[t].last > since;
    }
  }

  /** What a start does to the tables, by how it ends. */
  function StartSteps(job: JobId, run: Run, faults: Faults, now: Time, result: StartResult): seq<Step> {
    [Acquire(job, now)]
    + match result
      case AlreadyRunning(_) => []
      case CheckRaised => []
      case Deferred => [ReleaseLease(job)]
      case StartFailed => RecordSteps(job, run, faults, now)
      case Started(_, _) => RecordSteps(job, run, faults, now)
  }

  /** The lease, and what a grant of it means for a fresh job id. */
  method TakeLease(store: Store, job: JobId, now: Time, since: Time) returns (granted: bool, owner: Option<JobId>)
    requires job !in store.runs
    modifies store
    ensures granted <==> LeaseGranted(old(store.lease), now)
    ensures !granted ==> store.Abs() == old(store.Abs()) && owner == PreviousOwner(store.lease)
    ensures granted ==> LeaseHeldBy(store.lease, job) && job !in store.runs
    ensures RecentActivity(store.rows, since) <==> RecentActivity(old(store.rows), since)
    ensures store.history == old(store.history) + [Did(Acquire(job, now), old(store.Abs()))]
  {
    granted, owner := store.AcquireJobLease(job, now);
    if granted { AcquireGrants(old(store.Abs()), job, now); }
    AcquireKeepsActivity(old(store.Abs()), job, now, since);
  }

  /** `start_run` under its start lock, for a fresh job id: lease, quiet-period check, run row, with
      everybody else acting in between when `crowded`. `requested`, `inactiveDays` are the caller's
      overrides; `checked` is what the quiet-period check saw, `did` what the start did. A run that does not
      start leaves no lease with this job, except when that check raises. */
  method StartRun(store: Store, job: JobId, requested: Option<int>, maxDeletions: int, inactiveDays: int,
                  scheduled: bool, quietMinutes: nat, faults: Faults, crowded: bool, now: Time)
    returns (result: StartResult, ghost checked: Rows, ghost limit: nat, ghost did: seq<Act>)
    requires !LeaseHeldBy(store.lease, job) && job !in store.runs
    modifies store
    ensures result.AlreadyRunning? <==> !LeaseGranted(old(store.lease), now)
    ensures result.AlreadyRunning? ==> store.Abs() == old(store.Abs()) && result.owner == PreviousOwner(store.lease)
    ensures result.CheckRaised? <==>
        LeaseGranted(old(store.lease), now) && scheduled && quietMinutes > 0 && faults.check
    ensures result.Deferred? <==>
        (LeaseGranted(old(store.lease), now) && scheduled && quietMinutes > 0 && !faults.check
          && RecentActivity(checked, now - quietMinutes * 60))
    ensures result.Started? ==> !faults.insert && !faults.create
    ensures result.StartFailed? ==> faults.insert || faults.create
    ensures LeaseHeldBy(store.lease, job) ==> result.Started? || result.CheckRaised?
    ensures !crowded && (result.Started? || result.CheckRaised?) ==> LeaseHeldBy(store.lease, job)
    ensures !crowded && LeaseGranted(old(store.lease), now) ==>
              (RecentActivity(checked, now - quietMinutes * 60) <==>
                RecentActivity(old(store.rows), now - quietMinutes * 60))
    // the limit is the smaller of setting and request, the cutoff the days asked for back, each at least one
    ensures result.Started? ==>
              && (requested.Some? && 1 <= requested.value <= maxDeletions ==> result.limit == requested.value)
              && (1 <= maxDeletions && (requested.Some? ==> maxDeletions <= requested.value) ==>
                    result.limit == maxDeletions)
              && (maxDeletions < 1 || (requested.Some? && requested.value < 1) ==> result.limit == 1)
              && result.cutoff == now - (if inactiveDays < 1 then 1 else inactiveDays) * 86400
              && job in store.runs && (store.runs[job] == RunRow(Pending, Zero(), None, result.limit)
                                       || store.runs[job].status == Abandoned)
    ensures result.StartFailed? && job in store.runs ==>
              store.runs[job].status in {if faults.record then Pending else Failed, Abandoned}
    ensures store.history == old(store.history) + did
    ensures Steps(did) == StartSteps(job, RunRow(Pending, Zero(), None, limit), faults, now, result)
    ensures result.Started? ==> limit == result.limit
  {
    var asked := if requested.Some? && requested.value < maxDeletions then requested.value else maxDeletions;
    var most := AtLeastOne(asked);
    limit := most;
    checked := store.rows;
    did := [Did(Acquire(job, now), store.Abs())];
    StepsPush([], Acquire(job, now), store.Abs());
    var granted, owner := TakeLease(store, job, now, now - quietMinutes * 60);
    if !granted {
      result := AlreadyRunning(owner);
    } else {
      Others(store, job, crowded);
      checked := store.rows;
      var run := RunRow(Pending, Zero(), None, most);
      ghost var first, more := did, did;
      var outcome;
      outcome, more := CheckAndRecord(store, job, run, scheduled, quietMinutes, faults, crowded, now);
      StepsJoin(first, more);
      did := first + more;
      result := match outcome
                case Raised => CheckRaised
                case Quit => Deferred
                case Recorded(ok) =>
                  if ok then Started(most, now - AtLeastOne(inactiveDays) * 86400) else StartFailed;
    }
  }

  datatype Check = Raised | Quit | Recorded(ok: bool)

  function CheckSteps(job: JobId, run: Run, faults: Faults, now: Time, outcome: Check): seq<Step> {
    match outcome
    case Raised => []
    case Quit => [ReleaseLease(job)]
    case Recorded(_) => RecordSteps(job, run, faults, now)
  }

  /** With the lease granted: the quiet-period check, and the run row if it lets the run start. */
  method CheckAndRecord(store: Store, job: JobId, run: Run, scheduled: bool, quietMinutes: nat, faults: Faults,
                        crowded: bool, now: Time)
    returns (outcome: Check, ghost did: seq<Act>)
    requires job !in store.runs && run.status == Pending
    modifies store
    ensures outcome.Raised? <==> scheduled && quietMinutes > 0 && faults.check
    ensures outcome.Quit? <==>
        (scheduled && quietMinutes > 0 && !faults.check && RecentActivity(old(store.rows), now - quietMinutes * 60))
    ensures outcome.Recorded? ==> (outcome.ok <==> !faults.insert && !faults.create)
    ensures store.history == old(store.history) + did && Steps(did) == CheckSteps(job, run, faults, now, outcome)
    ensures LeaseHeldBy(store.lease, job) ==> outcome.Raised? || outcome == Recorded(true)
    ensures !crowded && (outcome.Raised? || outcome == Recorded(true)) ==> store.lease == old(store.lease)
    ensures outcome == Recorded(true) ==>
              job in store.runs && (store.runs[job] == run || store.runs[job].status == Abandoned)
    ensures outcome == Recorded(false) && job in store.runs ==>
              store.runs[job].status in {if faults.record then Pending else Failed, Abandoned}
  {
    var checking := scheduled && quietMinutes > 0;
    did := [];
    if checking && faults.check {
      outcome := Raised;
    } else {
      var active := false;
      if checking {
        active := RecentlyActive(store, now - quietMinutes * 60);
        Others(store, job, crowded);
      }
      if active {
        StepsPush(did, ReleaseLease(job), store.Abs());
        did := [Did(ReleaseLease(job), store.Abs())];
        store.ReleaseJobLease(job);
        outcome := Quit;
      } else {
        var ok;
        ok, did := RecordRun(store, job, run, faults, crowded, now);
        outcome := Recorded(ok);
      }
    }
  }

  lemma {:induction false} StepsJoin(a: seq<Act>, b: seq<Act>)
    ensures Steps(a + b) == Steps(a) + Steps(b)
    decreases |b|
  {
    if b == [] {
      assert a + b == a;
    } else {
      assert (a + b)[..|a + b| - 1] == a + b[..|b| - 1];
      StepsJoin(a, b[..|b| - 1]);
    }
  }
}
