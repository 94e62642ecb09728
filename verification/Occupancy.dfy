/** Which threads are occupied, and by what (app/dependencies.py, app/routers/runs.py): foreground
    runs are counted, an archive request reserves a whole thread and one of four build slots, a
    deletion marks a thread. The three exclude each other. The machine below interleaves any
    number of runs, deletions and archive requests, with cancellation arriving at any await. */
module Occupancy {
  import opened Common

  // ---- the registry ----------------------------------------------------------------------------

  /** The four fields behind `_thread_lock`. */
  datatype Registry = Registry(counts: map<string, nat>, running: set<string>, archiving: set<string>,
      deleting: set<string>)

  const EMPTY := Registry(map[], {}, {}, {})

  function CountOf(r: Registry, t: string): nat { if t in r.counts then r.counts[t] else 0 }

  predicate MayRun(r: Registry, t: string) { t !in r.deleting && t !in r.archiving }
  predicate MayArchive(r: Registry, t: string) { t !in r.running && t !in r.deleting && t !in r.archiving }
  predicate MayDelete(r: Registry, t: string) { t !in r.running && t !in r.deleting }

  function Marked(r: Registry, t: string): Registry {
    if MayRun(r, t) then r.(counts := r.counts[t := CountOf(r, t) + 1], running := r.running + {t}) else r
  }

  function Unmarked(r: Registry, t: string): Registry {
    if CountOf(r, t) > 1 then r.(counts := r.counts[t := r.counts[t] - 1])
    else r.(counts := r.counts - {t}, running := r.running - {t})
  }

  function Reserve(r: Registry, t: string): Registry {
    if MayArchive(r, t) then r.(archiving := r.archiving + {t}, running := r.running + {t}) else r
  }

  function Release(r: Registry, t: string): Registry {
    r.(archiving := r.archiving - {t}, running := if CountOf(r, t) == 0 then r.running - {t} else r.running)
  }

  function BeginDelete(r: Registry, t: string): Registry {
    if MayDelete(r, t) then r.(deleting := r.deleting + {t}) else r
  }

  function EndDelete(r: Registry, t: string): Registry { r.(deleting := r.deleting - {t}) }

  /** What the fields mean together. */
  predicate Sound(r: Registry) {
    && (forall t :: t in r.counts ==> r.counts[t] > 0)
    && r.running == r.counts.Keys + r.archiving
    && r.counts.Keys !! r.archiving && r.counts.Keys !! r.deleting && r.archiving !! r.deleting
  }

  class ThreadRegistry {
    var counts: map<string, nat>
    var running: set<string>
    var archiving: set<string>
    var deleting: set<string>

    function Now(): Registry
      reads this
    {
      Registry(counts, running, archiving, deleting)
    }

    constructor ()
      ensures Now() == EMPTY
    {
      counts, running, archiving, deleting := map[], {}, {}, {};
    }

    method MarkThreadRunning(t: string) returns (ok: bool)
      modifies this
      ensures ok == MayRun(old(Now()), t) && Now() == Marked(old(Now()), t)
    {
      if t in deleting || t in archiving { return false; }
      counts := counts[t := (if t in counts then counts[t] else 0) + 1];
      running := running + {t};
      ok := true;
    }

    method MarkThreadDone(t: string)
      modifies this
      ensures Now() == Unmarked(old(Now()), t)
    {
      var count := if t in counts then counts[t] else 0;
      if count > 1 {
        counts := counts[t := count - 1];
      } else {
        counts := counts - {t};
        running := running - {t};
      }
    }

    method TryReserveArtifactArchive(t: string) returns (ok: bool)
      modifies this
      ensures ok == MayArchive(old(Now()), t) && Now() == Reserve(old(Now()), t)
    {
      if t in running || t in deleting || t in archiving { return false; }
      archiving := archiving + {t};
      running := running + {t};
      ok := true;
    }

    method ReleaseArtifactArchive(t: string)
      modifies this
      ensures Now() == Release(old(Now()), t)
    {
      archiving := archiving - {t};
      if (if t in counts then counts[t] else 0) == 0 { running := running - {t}; }
    }

    /** The guarded start of `delete_thread_completely`. */
    method TryBeginDelete(t: string) returns (ok: bool)
      modifies this
      ensures ok == MayDelete(old(Now()), t) && Now() == BeginDelete(old(Now()), t)
    {
      if t in running || t in deleting { return false; }
      deleting := deleting + {t};
      ok := true;
    }

    /** Its `finally`. */
    method FinishDelete(t: string)
      modifies this
      ensures Now() == EndDelete(old(Now()), t)
    {
      deleting := deleting - {t};
    }
  }

  // ---- archive requests ------------------------------------------------------------------------------

  datatype Worker = Building | Succeeded | Failed

  /** Where an archive request is: reserved but without a slot; awaiting its worker; awaiting it again
      after a cancellation; past its last await; or left with only the reservation to release. */
  datatype Request =
    | Reserved(thread: string)
    | Waiting(thread: string, worker: Worker)
    | Retrying(thread: string, worker: Worker)
    | Unwinding(thread: string, worker: Worker, cancelled: bool)
    | Unreserving(thread: string)

  /** A cancellation delivered at an await: the request goes back to waiting until its worker is done. */
  function OnCancel(q: Request): Request {
    match q
    case Waiting(t, w) => if w == Building then Retrying(t, w) else Unwinding(t, w, true)
    case Retrying(t, w) => if w == Building then q else Unwinding(t, w, true)
    case _ => q
  }

  /** The await returning, which it does only for a finished worker. */
  function OnResume(q: Request): Request
    requires (q.Waiting? || q.Retrying?) && q.worker != Building
  {
    Unwinding(q.thread, q.worker, q.Retrying?)
  }

  function OnWorkerEnd(q: Request, ok: bool): Request
    requires q.Waiting? || q.Retrying?
  {
    var w := if ok then Succeeded else Failed;
    if q.Waiting? then Waiting(q.thread, w) else Retrying(q.thread, w)
  }

  predicate HoldsSlot(q: Request) { q.Waiting? || q.Retrying? || q.Unwinding? }

  /** An archive file is open: built, and not yet closed by a cancelled request or handed to the response. */
  predicate FileOpen(q: Request) { HoldsSlot(q) && q.worker == Succeeded }

  /** What the request meets at one await of its shielded worker: a cancellation while the worker still
      builds, one that arrives after its end, or the worker's result or exception. */
  datatype Wake = EarlyCancel | LateCancel(built: bool) | WorkerDone(built: bool)

  /** How the build leaves: with the archive, with the worker's exception, or cancelled. */
  datatype Built = Delivered | BuildFailed | BuildCancelled

  /** A script of wakes: the worker's end is noticed at the last of them. */
  predicate Script(wakes: seq<Wake>) {
    && wakes != [] && !wakes[|wakes| - 1].EarlyCancel?
    && forall i :: 0 <= i < |wakes| - 1 ==> wakes[i].EarlyCancel?
  }

  predicate Succeeds(wakes: seq<Wake>)
    requires Script(wakes)
  {
    wakes[|wakes| - 1].built
  }

  predicate AnyCancel(wakes: seq<Wake>)
    requires Script(wakes)
  {
    |wakes| > 1 || wakes[0].LateCancel?
  }

  function OnWake(q: Request, wake: Wake): Request
    requires (q.Waiting? || q.Retrying?) && q.worker == Building
  {
    match wake
    case EarlyCancel => OnCancel(q)
    case LateCancel(built) => OnCancel(OnWorkerEnd(q, built))
    case WorkerDone(built) => OnResume(OnWorkerEnd(q, built))
  }

  /** `_build_archive_without_abandoning_worker`: one await, and after a cancellation the loop that
      waits for the worker. Its end is always seen before the slot is given back; a cancelled request
      closes what was built, and every outcome of worker and cancellation is told apart. */
  method BuildArchive(thread: string, wakes: seq<Wake>) returns (q: Request, result: Built, closed: bool)
    requires Script(wakes)
    ensures q == Unwinding(thread, if Succeeds(wakes) then Succeeded else Failed, AnyCancel(wakes))
    ensures result == if AnyCancel(wakes) then BuildCancelled else if Succeeds(wakes) then Delivered else BuildFailed
    ensures closed <==> AnyCancel(wakes) && Succeeds(wakes)
  {
    q := OnWake(Waiting(thread, Building), wakes[0]);
    var i := 1;
    while q.worker == Building
      invariant 1 <= i <= |wakes|
      invariant if i < |wakes| then q == Retrying(thread, Building)
                else q == Unwinding(thread, if Succeeds(wakes) then Succeeded else Failed, AnyCancel(wakes))
      decreases |wakes| - i
    {
      q := OnWake(q, wakes[i]);
      i := i + 1;
    }
    closed := q.cancelled && q.worker == Succeeded;
    result := if q.cancelled then BuildCancelled else if q.worker == Succeeded then Delivered else BuildFailed;
  }

  // ---- every interleaving -------------------------------------------------------------------------------

  const SLOTS := 4

  /** `runs` are the granted run marks not yet given back; `closed` and `sent` are the archives closed by
      a cancelled request and handed to a response. */
  datatype World = World(reg: Registry, runs: multiset<string>, deletions: map<nat, string>,
                         requests: map<nat, Request>, free: int, closed: set<nat>, sent: set<nat>)

  const IDLE := World(EMPTY, multiset{}, map[], map[], SLOTS, {}, {})

  datatype Step =
    | RunAsked(thread: string)
    | RunDone(thread: string)
    | DeleteAsked(d: nat, thread: string)
    | DeleteDone(d: nat)
    | ArchiveAsked(id: nat, thread: string)
    | SlotAsked(id: nat)
    | WorkerEnds(id: nat, ok: bool)
    | Cancel(id: nat)
    | Resume(id: nat)
    | SlotReleased(id: nat)
    | ReservationReleased(id: nat)

  /** When a step can happen; calls themselves are never refused here, only answered. */
  predicate Enabled(w: World, s: Step) {
    match s
    case RunAsked(_) => true
    case RunDone(t) => t in w.runs
    case DeleteAsked(d, _) => d !in w.deletions
    case DeleteDone(d) => d in w.deletions
    case ArchiveAsked(id, _) => id !in w.requests && id !in w.closed && id !in w.sent
    case SlotAsked(id) => id in w.requests && w.requests[id].Reserved?
    case WorkerEnds(id, _) =>
      id in w.requests && (w.requests[id].Waiting? || w.requests[id].Retrying?) && w.requests[id].worker == Building
    case Cancel(id) => id in w.requests && (w.requests[id].Waiting? || w.requests[id].Retrying?)
    case Resume(id) =>
      id in w.requests && (w.requests[id].Waiting? || w.requests[id].Retrying?) && w.requests[id].worker != Building
    case SlotReleased(id) => id in w.requests && w.requests[id].Unwinding?
    case ReservationReleased(id) => id in w.requests && w.requests[id].Unreserving?
  }

  function Apply(w: World, s: Step): World
    requires Enabled(w, s)
  {
    match s
    case RunAsked(t) => w.(reg := Marked(w.reg, t), runs := if MayRun(w.reg, t) then w.runs + multiset{t} else w.runs)
    case RunDone(t) => w.(reg := Unmarked(w.reg, t), runs := w.runs - multiset{t})
    case DeleteAsked(d, t) =>
      if MayDelete(w.reg, t) then w.(reg := BeginDelete(w.reg, t), deletions := w.deletions[d := t]) else w
    case DeleteDone(d) => w.(reg := EndDelete(w.reg, w.deletions[d]), deletions := w.deletions - {d})
    case ArchiveAsked(id, t) =>
      if MayArchive(w.reg, t) then w.(reg := Reserve(w.reg, t), requests := w.requests[id := Reserved(t)]) else w
    case SlotAsked(id) =>
      var t := w.requests[id].thread;
      if w.free == 0 then w.(requests := w.requests[id := Unreserving(t)])
      else w.(requests := w.requests[id := Waiting(t, Building)], free := w.free - 1)
    case WorkerEnds(id, ok) => w.(requests := w.requests[id := OnWorkerEnd(w.requests[id], ok)])
    case Cancel(id) => w.(requests := w.requests[id := OnCancel(w.requests[id])])
    case Resume(id) => w.(requests := w.requests[id := OnResume(w.requests[id])])
    case SlotReleased(id) =>
      var q := w.requests[id];
      w.(requests := w.requests[id := Unreserving(q.thread)], free := w.free + 1,
         closed := if q.worker == Succeeded && q.cancelled then w.closed + {id} else w.closed,
         sent := if q.worker == Succeeded && !q.cancelled then w.sent + {id} else w.sent)
    case ReservationReleased(id) =>
      w.(reg := Release(w.reg, w.requests[id].thread), requests := w.requests - {id})
  }

  ghost predicate Possible(w: World, steps: seq<Step>)
    decreases |steps|
  {
    steps == [] || (Enabled(w, steps[0]) && Possible(Apply(w, steps[0]), steps[1..]))
  }

  ghost function Exec(w: World, steps: seq<Step>): World
    requires Possible(w, steps)
    decreases |steps|
  {
    if steps == [] then w else Exec(Apply(w, steps[0]), steps[1..])
  }

  function Holders(requests: map<nat, Request>): set<nat> { set id | id in requests && HoldsSlot(requests[id]) }

  /** Counts are the run marks outstanding, thread by thread. */
  ghost predicate CountsRuns(w: World) {
    forall t :: CountOf(w.reg, t) == w.runs[t]
  }

  /** The reserved threads are those of the archive requests under way, one request each. */
  ghost predicate TracksArchives(w: World) {
    && (forall id :: id in w.requests ==> w.requests[id].thread in w.reg.archiving)
    && (forall t :: t in w.reg.archiving ==> exists id :: id in w.requests && w.requests[id].thread == t)
    && (forall a, b :: a in w.requests && b in w.requests && w.requests[a].thread == w.requests[b].thread ==> a == b)
  }

  /** The marked threads are those of the deletions under way, one deletion each. */
  ghost predicate TracksDeletions(w: World) {
    && (forall d :: d in w.deletions ==> w.deletions[d] in w.reg.deleting)
    && (forall t :: t in w.reg.deleting ==> exists d :: d in w.deletions && w.deletions[d] == t)
    && (forall a, b :: a in w.deletions && b in w.deletions && w.deletions[a] == w.deletions[b] ==> a == b)
  }

  /** Slots are conserved, and no request is past its last await with its worker still building. */
  ghost predicate KeepsSlots(w: World) {
    && 0 <= w.free == SLOTS - |Holders(w.requests)|
    && (forall id :: id in w.requests && w.requests[id].Unwinding? ==> w.requests[id].worker != Building)
  }

  ghost predicate Inv(w: World) {
    Sound(w.reg) && CountsRuns(w) && TracksArchives(w) && TracksDeletions(w) && KeepsSlots(w)
  }

  // ---- every step keeps it ---------------------------------------------------------------------------

  lemma GrantsStaySound(r: Registry, t: string)
    requires Sound(r)
    ensures Sound(Marked(r, t)) && Sound(Reserve(r, t)) && Sound(BeginDelete(r, t)) && Sound(EndDelete(r, t))
  {
  }

  lemma DoneStaysSound(r: Registry, t: string)
    requires Sound(r) && CountOf(r, t) > 0
    ensures Sound(Unmarked(r, t))
  {
  }

  lemma ReleaseStaysSound(r: Registry, t: string)
    requires Sound(r) && t in r.archiving
    ensures Sound(Release(r, t))
  {
  }

  lemma RegistryStaysSound(w: World, s: Step)
    requires Inv(w) && Enabled(w, s)
    ensures Sound(Apply(w, s).reg)
  {
    if s.RunAsked? || s.DeleteAsked? || s.ArchiveAsked? { GrantsStaySound(w.reg, s.thread); }
    if s.DeleteDone? { GrantsStaySound(w.reg, w.deletions[s.d]); }
    if s.RunDone? { DoneStaysSound(w.reg, s.thread); }
    if s.ReservationReleased? { ReleaseStaysSound(w.reg, w.requests[s.id].thread); }
  }

  lemma CountsStayExact(w: World, s: Step)
    requires Inv(w) && Enabled(w, s)
    ensures CountsRuns(Apply(w, s))
  {
    var v := Apply(w, s);
    forall t ensures CountOf(v.reg, t) == v.runs[t] {
      assert CountOf(w.reg, t) == w.runs[t];
      if s.RunDone? { assert CountOf(w.reg, s.thread) == w.runs[s.thread]; }
    }
  }

  /** Requests keep their threads through every phase. */
  lemma PhasesKeepThread(w: World, s: Step)
    requires Enabled(w, s) && !s.ArchiveAsked? && !s.ReservationReleased?
    ensures var v := Apply(w, s);
      v.requests.Keys == w.requests.Keys && v.reg.archiving == w.reg.archiving
      && forall id :: id in w.requests ==> v.requests[id].thread == w.requests[id].thread
  {
    match s {
      case SlotAsked(id) => assert Apply(w, s).requests.Keys == w.requests.Keys + {id};
      case WorkerEnds(id, _) => assert Apply(w, s).requests.Keys == w.requests.Keys + {id};
      case Cancel(id) => assert Apply(w, s).requests.Keys == w.requests.Keys + {id};
      case Resume(id) => assert Apply(w, s).requests.Keys == w.requests.Keys + {id};
      case SlotReleased(id) => assert Apply(w, s).requests.Keys == w.requests.Keys + {id};
      case _ =>
    }
  }

  lemma NewArchiveTracked(w: World, id: nat, t: string)
    requires TracksArchives(w) && Enabled(w, ArchiveAsked(id, t))
    ensures TracksArchives(Apply(w, ArchiveAsked(id, t)))
  {
    var v := Apply(w, ArchiveAsked(id, t));
    if MayArchive(w.reg, t) {
      assert v.requests[id].thread == t;
      forall u | u in v.reg.archiving ensures exists k :: k in v.requests && v.requests[k].thread == u {
        if u != t {
          var k :| k in w.requests && w.requests[k].thread == u;
          assert k in v.requests && v.requests[k].thread == u;
        }
      }
    }
  }

  lemma EndedArchiveTracked(w: World, id: nat)
    requires TracksArchives(w) && Enabled(w, ReservationReleased(id))
    ensures TracksArchives(Apply(w, ReservationReleased(id)))
  {
    var v := Apply(w, ReservationReleased(id));
    forall u | u in v.reg.archiving ensures exists k :: k in v.requests && v.requests[k].thread == u {
      var k :| k in w.requests && w.requests[k].thread == u;
      assert k in v.requests && v.requests[k].thread == u;
    }
  }

  /** Nothing about tracking changes while requests keep their threads. */
  lemma SameThreadsTracked(w: World, v: World)
    requires TracksArchives(w) && v.requests.Keys == w.requests.Keys && v.reg.archiving == w.reg.archiving
    requires forall id :: id in w.requests ==> v.requests[id].thread == w.requests[id].thread
    ensures TracksArchives(v)
  {
    forall t | t in v.reg.archiving ensures exists id :: id in v.requests && v.requests[id].thread == t {
      var id :| id in w.requests && w.requests[id].thread == t;
      assert id in v.requests && v.requests[id].thread == t;
    }
  }

  lemma ArchivesStayTracked(w: World, s: Step)
    requires Inv(w) && Enabled(w, s)
    ensures TracksArchives(Apply(w, s))
  {
    if s.ArchiveAsked? {
      NewArchiveTracked(w, s.id, s.thread);
    } else if s.ReservationReleased? {
      EndedArchiveTracked(w, s.id);
    } else {
      PhasesKeepThread(w, s);
      SameThreadsTracked(w, Apply(w, s));
    }
  }

  lemma RegistryKeepsDeleting(r: Registry, t: string)
    ensures Marked(r, t).deleting == r.deleting && Unmarked(r, t).deleting == r.deleting
    ensures Reserve(r, t).deleting == r.deleting && Release(r, t).deleting == r.deleting
  {
  }

  lemma OthersLeaveDeletions(w: World, s: Step)
    requires Enabled(w, s) && !s.DeleteAsked? && !s.DeleteDone?
    ensures Apply(w, s).deletions == w.deletions && Apply(w, s).reg.deleting == w.reg.deleting
  {
    if s.RunAsked? || s.RunDone? || s.ArchiveAsked? { RegistryKeepsDeleting(w.reg, s.thread); }
    if s.ReservationReleased? { RegistryKeepsDeleting(w.reg, w.requests[s.id].thread); }
  }

  lemma NewDeletionTracked(w: World, d: nat, t: string)
    requires TracksDeletions(w) && d !in w.deletions
    ensures TracksDeletions(Apply(w, DeleteAsked(d, t)))
  {
    var v := Apply(w, DeleteAsked(d, t));
    if MayDelete(w.reg, t) {
      assert v.deletions[d] == t;
      forall x | x in v.reg.deleting ensures exists e :: e in v.deletions && v.deletions[e] == x {
        if x != t {
          var e :| e in w.deletions && w.deletions[e] == x;
          assert e in v.deletions && v.deletions[e] == x;
        }
      }
    }
  }

  lemma EndedDeletionTracked(w: World, d: nat)
    requires TracksDeletions(w) && d in w.deletions
    ensures TracksDeletions(Apply(w, DeleteDone(d)))
  {
    var v := Apply(w, DeleteDone(d));
    forall x | x in v.reg.deleting ensures exists e :: e in v.deletions && v.deletions[e] == x {
      var e :| e in w.deletions && w.deletions[e] == x;
      assert e in v.deletions && v.deletions[e] == x;
    }
  }

  lemma DeletionsStayTracked(w: World, s: Step)
    requires Inv(w) && Enabled(w, s)
    ensures TracksDeletions(Apply(w, s))
  {
    if s.DeleteAsked? { NewDeletionTracked(w, s.d, s.thread); }
    else if s.DeleteDone? { EndedDeletionTracked(w, s.d); }
    else { OthersLeaveDeletions(w, s); }
  }

  /** Putting a request into another phase. */
  lemma HoldersAfterPut(requests: map<nat, Request>, id: nat, q: Request)
    ensures Holders(requests[id := q]) == if HoldsSlot(q) then Holders(requests) + {id} else Holders(requests) - {id}
  {
  }

  lemma HoldersAfterDrop(requests: map<nat, Request>, id: nat)
    requires id in requests ==> !HoldsSlot(requests[id])
    ensures Holders(requests - {id}) == Holders(requests)
  {
  }

  lemma NoChange(ids: set<nat>, id: nat)
    ensures id in ids ==> ids + {id} == ids
    ensures id !in ids ==> ids - {id} == ids
  {
  }

  /** A request that moves between phases without taking or giving back a slot. */
  lemma SamePhaseKind(requests: map<nat, Request>, id: nat, q: Request)
    requires HoldsSlot(q) <==> id in requests && HoldsSlot(requests[id])
    ensures Holders(requests[id := q]) == Holders(requests)
  {
    HoldersAfterPut(requests, id, q);
    NoChange(Holders(requests), id);
  }

  lemma HoldersMove(w: World, s: Step)
    requires Enabled(w, s)
    ensures var v := Apply(w, s);
      Holders(v.requests) ==
        if s.SlotAsked? && w.free != 0 then Holders(w.requests) + {s.id}
        else if s.SlotReleased? then Holders(w.requests) - {s.id}
        else Holders(w.requests)
  {
    match s {
      case ArchiveAsked(id, t) => SamePhaseKind(w.requests, id, Reserved(t));
      case SlotAsked(id) =>
        SamePhaseKind(w.requests, id, Unreserving(w.requests[id].thread));
        HoldersAfterPut(w.requests, id, Waiting(w.requests[id].thread, Building));
      case WorkerEnds(id, ok) => SamePhaseKind(w.requests, id, OnWorkerEnd(w.requests[id], ok));
      case Cancel(id) => SamePhaseKind(w.requests, id, OnCancel(w.requests[id]));
      case Resume(id) => SamePhaseKind(w.requests, id, OnResume(w.requests[id]));
      case SlotReleased(id) => HoldersAfterPut(w.requests, id, Unreserving(w.requests[id].thread));
      case ReservationReleased(id) => HoldersAfterDrop(w.requests, id);
      case RunAsked(_) =>
      case RunDone(_) =>
      case DeleteAsked(_, _) =>
      case DeleteDone(_) =>
    }
  }

  lemma FreeMoves(w: World, s: Step)
    requires Enabled(w, s)
    ensures Apply(w, s).free
        == w.free - (if s.SlotAsked? && w.free != 0 then 1 else 0) + if s.SlotReleased? then 1 else 0
  {
  }

  lemma UnwindingHasEnded(w: World, s: Step, id: nat)
    requires KeepsSlots(w) && Enabled(w, s)
    requires id in Apply(w, s).requests && Apply(w, s).requests[id].Unwinding?
    ensures Apply(w, s).requests[id].worker != Building
  {
    if id in w.requests && w.requests[id].Unwinding? { assert w.requests[id].worker != Building; }
  }

  lemma SlotsAreConserved(w: World, s: Step)
    requires Inv(w) && Enabled(w, s)
    ensures KeepsSlots(Apply(w, s))
  {
    HoldersMove(w, s);
    FreeMoves(w, s);
    forall id | id in Apply(w, s).requests && Apply(w, s).requests[id].Unwinding?
      ensures Apply(w, s).requests[id].worker != Building
    {
      UnwindingHasEnded(w, s, id);
    }
    if s.SlotAsked? { assert s.id !in Holders(w.requests); }
    if s.SlotReleased? { assert s.id in Holders(w.requests); }
  }

  lemma StepKeeps(w: World, s: Step)
    requires Inv(w) && Enabled(w, s)
    ensures Inv(Apply(w, s))
  {
    RegistryStaysSound(w, s);
    CountsStayExact(w, s);
    ArchivesStayTracked(w, s);
    DeletionsStayTracked(w, s);
    SlotsAreConserved(w, s);
  }

  /** Every run of every interleaving. */
  lemma {:induction false} EveryRunKeeps(w: World, steps: seq<Step>)
    requires Inv(w) && Possible(w, steps)
    ensures Inv(Exec(w, steps))
    decreases |steps|
  {
    if steps != [] {
      StepKeeps(w, steps[0]);
      EveryRunKeeps(Apply(w, steps[0]), steps[1..]);
    }
  }

  lemma IdleHolds()
    ensures Inv(IDLE)
  {
    assert Holders(IDLE.requests) == {};
  }

  // ---- what it gives ---------------------------------------------------------------------------------

  ghost predicate ArchiveUnderWay(w: World, t: string) { exists id :: id in w.requests && w.requests[id].thread == t }
  ghost predicate DeletionUnderWay(w: World, t: string) { exists d :: d in w.deletions && w.deletions[d] == t }

  /** In every interleaving the running set is the counted threads plus the reserved ones, the three
      uses are disjoint, every count is the number of marks outstanding, and no slot is lost. */
  lemma RegistryInEveryRun(steps: seq<Step>)
    requires Possible(IDLE, steps)
    ensures var w := Exec(IDLE, steps);
      && w.reg.running == w.reg.counts.Keys + w.reg.archiving
      && w.reg.counts.Keys !! w.reg.archiving && w.reg.counts.Keys !! w.reg.deleting
         && w.reg.archiving !! w.reg.deleting
      && (forall t :: CountOf(w.reg, t) == w.runs[t] && (t in w.reg.counts <==> w.runs[t] > 0))
      && w.free + |Holders(w.requests)| == SLOTS && w.free >= 0
  {
    IdleHolds();
    EveryRunKeeps(IDLE, steps);
    var w := Exec(IDLE, steps);
    assert forall t :: CountOf(w.reg, t) == w.runs[t];
  }

  /** Each request for a thread is granted exactly when nothing it excludes is actually under way. */
  lemma GrantedExactly(steps: seq<Step>, t: string)
    requires Possible(IDLE, steps)
    ensures var w := Exec(IDLE, steps);
      && (MayRun(w.reg, t) <==> !ArchiveUnderWay(w, t) && !DeletionUnderWay(w, t))
      && (MayArchive(w.reg, t) <==> w.runs[t] == 0 && !ArchiveUnderWay(w, t) && !DeletionUnderWay(w, t))
      && (MayDelete(w.reg, t) <==> w.runs[t] == 0 && !ArchiveUnderWay(w, t) && !DeletionUnderWay(w, t))
      && (t in w.reg.running <==> w.runs[t] > 0 || ArchiveUnderWay(w, t))
  {
    IdleHolds();
    EveryRunKeeps(IDLE, steps);
    var w := Exec(IDLE, steps);
    assert CountOf(w.reg, t) == w.runs[t];
  }

  /** No two of running, archiving and deleting ever hold for one thread. */
  lemma ThreeWayExclusion(steps: seq<Step>, t: string)
    requires Possible(IDLE, steps)
    ensures var w := Exec(IDLE, steps);
      && !(w.runs[t] > 0 && ArchiveUnderWay(w, t))
      && !(w.runs[t] > 0 && DeletionUnderWay(w, t))
      && !(ArchiveUnderWay(w, t) && DeletionUnderWay(w, t))
  {
    IdleHolds();
    EveryRunKeeps(IDLE, steps);
    var w := Exec(IDLE, steps);
    assert CountOf(w.reg, t) == w.runs[t];
  }

  ghost predicate WorkerBuilds(w: World, id: nat) {
    id in w.requests && HoldsSlot(w.requests[id]) && w.requests[id].worker == Building
  }

  /** While a zip worker builds, whatever cancellations arrived, its request still awaits it: the slot
      is taken, the thread is reserved, and no run, deletion or second archive can be granted. */
  lemma WorkerIsCovered(steps: seq<Step>, id: nat)
    requires Possible(IDLE, steps) && WorkerBuilds(Exec(IDLE, steps), id)
    ensures var w := Exec(IDLE, steps);
      var q := w.requests[id];
      && (q.Waiting? || q.Retrying?) && id in Holders(w.requests) && w.free < SLOTS
      && q.thread in w.reg.archiving
      && !MayRun(w.reg, q.thread) && !MayDelete(w.reg, q.thread) && !MayArchive(w.reg, q.thread)
  {
    IdleHolds();
    EveryRunKeeps(IDLE, steps);
    var w := Exec(IDLE, steps);
    assert id in Holders(w.requests);
    assert Holders(w.requests) != {};
  }

  /** Only the worker's own end lets its request move on. */
  lemma OnlyItsEndReleasesTheWorker(w: World, s: Step, id: nat)
    requires Inv(w) && Enabled(w, s) && WorkerBuilds(w, id)
    ensures WorkerBuilds(Apply(w, s), id) || (s.WorkerEnds? && s.id == id)
  {
  }

  /** At most four workers build at any time. */
  lemma AtMostFourWorkers(steps: seq<Step>, workers: set<nat>)
    requires Possible(IDLE, steps)
    requires forall id :: id in workers ==> WorkerBuilds(Exec(IDLE, steps), id)
    ensures |workers| <= 4
  {
    IdleHolds();
    EveryRunKeeps(IDLE, steps);
    SubsetSize(workers, Holders(Exec(IDLE, steps).requests));
  }

  /** A reserved request gets a slot exactly when fewer than four are held, and is turned away otherwise. */
  lemma SlotGrantedExactly(steps: seq<Step>, id: nat)
    requires Possible(IDLE, steps) && Enabled(Exec(IDLE, steps), SlotAsked(id))
    ensures var w := Exec(IDLE, steps);
      var q := Apply(w, SlotAsked(id)).requests[id];
      && q == (if |Holders(w.requests)| < 4 then Waiting(w.requests[id].thread, Building)
               else Unreserving(w.requests[id].thread))
  {
    IdleHolds();
    EveryRunKeeps(IDLE, steps);
  }

  /** Granted uses begin, and refused ones change nothing. */
  lemma GrantsBegin(steps: seq<Step>, t: string, k: nat)
    requires Possible(IDLE, steps)
    ensures var w := Exec(IDLE, steps);
      var free := !ArchiveUnderWay(w, t) && !DeletionUnderWay(w, t);
      && (var v := Apply(w, RunAsked(t));
          if free then v.runs == w.runs + multiset{t} else v == w)
      && (Enabled(w, ArchiveAsked(k, t)) ==>
            var v := Apply(w, ArchiveAsked(k, t));
            if free && w.runs[t] == 0 then v.requests == w.requests[k := Reserved(t)] else v == w)
      && (Enabled(w, DeleteAsked(k, t)) ==>
            var v := Apply(w, DeleteAsked(k, t));
            if free && w.runs[t] == 0 then v.deletions == w.deletions[k := t] else v == w)
  {
    GrantedExactly(steps, t);
  }

  /** Once everything granted has been given back, nothing is left behind. */
  lemma NothingLeaks(steps: seq<Step>)
    requires Possible(IDLE, steps)
    requires var w := Exec(IDLE, steps); w.runs == multiset{} && w.requests == map[] && w.deletions == map[]
    ensures var w := Exec(IDLE, steps); w.reg == EMPTY && w.free == SLOTS
  {
    IdleHolds();
    EveryRunKeeps(IDLE, steps);
    var w := Exec(IDLE, steps);
    assert Holders(w.requests) == {};
    assert w.reg.archiving == {} && w.reg.deleting == {};
    forall t ensures t !in w.reg.counts { assert CountOf(w.reg, t) == w.runs[t]; }
    assert w.reg.counts == map[];
  }

  lemma OnlyReleaseSettles(w: World, s: Step, id: nat)
    requires Enabled(w, s) && s != SlotReleased(id) && id in w.requests && FileOpen(w.requests[id])
    ensures id in Apply(w, s).requests && FileOpen(Apply(w, s).requests[id])
  {
  }

  /** A built archive stays open until its request gives the slot back, and then is handed to the
      response exactly when the request was not cancelled, and closed otherwise. */
  lemma FileIsSettled(w: World, s: Step, id: nat)
    requires Inv(w) && Enabled(w, s)
    requires id in w.requests && FileOpen(w.requests[id])
    ensures var v := Apply(w, s);
      && ((id in v.requests && FileOpen(v.requests[id])) <==> s != SlotReleased(id))
      && (s == SlotReleased(id) ==> if w.requests[id].cancelled then id in v.closed else id in v.sent)
  {
    if s != SlotReleased(id) { OnlyReleaseSettles(w, s, id); }
  }

  /** A done without its mark: harmless except on a thread being archived, which it would unmark. */
  lemma StrayDoneHarmsExactlyArchives(r: Registry, t: string)
    requires Sound(r) && CountOf(r, t) == 0
    ensures Sound(Unmarked(r, t)) <==> t !in r.archiving
  {
    assert t !in r.counts;
    assert r.counts - {t} == r.counts;
  }
}
