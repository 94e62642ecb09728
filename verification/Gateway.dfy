/** The gateway's connection supervisor (bridge/src/gateway.rs): one external transport at a time,
    a new connection superseding the old one. Connections begin, are cancelled while beginning, run,
    are aborted, finish or are dropped in any order. They run on several threads, so a step is one
    critical section, one abort or one signal; a begin can be cancelled only where it awaits. */
module Gateway {
  import opened Common

  // ---- the supervisor --------------------------------------------------------------------------

  /** `next_id` and the id in `active`. */
  datatype Supervisor = Supervisor(next: nat, active: Option<nat>)

  function Numbered(s: Supervisor): Supervisor { s.(next := s.next + 1) }
  function Taken(s: Supervisor): Supervisor { s.(active := None) }
  function Installed(s: Supervisor, id: nat): Supervisor { s.(active := Some(id)) }

  /** `ConnectionSupervisor::finish`: only the registration of this very connection is cleared. */
  function Cleared(s: Supervisor, id: nat): Supervisor { if s.active == Some(id) then s.(active := None) else s }

  /** A step a task has taken here, with the fields it met. */
  datatype Deed = Deed(step: Step, met: Supervisor)

  function Steps(deeds: seq<Deed>): seq<Step> { seq(|deeds|, i requires 0 <= i < |deeds| => deeds[i].step) }

  class ConnectionSupervisor {
    var nextId: nat
    var active: Option<nat>
    ghost var aborted: set<nat>       // the connections whose abort handle has been used
    ghost var signalled: set<nat>     // the connections whose done signal has been sent
    ghost var deeds: seq<Deed>        // of this task; steps of others leave no mark in it

    function Now(): Supervisor
      reads this
    {
      Supervisor(nextId, active)
    }

    constructor ()
      ensures Now() == Supervisor(0, None) && aborted == signalled == {} && deeds == []
    {
      nextId, active, aborted, signalled, deeds := 0, None, {}, {}, [];
    }

    method NewId() returns (id: nat)
      modifies this`nextId, this`deeds
      ensures id > old(nextId) && id == nextId && Now() == Numbered(old(Now()))
      ensures deeds == old(deeds) + [Deed(Step.Begin, old(Now()))]
    {
      deeds := deeds + [Deed(Step.Begin, Now())];
      id := nextId + 1;
      nextId := id;
    }

    /** The await of the replacement lock. */
    method AwaitLock(id: nat, crowded: bool)
      modifies this
      ensures nextId >= old(nextId) && signalled >= old(signalled) && aborted >= old(aborted)
      ensures !crowded ==> Now() == old(Now())
      ensures deeds == old(deeds) + [Deed(Step.TakeLock(id), Now())]
    {
      if crowded { Others(); }
      deeds := deeds + [Deed(Step.TakeLock(id), Now())];
    }

    method TakeActive(id: nat) returns (previous: Option<nat>)
      modifies this`active, this`deeds
      ensures previous == old(active) && Now() == Taken(old(Now()))
      ensures deeds == old(deeds) + [Deed(TakePrevious(id), old(Now()))]
    {
      deeds := deeds + [Deed(TakePrevious(id), Now())];
      previous := active;
      active := None;
    }

    /** `abort` on the handle of the connection just taken. */
    method AbortTaken(id: nat, previous: nat)
      modifies this`aborted, this`deeds
      ensures aborted == old(aborted) + {previous}
      ensures deeds == old(deeds) + [Deed(AbortPrevious(id), Now())]
    {
      aborted := aborted + {previous};
      deeds := deeds + [Deed(AbortPrevious(id), Now())];
    }

    method Install(id: nat)
      modifies this`active, this`deeds
      ensures Now() == Installed(old(Now()), id)
      ensures deeds == old(deeds) + [Deed(Register(id), old(Now()))]
    {
      deeds := deeds + [Deed(Register(id), Now())];
      active := Some(id);
    }

    method GiveLockBack(id: nat)
      modifies this`deeds
      ensures deeds == old(deeds) + [Deed(Return(id), Now())]
    {
      deeds := deeds + [Deed(Return(id), Now())];
    }

    method Finish(id: nat)
      modifies this`active
      ensures Now() == Cleared(old(Now()), id)
    {
      if active.Some? && active.value == id { active := None; }
    }

    /** What other threads may have done to the fields by now: numbers only grow, aborts and signals stay. */
    method Others()
      modifies this
      ensures nextId >= old(nextId) && signalled >= old(signalled) && aborted >= old(aborted)
      ensures deeds == old(deeds)
    {
      var later: nat :| later >= nextId;
      nextId := later;
      active := *;
      ghost var more: set<nat> :| true;
      signalled := signalled + more;
      more :| true;
      aborted := aborted + more;
    }

    /** The await of a done signal: it returns only once the signal has been sent. */
    method AwaitDone(id: nat, previous: nat)
      modifies this
      ensures nextId >= old(nextId) && signalled >= old(signalled) && aborted >= old(aborted)
      ensures previous in signalled && deeds == old(deeds) + [Deed(DoneArrives(id), Now())]
    {
      Others();
      signalled := signalled + {previous};
      deeds := deeds + [Deed(DoneArrives(id), Now())];
    }

    /** `begin`: the new connection has a new number; it takes over whatever it finds registered once the
        replacement lock is its own, aborts it and waits for its signal, and only then registers. `did` are
        the steps it took, those every begin of the machine below takes (BeginsTakeTheseSteps). */
    method Begin(crowded: bool) returns (lease: ConnectionLease, took: Option<nat>, ghost did: seq<Deed>)
      modifies this
      ensures lease.id > old(nextId) && lease.supervisor == this && lease.Valid() && lease.unsent
      ensures active == Some(lease.id) && lease.id <= nextId
      ensures deeds == old(deeds) + did && Steps(did) == BeginSteps(lease.id, took)
      ensures took == did[2].met.active
      ensures took.Some? ==> took.value in aborted && took.value in signalled
      ensures !crowded ==> took == old(active)
    {
      ghost var before := deeds;
      var id := NewId();
      ghost var first, taking := deeds[|before|..], deeds[|before|..];
      took, taking := Replace(id, crowded);
      did := first + taking;
      Install(id);
      did := Add(before, did, deeds[|deeds| - 1]);
      GiveLockBack(id);
      did := Add(before, did, deeds[|deeds| - 1]);
      lease := new ConnectionLease(id, this);
    }

    /** The part under the replacement lock before registering. */
    method Replace(id: nat, crowded: bool) returns (took: Option<nat>, ghost did: seq<Deed>)
      modifies this
      ensures nextId >= old(nextId) && deeds == old(deeds) + did && |did| >= 2
      ensures Steps(did) == TakingOver(id, took)[1..] && took == did[1].met.active
      ensures took.Some? ==> took.value in aborted && took.value in signalled
      ensures !crowded ==> took == old(active)
    {
      AwaitLock(id, crowded);
      ghost var locked := deeds[|deeds| - 1];
      took := TakeActive(id);
      did := [locked, deeds[|deeds| - 1]];
      if took.Some? {
        AbortTaken(id, took.value);
        ghost var aborting := deeds[|deeds| - 1];
        AwaitDone(id, took.value);
        did := did + [aborting, deeds[|deeds| - 1]];
      }
    }
  }

  /** One deed more, after those before. */
  lemma Add(before: seq<Deed>, did: seq<Deed>, d: Deed) returns (more: seq<Deed>)
    ensures more == did + [d] && before + did + [d] == before + more && Steps(more) == Steps(did) + [d.step]
  {
    more := did + [d];
  }

  /** A lease holds the sender of its done signal until it is used once. */
  class ConnectionLease {
    const id: nat
    const supervisor: ConnectionSupervisor
    var unsent: bool
    var signals: nat

    constructor (id: nat, supervisor: ConnectionSupervisor)
      ensures this.id == id && this.supervisor == supervisor && unsent && signals == 0
    {
      this.id, this.supervisor := id, supervisor;
      unsent, signals := true, 0;
    }

    predicate Valid()
      reads this
    {
      signals == if unsent then 0 else 1
    }

    /** The signal at the end of `finish`, and of `Drop`, which also runs after `finish`. */
    method SignalDone() returns (first: bool)
      requires Valid()
      modifies this`unsent, this`signals
      ensures Valid() && signals == 1 && first == old(unsent)
    {
      first := unsent;
      if unsent {
        unsent := false;
        signals := signals + 1;
      }
    }

    /** The first half of `finish`. The signal follows without an await but outside the lock: other
        threads can act in between, so the machine below has two steps for it. */
    method ClearRegistration()
      requires Valid()
      modifies supervisor`active
      ensures Valid() && unsent == old(unsent)
      ensures supervisor.Now() == Cleared(old(supervisor.Now()), id)
    {
      supervisor.Finish(id);
    }

    /** Both halves, with nobody in between. */
    method Finish()
      requires Valid()
      modifies this`unsent, this`signals, supervisor`active
      ensures Valid() && signals == 1
      ensures supervisor.Now() == Cleared(old(supervisor.Now()), id)
    {
      ClearRegistration();
      var _ := SignalDone();
    }
  }

  // ---- every interleaving -------------------------------------------------------------------------

  datatype Phase =
    | Queued                                        // numbered, waiting for the replacement lock
    | Locked                                        // holding it, waiting to take the active connection
    | Took(previous: nat)                           // has taken it, about to abort it
    | Awaiting(previous: nat)                       // has aborted it, waiting for its done signal
    | Installing(took: Option<nat>)                 // waiting to register
    | Registered(took: Option<nat>)                 // registered, about to give the lock back
    | Running(took: Option<nat>, aborted: bool)     // begun: the transport runs
    | Ended(took: Option<nat>, aborted: bool)       // the transport ended, the lease is still to be closed
    | Closing(took: Option<nat>, aborted: bool, freed: bool)  // about to signal; freed: it cleared itself
    | Over                                          // signalled
    | Withdrawn                                     // cancelled while beginning

  /** `signals` counts done signals, `cleanups` are dropped leases whose spawned finish is still to run,
      `orphans` are connections aborted by a replacement that was itself cancelled while waiting. */
  datatype State = State(sup: Supervisor, phases: map<nat, Phase>, lock: Option<nat>, signals: map<nat, nat>,
                         cleanups: set<nat>, orphans: set<nat>)

  const START := State(Supervisor(0, None), map[], None, map[], {}, {})

  /** A connection dropped while its transport runs is TransportEnds and then DropLease: dropping
      closes the stream first. */
  datatype Step =
    | Begin
    | TakeLock(id: nat)
    | TakePrevious(id: nat)
    | AbortPrevious(id: nat)
    | DoneArrives(id: nat)
    | Register(id: nat)
    | Return(id: nat)
    | CancelBegin(id: nat)
    | TransportEnds(id: nat)
    | ClearLease(id: nat)
    | DropLease(id: nat, spawned: bool)   // spawned is false outside a runtime
    | SendDone(id: nat)
    | Cleanup(id: nat)

  /** The steps of a begin, by what it takes over. */
  function BeginSteps(id: nat, took: Option<nat>): seq<Step> { TakingOver(id, took) + [Register(id)] + [Return(id)] }

  function TakingOver(id: nat, took: Option<nat>): seq<Step> {
    if took.Some? then [Begin, TakeLock(id), TakePrevious(id), AbortPrevious(id), DoneArrives(id)]
    else [Begin, TakeLock(id), TakePrevious(id)]
  }

  predicate Is(s: State, id: nat, test: Phase -> bool) { id in s.phases && test(s.phases[id]) }

  /** Where a begin awaits, and so can be cancelled. */
  predicate Suspended(p: Phase) { p.Queued? || p.Locked? || p.Awaiting? || p.Installing? }
  predicate Leased(p: Phase) { p.Running? || p.Ended? || p.Closing? }
  predicate InLock(p: Phase) { p.Locked? || p.Took? || p.Awaiting? || p.Installing? || p.Registered? }

  function Signals(s: State, id: nat): nat { if id in s.signals then s.signals[id] else 0 }

  predicate Enabled(s: State, step: Step) {
    match step
    case Begin => true
    case TakeLock(id) => s.lock.None? && Is(s, id, (p: Phase) => p.Queued?)
    case TakePrevious(id) => Is(s, id, (p: Phase) => p.Locked?)
    case AbortPrevious(id) => Is(s, id, (p: Phase) => p.Took?)
    case DoneArrives(id) => Is(s, id, (p: Phase) => p.Awaiting?) && Signals(s, s.phases[id].previous) > 0
    case Register(id) => Is(s, id, (p: Phase) => p.Installing?)
    case Return(id) => Is(s, id, (p: Phase) => p.Registered?)
    case CancelBegin(id) => Is(s, id, Suspended)
    case TransportEnds(id) => Is(s, id, (p: Phase) => p.Running?)
    case ClearLease(id) => Is(s, id, (p: Phase) => p.Ended?)
    case DropLease(id, _) => Is(s, id, (p: Phase) => p.Ended?)
    case SendDone(id) => Is(s, id, (p: Phase) => p.Closing?)
    case Cleanup(id) => id in s.cleanups
  }

  function Put(s: State, id: nat, p: Phase): State { s.(phases := s.phases[id := p]) }

  /** Aborting a running transport marks it; it ends at its next poll. One already over feels nothing. */
  function AbortedPhase(p: Phase): Phase {
    match p
    case Running(took, _) => Running(took, true)
    case Ended(took, _) => Ended(took, true)
    case Closing(took, _, freed) => Closing(took, true, freed)
    case _ => p
  }

  function Abort(s: State, id: nat): State {
    if id in s.phases then Put(s, id, AbortedPhase(s.phases[id])) else s
  }

  function Signal(s: State, id: nat): State { s.(signals := s.signals[id := Signals(s, id) + 1]) }

  /** A spawned finish that comes while its lease has not signalled yet frees it too. */
  function FreedPhase(s: State, id: nat, p: Phase): Phase {
    if p.Closing? && s.sup.active == Some(id) then p.(freed := true) else p
  }

  function Apply(s: State, step: Step): State
    requires Enabled(s, step)
  {
    match step
    case Begin => Put(s.(sup := Numbered(s.sup)), s.sup.next + 1, Queued)
    case TakeLock(id) => Put(s.(lock := Some(id)), id, Locked)
    case TakePrevious(id) =>
      (match s.sup.active
       case None => Put(s, id, Installing(None))
       case Some(previous) => Put(s.(sup := Taken(s.sup)), id, Took(previous)))
    case AbortPrevious(id) => Put(Abort(s, s.phases[id].previous), id, Awaiting(s.phases[id].previous))
    case DoneArrives(id) => Put(s, id, Installing(Some(s.phases[id].previous)))
    case Register(id) => Put(s.(sup := Installed(s.sup, id)), id, Registered(s.phases[id].took))
    case Return(id) => Put(s.(lock := None), id, Running(s.phases[id].took, false))
    case CancelBegin(id) =>
      var p := s.phases[id];
      Put(s.(lock := if InLock(p) then None else s.lock,
             orphans := if p.Awaiting? then s.orphans + {p.previous} else s.orphans), id, Withdrawn)
    case TransportEnds(id) => Put(s, id, Ended(s.phases[id].took, s.phases[id].aborted))
    case ClearLease(id) =>
      Put(s.(sup := Cleared(s.sup, id)), id,
          Closing(s.phases[id].took, s.phases[id].aborted, s.sup.active == Some(id)))
    case DropLease(id, spawned) =>
      Put(s.(cleanups := if spawned then s.cleanups + {id} else s.cleanups), id,
          Closing(s.phases[id].took, s.phases[id].aborted, false))
    case SendDone(id) => Put(Signal(s, id), id, Over)
    case Cleanup(id) =>
      var t := s.(sup := Cleared(s.sup, id), cleanups := s.cleanups - {id});
      if id in s.phases then Put(t, id, FreedPhase(s, id, s.phases[id])) else t
  }

  ghost predicate Possible(s: State, steps: seq<Step>)
    decreases |steps|
  {
    steps == [] || (Enabled(s, steps[0]) && Possible(Apply(s, steps[0]), steps[1..]))
  }

  ghost function Exec(s: State, steps: seq<Step>): State
    requires Possible(s, steps)
    decreases |steps|
  {
    if steps == [] then s else Exec(Apply(s, steps[0]), steps[1..])
  }

  // ---- the invariant --------------------------------------------------------------------------------

  predicate Aborted(p: Phase) { (p.Running? || p.Ended? || p.Closing?) && p.aborted }
  predicate Freed(p: Phase) { p.Closing? && p.freed }
  predicate Begun(p: Phase) { p.Installing? || p.Registered? || p.Running? || p.Ended? || p.Closing? }

  ghost predicate Awaited(s: State, id: nat) { exists w :: w in s.phases && s.phases[w] == Awaiting(id) }
  ghost predicate BeingAborted(s: State, id: nat) { exists w :: w in s.phases && s.phases[w] == Took(id) }

  /** Ended for good, and said so. */
  predicate Past(s: State, id: nat) { id in s.phases && s.phases[id].Over? }

  /** A lease the supervisor, or a replacement that took it over, still knows of. */
  predicate Untouched(s: State, id: nat) {
    id in s.phases && Leased(s.phases[id]) && !Aborted(s.phases[id]) && !Freed(s.phases[id])
  }

  /** How a connection that is beginning, or has begun, stands to the others. */
  ghost predicate PhaseOk(s: State, id: nat)
    requires id in s.phases
  {
    var p := s.phases[id];
    && 0 < id <= s.sup.next
    && (InLock(p) ==> s.lock == Some(id))
    && (p.Took? || p.Awaiting? || p.Installing? ==> s.sup.active.None?)
    && (p.Registered? ==> s.sup.active == Some(id))
    && (p.Took? ==> p.previous != id && (Untouched(s, p.previous) || Past(s, p.previous)))
    && (p.Awaiting? ==> p.previous != id && p.previous in s.phases
                        && (Aborted(s.phases[p.previous]) || Past(s, p.previous)))
    && (Begun(p) ==> p.took.Some? ==> Past(s, p.took.value))
    && Signals(s, id) == if p.Over? then 1 else 0
  }

  /** A lease not aborted is registered or about to be aborted, unless its own finish freed it; an
      aborted one is awaited, unless its replacement withdrew. */
  ghost predicate LeaseOk(s: State, id: nat)
    requires id in s.phases
  {
    var p := s.phases[id];
    && (Untouched(s, id) ==> s.sup.active == Some(id) || BeingAborted(s, id))
    && (Aborted(p) ==> !Freed(p) && (id in s.orphans || Awaited(s, id)))
  }

  ghost predicate SupervisorOk(s: State) {
    && (s.sup.active.Some? ==>
          var k := s.sup.active.value;
          Past(s, k) || Untouched(s, k) || Is(s, k, (p: Phase) => p.Registered?))
    && (forall id :: id in s.signals ==> id in s.phases)
    && (forall id :: id in s.cleanups ==> Past(s, id) || Is(s, id, (p: Phase) => p.Closing?))
  }

  ghost predicate Inv(s: State) {
    SupervisorOk(s) && forall id :: id in s.phases ==> PhaseOk(s, id) && LeaseOk(s, id)
  }

  // ---- every step keeps it -----------------------------------------------------------------------------

  /** The connection a step belongs to. */
  function Who(s: State, step: Step): nat {
    match step
    case Begin => s.sup.next + 1
    case TakeLock(id) => id
    case TakePrevious(id) => id
    case AbortPrevious(id) => id
    case DoneArrives(id) => id
    case Register(id) => id
    case Return(id) => id
    case CancelBegin(id) => id
    case TransportEnds(id) => id
    case ClearLease(id) => id
    case DropLease(id, _) => id
    case SendDone(id) => id
    case Cleanup(id) => id
  }

  /** Ids are new: nobody has the next one. */
  lemma NextIsNew(s: State)
    requires Inv(s)
    ensures s.sup.next + 1 !in s.phases && s.sup.next + 1 !in s.signals
  {
    forall id | id in s.phases ensures id <= s.sup.next { assert PhaseOk(s, id); }
  }

  /** From taking the active connection over until registering, nothing is registered. */
  lemma NoneRegisteredWhileReplacing(s: State)
    requires Inv(s)
    ensures forall w :: w in s.phases && (s.phases[w].Took? || s.phases[w].Awaiting? || s.phases[w].Installing?) ==>
              s.sup.active.None?
  {
    forall w | w in s.phases ensures PhaseOk(s, w) {}
  }

  /** A step touches no other connection, except that aborting marks the one taken over. */
  lemma OthersUntouched(s: State, step: Step, id: nat)
    requires Inv(s) && Enabled(s, step) && id in s.phases && id != Who(s, step)
    ensures var t := Apply(s, step);
      && id in t.phases && Signals(t, id) == Signals(s, id)
      && (t.phases[id] == s.phases[id] ||
          (step.AbortPrevious? && s.phases[step.id] == Took(id) && t.phases[id] == AbortedPhase(s.phases[id])))
  {
    assert PhaseOk(s, id);
  }

  /** What was over stays over. */
  lemma PastStaysPast(s: State, step: Step, id: nat)
    requires Inv(s) && Enabled(s, step) && Past(s, id)
    ensures Past(Apply(s, step), id)
  {
    NextIsNew(s);
    if id != Who(s, step) { OthersUntouched(s, step, id); }
  }

  /** What is awaited stays aborted until it is over. */
  lemma AbortedKept(s: State, step: Step, id: nat)
    requires Inv(s) && Enabled(s, step) && id in s.phases && (Aborted(s.phases[id]) || Past(s, id))
    ensures var t := Apply(s, step); id in t.phases && (Aborted(t.phases[id]) || Past(t, id))
  {
    NextIsNew(s);
    assert LeaseOk(s, id);
    if id != Who(s, step) { OthersUntouched(s, step, id); }
  }

  /** What is taken over stays untouched until it is aborted, or is over. */
  lemma TakenKept(s: State, step: Step, w: nat, id: nat)
    requires Inv(s) && Enabled(s, step) && w in s.phases && s.phases[w] == Took(id) && w != Who(s, step)
    ensures Untouched(Apply(s, step), id) || Past(Apply(s, step), id)
  {
    NextIsNew(s);
    assert PhaseOk(s, w);
    if Past(s, id) { PastStaysPast(s, step, id); }
    else {
      if id != Who(s, step) { OthersUntouched(s, step, id); }
      if Who(s, step) in s.phases { assert PhaseOk(s, Who(s, step)); }
    }
  }

  /** While someone else holds the lock, nobody else takes it, and the registration only goes away. */
  lemma LockKept(s: State, step: Step, id: nat)
    requires Inv(s) && Enabled(s, step) && id in s.phases && id != Who(s, step) && InLock(s.phases[id])
    ensures Apply(s, step).lock == Some(id) && Apply(s, step).phases[id] == s.phases[id]
    ensures s.sup.active.None? ==> Apply(s, step).sup.active.None?
    ensures s.phases[id].Registered? ==> Apply(s, step).sup.active == Some(id)
  {
    NextIsNew(s);
    assert PhaseOk(s, id) && LeaseOk(s, id);
    OthersUntouched(s, step, id);
    if Who(s, step) in s.phases { assert PhaseOk(s, Who(s, step)); }
  }

  lemma OtherPhaseKept(s: State, step: Step, id: nat)
    requires Inv(s) && Enabled(s, step) && id in s.phases && id != Who(s, step)
    ensures PhaseOk(Apply(s, step), id)
  {
    assert PhaseOk(s, id);
    OthersUntouched(s, step, id);
    var p := s.phases[id];
    if InLock(p) { LockKept(s, step, id); }
    if p.Took? { TakenKept(s, step, id, p.previous); }
    if p.Awaiting? { AbortedKept(s, step, p.previous); }
    if Begun(p) && p.took.Some? { PastStaysPast(s, step, p.took.value); }
  }

  lemma OwnBeginKept(s: State, step: Step)
    requires Inv(s) && Enabled(s, step)
    requires step.TakePrevious? || step.AbortPrevious? || step.DoneArrives?
    ensures PhaseOk(Apply(s, step), step.id)
  {
    var p := s.phases[step.id];
    assert PhaseOk(s, step.id);
    if p.Took? || p.Awaiting? {
      if p.previous in s.phases { assert PhaseOk(s, p.previous); }
    }
  }

  lemma OwnPhaseKept(s: State, step: Step)
    requires Inv(s) && Enabled(s, step)
    ensures var id := Who(s, step); id in Apply(s, step).phases ==> PhaseOk(Apply(s, step), id)
  {
    NextIsNew(s);
    var id := Who(s, step);
    if step.TakePrevious? || step.AbortPrevious? || step.DoneArrives? {
      OwnBeginKept(s, step);
    } else if id in s.phases {
      assert PhaseOk(s, id) && LeaseOk(s, id);
      var p := s.phases[id];
      if Begun(p) && p.took.Some? && p.took.value != id { PastStaysPast(s, step, p.took.value); }
    }
  }

  lemma AwaitedKept(s: State, step: Step, id: nat)
    requires Inv(s) && Enabled(s, step) && id in Apply(s, step).phases && Aborted(Apply(s, step).phases[id])
    requires id in s.phases && Awaited(s, id)
    ensures id in Apply(s, step).orphans || Awaited(Apply(s, step), id)
  {
    var w :| w in s.phases && s.phases[w] == Awaiting(id);
    assert PhaseOk(s, w) && PhaseOk(s, id);
    if w != Who(s, step) {
      OthersUntouched(s, step, w);
      assert Apply(s, step).phases[w] == Awaiting(id);
    }
  }

  lemma BeingAbortedKept(s: State, step: Step, id: nat)
    requires Inv(s) && Enabled(s, step) && id in s.phases && BeingAborted(s, id) && Untouched(Apply(s, step), id)
    ensures BeingAborted(Apply(s, step), id)
  {
    var w :| w in s.phases && s.phases[w] == Took(id);
    assert PhaseOk(s, w);
    if w != Who(s, step) {
      OthersUntouched(s, step, w);
      assert Apply(s, step).phases[w] == Took(id);
    }
  }

  /** Whoever is no longer registered has been taken over, or was freed by its own finish. */
  lemma RegistrationMoves(s: State, step: Step, id: nat)
    requires Inv(s) && Enabled(s, step) && s.sup.active == Some(id) && Untouched(s, id) && Untouched(Apply(s, step), id)
    ensures Apply(s, step).sup.active == Some(id) || BeingAborted(Apply(s, step), id)
  {
    NoneRegisteredWhileReplacing(s);
    if step.TakePrevious? { assert Apply(s, step).phases[step.id] == Took(id); }
  }

  /** The step that aborts leaves its own connection waiting for the one aborted. */
  lemma AborterWaits(s: State, step: Step, id: nat)
    requires Inv(s) && Enabled(s, step) && id in s.phases && !Aborted(s.phases[id])
    requires id in Apply(s, step).phases && Aborted(Apply(s, step).phases[id])
    ensures Awaited(Apply(s, step), id)
  {
    if id != Who(s, step) {
      OthersUntouched(s, step, id);
      assert Apply(s, step).phases[step.id] == Awaiting(id);
    }
  }

  lemma FreedStays(s: State, step: Step, id: nat)
    requires Inv(s) && Enabled(s, step) && id in s.phases && id in Apply(s, step).phases
    ensures Aborted(Apply(s, step).phases[id]) ==> !Freed(Apply(s, step).phases[id])
  {
    assert LeaseOk(s, id);
    if id != Who(s, step) {
      OthersUntouched(s, step, id);
      if step.AbortPrevious? { assert PhaseOk(s, step.id); }
    }
    if Aborted(s.phases[id]) && s.sup.active == Some(id) { assert !Past(s, id) && !Untouched(s, id); }
  }

  lemma LeaseKept(s: State, step: Step, id: nat)
    requires Inv(s) && Enabled(s, step) && id in Apply(s, step).phases
    ensures LeaseOk(Apply(s, step), id)
  {
    var t := Apply(s, step);
    NextIsNew(s);
    if id in s.phases {
      assert PhaseOk(s, id) && LeaseOk(s, id);
      FreedStays(s, step, id);
      if Aborted(t.phases[id]) {
        if !Aborted(s.phases[id]) { AborterWaits(s, step, id); }
        else if Awaited(s, id) { AwaitedKept(s, step, id); }
      }
      if Untouched(t, id) { UntouchedKnown(s, step, id); }
    }
  }

  lemma UntouchedKnown(s: State, step: Step, id: nat)
    requires Inv(s) && Enabled(s, step) && id in s.phases && Untouched(Apply(s, step), id)
    ensures Apply(s, step).sup.active == Some(id) || BeingAborted(Apply(s, step), id)
  {
    assert PhaseOk(s, id) && LeaseOk(s, id);
    if id != Who(s, step) { OthersUntouched(s, step, id); }
    if Untouched(s, id) {
      if s.sup.active == Some(id) { RegistrationMoves(s, step, id); } else { BeingAbortedKept(s, step, id); }
    }
  }

  lemma SupervisorKept(s: State, step: Step)
    requires Inv(s) && Enabled(s, step)
    ensures SupervisorOk(Apply(s, step))
  {
    var t := Apply(s, step);
    NextIsNew(s);
    if t.sup.active.Some? { ActiveKept(s, step, t.sup.active.value); }
    forall id | id in t.cleanups ensures Past(t, id) || Is(t, id, (p: Phase) => p.Closing?) {
      if id in s.cleanups { CleanupKept(s, step, id); }
    }
  }

  lemma CleanupKept(s: State, step: Step, id: nat)
    requires Inv(s) && Enabled(s, step) && id in s.cleanups
    ensures Past(Apply(s, step), id) || Is(Apply(s, step), id, (p: Phase) => p.Closing?)
  {
    NextIsNew(s);
    assert id in s.phases;
    if id != Who(s, step) { OthersUntouched(s, step, id); }
  }

  lemma ActiveKept(s: State, step: Step, k: nat)
    requires Inv(s) && Enabled(s, step) && Apply(s, step).sup.active == Some(k)
    ensures var t := Apply(s, step); Past(t, k) || Untouched(t, k) || Is(t, k, (p: Phase) => p.Registered?)
  {
    NextIsNew(s);
    NoneRegisteredWhileReplacing(s);
    if !step.Register? {
      assert s.sup.active == Some(k);
      if k != Who(s, step) {
        OthersUntouched(s, step, k);
      }
    }
  }

  lemma StepKeeps(s: State, step: Step)
    requires Inv(s) && Enabled(s, step)
    ensures Inv(Apply(s, step))
  {
    var t := Apply(s, step);
    SupervisorKept(s, step);
    forall id | id in t.phases ensures PhaseOk(t, id) && LeaseOk(t, id) {
      LeaseKept(s, step, id);
      if id == Who(s, step) { OwnPhaseKept(s, step); } else { OtherPhaseKept(s, step, id); }
    }
  }

  lemma {:induction false} EveryRunKeeps(s: State, steps: seq<Step>)
    requires Inv(s) && Possible(s, steps)
    ensures Inv(Exec(s, steps))
    decreases |steps|
  {
    if steps != [] {
      StepKeeps(s, steps[0]);
      EveryRunKeeps(Apply(s, steps[0]), steps[1..]);
    }
  }

  // ---- what it gives ------------------------------------------------------------------------------------

  predicate Runs(s: State, id: nat) { id in s.phases && s.phases[id].Running? }
  predicate Holds(s: State, id: nat) { id in s.phases && Leased(s.phases[id]) }

  /** A connection number is given out once. */
  lemma NumbersAreNew(steps: seq<Step>)
    requires Possible(START, steps)
    ensures var s := Exec(START, steps); Apply(s, Begin).sup.next !in s.phases
  {
    EveryRunKeeps(START, steps);
    NextIsNew(Exec(START, steps));
  }

  lemma BeingAbortedIsLocked(s: State, id: nat)
    requires Inv(s) && BeingAborted(s, id)
    ensures s.sup.active.None? && s.lock.Some? && s.lock.value in s.phases && s.phases[s.lock.value] == Took(id)
  {
    var w :| w in s.phases && s.phases[w] == Took(id);
    assert PhaseOk(s, w);
  }

  lemma AwaitedMeansLocked(s: State, id: nat)
    requires Inv(s) && Awaited(s, id)
    ensures s.sup.active.None? && s.lock.Some? && s.lock.value in s.phases && s.phases[s.lock.value] == Awaiting(id)
  {
    var w :| w in s.phases && s.phases[w] == Awaiting(id);
    assert PhaseOk(s, w);
  }

  /** In every interleaving at most one running transport is not aborted: the registered one, or the
      one a replacement has just taken over and is about to abort. */
  lemma AtMostOneLive(steps: seq<Step>, a: nat, b: nat)
    requires Possible(START, steps)
    requires var s := Exec(START, steps);
      && Runs(s, a) && !Aborted(s.phases[a])
      && Runs(s, b) && !Aborted(s.phases[b])
    ensures a == b && var s := Exec(START, steps); s.sup.active == Some(a) || BeingAborted(s, a)
  {
    EveryRunKeeps(START, steps);
    var s := Exec(START, steps);
    assert LeaseOk(s, a) && LeaseOk(s, b);
    if BeingAborted(s, a) { BeingAbortedIsLocked(s, a); }
    if BeingAborted(s, b) { BeingAbortedIsLocked(s, b); }
  }

  /** The one lease that is registered, about to be aborted, or awaited. */
  ghost predicate Known(s: State, id: nat) { s.sup.active == Some(id) || BeingAborted(s, id) || Awaited(s, id) }

  lemma KnownIsUnique(s: State, a: nat, b: nat)
    requires Inv(s) && Known(s, a) && Known(s, b)
    ensures a == b
  {
    if BeingAborted(s, a) { BeingAbortedIsLocked(s, a); }
    if BeingAborted(s, b) { BeingAbortedIsLocked(s, b); }
    if Awaited(s, a) { AwaitedMeansLocked(s, a); }
    if Awaited(s, b) { AwaitedMeansLocked(s, b); }
  }

  /** What the supervisor or a replacement knows of was not freed. */
  lemma KnownIsNotFreed(s: State, id: nat)
    requires Inv(s) && Holds(s, id) && Known(s, id)
    ensures !Freed(s.phases[id])
  {
    assert LeaseOk(s, id);
    if BeingAborted(s, id) {
      BeingAbortedIsLocked(s, id);
      assert PhaseOk(s, s.lock.value);
    } else if Awaited(s, id) {
      AwaitedMeansLocked(s, id);
      assert PhaseOk(s, s.lock.value);
    }
  }

  /** A lease that was not orphaned is known exactly until its own finish frees it. */
  lemma KnownUntilFreed(s: State, id: nat)
    requires Inv(s) && Holds(s, id) && id !in s.orphans
    ensures Known(s, id) <==> !Freed(s.phases[id])
  {
    assert LeaseOk(s, id);
    if Known(s, id) { KnownIsNotFreed(s, id); }
  }

  /** Aborted or not, two transports run at once only if one of them was orphaned: an aborted
      connection is waited for by the only one holding the replacement lock. */
  lemma OneTransportAtATime(steps: seq<Step>, a: nat, b: nat)
    requires Possible(START, steps)
    requires var s := Exec(START, steps);
      Runs(s, a) && a !in s.orphans && Runs(s, b) && b !in s.orphans
    ensures a == b
  {
    EveryRunKeeps(START, steps);
    var s := Exec(START, steps);
    KnownUntilFreed(s, a);
    KnownUntilFreed(s, b);
    KnownIsUnique(s, a, b);
  }

  /** No replacement was cancelled while it waited for the connection it had aborted. */
  ghost predicate NoneWithdrewWaiting(s: State, steps: seq<Step>)
    requires Possible(s, steps)
    decreases |steps|
  {
    steps == [] ||
    ((steps[0].CancelBegin? ==> !s.phases[steps[0].id].Awaiting?)
      && NoneWithdrewWaiting(Apply(s, steps[0]), steps[1..]))
  }

  lemma {:induction false} OrphansNeedAWithdrawal(s: State, steps: seq<Step>)
    requires Possible(s, steps) && NoneWithdrewWaiting(s, steps) && s.orphans == {}
    ensures Exec(s, steps).orphans == {}
    decreases |steps|
  {
    if steps != [] { OrphansNeedAWithdrawal(Apply(s, steps[0]), steps[1..]); }
  }

  lemma OneTransportUnlessWithdrawn(steps: seq<Step>, a: nat, b: nat)
    requires Possible(START, steps) && NoneWithdrewWaiting(START, steps)
    requires Runs(Exec(START, steps), a) && Runs(Exec(START, steps), b)
    ensures a == b
  {
    OrphansNeedAWithdrawal(START, steps);
    OneTransportAtATime(steps, a, b);
  }

  // ---- the steps of a begin -----------------------------------------------------------------------------

  /** What a connection has done of its begin, by its phase; None once that is forgotten. */
  function Path(s: State, id: nat): Option<seq<Step>> {
    if id !in s.phases then Some([])
    else
      match s.phases[id]
      case Queued => Some([Begin])
      case Locked => Some([Begin, TakeLock(id)])
      case Took(_) => Some([Begin, TakeLock(id), TakePrevious(id)])
      case Awaiting(_) => Some([Begin, TakeLock(id), TakePrevious(id), AbortPrevious(id)])
      case Installing(took) => Some(TakingOver(id, took))
      case Registered(took) => Some(TakingOver(id, took) + [Register(id)])
      case Running(took, _) => Some(BeginSteps(id, took))
      case Ended(took, _) => Some(BeginSteps(id, took))
      case Closing(took, _, _) => Some(BeginSteps(id, took))
      case Over => None
      case Withdrawn => None
  }

  predicate OfBegin(step: Step) {
    || step.Begin? || step.TakeLock? || step.TakePrevious? || step.AbortPrevious? || step.DoneArrives?
    || step.Register? || step.Return?
  }

  /** The step, if it is one of this connection's begin. */
  function OwnStep(s: State, step: Step, id: nat): seq<Step> {
    if OfBegin(step) && Who(s, step) == id then [step] else []
  }

  function OwnSteps(s: State, steps: seq<Step>, id: nat): seq<Step>
    requires Possible(s, steps)
    decreases |steps|
  {
    if steps == [] then [] else OwnStep(s, steps[0], id) + OwnSteps(Apply(s, steps[0]), steps[1..], id)
  }

  lemma OtherPathStep(s: State, step: Step, id: nat)
    requires Inv(s) && Enabled(s, step) && Path(Apply(s, step), id).Some? && id != Who(s, step)
    ensures Path(Apply(s, step), id) == Path(s, id)
  {
    if id in s.phases { OthersUntouched(s, step, id); }
  }

  lemma OwnPathStep(s: State, step: Step)
    requires Inv(s) && Enabled(s, step) && Path(Apply(s, step), Who(s, step)).Some?
    ensures var id := Who(s, step);
      Path(s, id).Some? && Path(Apply(s, step), id).value == Path(s, id).value + OwnStep(s, step, id)
  {
    NextIsNew(s);
  }

  lemma PathStep(s: State, step: Step, id: nat)
    requires Inv(s) && Enabled(s, step) && Path(Apply(s, step), id).Some?
    ensures Path(s, id).Some? && Path(Apply(s, step), id).value == Path(s, id).value + OwnStep(s, step, id)
  {
    if id == Who(s, step) { OwnPathStep(s, step); } else { OtherPathStep(s, step, id); }
  }

  lemma {:induction false} PathSteps(s: State, steps: seq<Step>, id: nat)
    requires Inv(s) && Possible(s, steps) && Path(Exec(s, steps), id).Some?
    ensures Path(s, id).Some? && Path(Exec(s, steps), id).value == Path(s, id).value + OwnSteps(s, steps, id)
    decreases |steps|
  {
    if steps != [] {
      StepKeeps(s, steps[0]);
      PathSteps(Apply(s, steps[0]), steps[1..], id);
      PathStep(s, steps[0], id);
      ConcatAssoc(Path(s, id).value, OwnStep(s, steps[0], id), OwnSteps(Apply(s, steps[0]), steps[1..], id));
    }
  }

  /** In every interleaving, a connection that has begun and not ended has taken exactly the steps of a begin,
      in order: it took over what it found, aborted it and awaited its signal before it registered. */
  lemma BeginsTakeTheseSteps(steps: seq<Step>, id: nat)
    requires Possible(START, steps) && Holds(Exec(START, steps), id)
    ensures OwnSteps(START, steps, id) == BeginSteps(id, Exec(START, steps).phases[id].took)
  {
    assert Inv(START);
    PathSteps(START, steps, id);
  }

  // ---- leases outlive transports ----------------------------------------------------------------------

  /** Two leases that were not orphaned coexist only when one of them has ended and its own finish has
      cleared its registration but not yet signalled. */
  lemma LeasesOverlapOnlyWhenFreed(steps: seq<Step>, a: nat, b: nat)
    requires Possible(START, steps) && a != b
    requires var s := Exec(START, steps); Holds(s, a) && a !in s.orphans && Holds(s, b) && b !in s.orphans
    ensures var s := Exec(START, steps); Freed(s.phases[a]) || Freed(s.phases[b])
  {
    EveryRunKeeps(START, steps);
    var s := Exec(START, steps);
    KnownUntilFreed(s, a);
    KnownUntilFreed(s, b);
    if !Freed(s.phases[a]) && !Freed(s.phases[b]) { KnownIsUnique(s, a, b); }
  }

  /** A whole begin that waits for nobody. */
  function FreeBegin(id: nat): seq<Step> {
    [Begin] + ([TakeLock(id)] + ([TakePrevious(id)] + ([Register(id)] + [Return(id)])))
  }

  /** And then they do: with the lock free and no other connection registered, a begin goes through
      beside a held lease exactly when that lease has been freed. */
  lemma BeginsBesideExactlyTheFreed(steps: seq<Step>, id: nat)
    requires Possible(START, steps)
    requires var s := Exec(START, steps);
      && Holds(s, id) && id !in s.orphans && s.lock.None? && (s.sup.active.None? || s.sup.active == Some(id))
    ensures var s := Exec(START, steps);
      Possible(s, FreeBegin(s.sup.next + 1)) <==> Freed(s.phases[id])
    ensures var s := Exec(START, steps);
      var next := s.sup.next + 1;
      Freed(s.phases[id]) ==>
        && Possible(s, FreeBegin(next)) && next != id
        && Runs(Exec(s, FreeBegin(next)), next) && Holds(Exec(s, FreeBegin(next)), id)
  {
    EveryRunKeeps(START, steps);
    var s := Exec(START, steps);
    RegisteredUnlessFreed(s, id);
    if Freed(s.phases[id]) { BeginsBeside(s, id); } else { BlockedBegin(s, s.sup.next + 1); }
  }

  /** With the lock free nobody is taking over or waiting, so a known lease is the registered one. */
  lemma RegisteredUnlessFreed(s: State, id: nat)
    requires Inv(s) && Holds(s, id) && id !in s.orphans && s.lock.None?
    ensures s.sup.active == Some(id) <==> !Freed(s.phases[id])
  {
    KnownUntilFreed(s, id);
    if BeingAborted(s, id) { BeingAbortedIsLocked(s, id); }
    if Awaited(s, id) { AwaitedMeansLocked(s, id); }
  }

  lemma BeginsBeside(s: State, id: nat)
    requires Inv(s) && Holds(s, id) && s.lock.None? && s.sup.active.None?
    ensures var next := s.sup.next + 1;
      && Possible(s, FreeBegin(next)) && next != id
      && Runs(Exec(s, FreeBegin(next)), next) && Holds(Exec(s, FreeBegin(next)), id)
  {
    NextIsNew(s);
    var _ := BeginAlone(s, s.sup.next + 1);
  }

  lemma Prepend(s: State, step: Step, steps: seq<Step>)
    requires Enabled(s, step)
    ensures Possible(s, [step] + steps) <==> Possible(Apply(s, step), steps)
    ensures Possible(Apply(s, step), steps) ==> Exec(s, [step] + steps) == Exec(Apply(s, step), steps)
  {
    assert ([step] + steps)[1..] == steps;
  }

  lemma RegisterAndReturn(s: State, id: nat) returns (t: State)
    requires id in s.phases && s.phases[id] == Installing(None)
    ensures var rest := [Register(id)] + [Return(id)]; Possible(s, rest) && t == Exec(s, rest)
    ensures t == State(Installed(s.sup, id), s.phases[id := Running(None, false)], None, s.signals, s.cleanups,
        s.orphans)
  {
    var s1 := Apply(s, Register(id));
    t := Apply(s1, Return(id));
    assert t.phases == s.phases[id := Running(None, false)];
    Prepend(s1, Return(id), []);
    assert [Return(id)] + [] == [Return(id)];
    Prepend(s, Register(id), [Return(id)]);
  }

  /** A begin that finds nothing registered. */
  lemma BeginAlone(s: State, id: nat) returns (t: State)
    requires s.sup.next + 1 == id && s.lock.None? && s.sup.active.None?
    ensures Possible(s, FreeBegin(id)) && t == Exec(s, FreeBegin(id))
    ensures t == State(Supervisor(id, Some(id)), s.phases[id := Running(None, false)], None, s.signals, s.cleanups,
        s.orphans)
  {
    var s1 := Apply(s, Begin);
    var s2 := Apply(s1, TakeLock(id));
    var s3 := Apply(s2, TakePrevious(id));
    t := RegisterAndReturn(s3, id);
    assert s3.phases[id := Running(None, false)] == s.phases[id := Running(None, false)];
    var rest := [Register(id)] + [Return(id)];
    Prepend(s2, TakePrevious(id), rest);
    Prepend(s1, TakeLock(id), [TakePrevious(id)] + rest);
    Prepend(s, Begin, [TakeLock(id)] + ([TakePrevious(id)] + rest));
  }

  /** A begin that finds a connection registered cannot go straight through. */
  lemma BlockedBegin(s: State, id: nat)
    requires s.sup.next + 1 == id && s.lock.None? && s.sup.active.Some?
    ensures !Possible(s, FreeBegin(id))
  {
    var s1 := Apply(s, Begin);
    var s2 := Apply(s1, TakeLock(id));
    var s3 := Apply(s2, TakePrevious(id));
    assert s3.phases[id].Took? && !Enabled(s3, Register(id));
    assert !Possible(s3, [Register(id)] + [Return(id)]);
    Prepend(s2, TakePrevious(id), [Register(id)] + [Return(id)]);
    Prepend(s1, TakeLock(id), [TakePrevious(id)] + ([Register(id)] + [Return(id)]));
    Prepend(s, Begin, [TakeLock(id)] + ([TakePrevious(id)] + ([Register(id)] + [Return(id)])));
  }

  lemma {:induction false} Chain(s: State, x: seq<Step>, y: seq<Step>)
    requires Possible(s, x) && Possible(Exec(s, x), y)
    ensures Possible(s, x + y) && Exec(s, x + y) == Exec(Exec(s, x), y)
    decreases |x|
  {
    if x == [] {
      assert x + y == y;
    } else {
      assert (x + y)[1..] == x[1..] + y;
      Chain(Apply(s, x[0]), x[1..], y);
    }
  }

  /** A freed lease is reached by one connection that begins, ends and clears its registration. */
  lemma FreedIsReachable() returns (steps: seq<Step>)
    ensures Possible(START, steps)
    ensures var s := Exec(START, steps);
      && Holds(s, 1) && Freed(s.phases[1]) && 1 !in s.orphans && s.lock.None? && s.sup.active.None?
         && Signals(s, 1) == 0
  {
    var s1 := BeginAlone(START, 1);
    var s2 := Apply(s1, TransportEnds(1));
    Prepend(s2, ClearLease(1), []);
    Prepend(s1, TransportEnds(1), [ClearLease(1)] + []);
    Chain(START, FreeBegin(1), [TransportEnds(1)] + ([ClearLease(1)] + []));
    steps := FreeBegin(1) + ([TransportEnds(1)] + ([ClearLease(1)] + []));
  }

  // ---- a replacement that withdraws -----------------------------------------------------------------------

  /** A begin cancelled while it waits leaves its aborted connection to itself: the next begin finds
      nothing registered and starts beside it. */
  lemma WithdrawalLetsTransportsOverlap(s: State, w: nat)
    requires Inv(s) && Is(s, w, (p: Phase) => p.Awaiting?) && Runs(s, s.phases[w].previous)
    ensures var id := s.sup.next + 1;
      var steps := [CancelBegin(w)] + FreeBegin(id);
      && Possible(s, steps)
      && s.phases[w].previous != id && Runs(Exec(s, steps), s.phases[w].previous) && Runs(Exec(s, steps), id)
  {
    var id, before := s.sup.next + 1, s.phases[w].previous;
    assert PhaseOk(s, w) && PhaseOk(s, before);
    var s1 := Apply(s, CancelBegin(w));
    var t := BeginAlone(s1, id);
    Prepend(s, CancelBegin(w), FreeBegin(id));
  }

  /** A begin that finds a running connection, up to its wait. */
  function WaitingBegin(id: nat): seq<Step> {
    [Begin] + ([TakeLock(id)] + ([TakePrevious(id)] + [AbortPrevious(id)]))
  }

  lemma BeginBehind(s: State, id: nat, before: nat) returns (t: State)
    requires s.sup.next + 1 == id && s.lock.None? && s.sup.active == Some(before)
    requires before != id && Runs(s, before)
    ensures Possible(s, WaitingBegin(id)) && t == Exec(s, WaitingBegin(id))
    ensures id in t.phases && t.phases[id] == Awaiting(before) && Runs(t, before)
  {
    var s1 := Apply(s, Begin);
    var s2 := Apply(s1, TakeLock(id));
    var s3 := Apply(s2, TakePrevious(id));
    t := Apply(s3, AbortPrevious(id));
    Prepend(s3, AbortPrevious(id), []);
    assert [AbortPrevious(id)] + [] == [AbortPrevious(id)];
    Prepend(s2, TakePrevious(id), [AbortPrevious(id)]);
    Prepend(s1, TakeLock(id), [TakePrevious(id)] + [AbortPrevious(id)]);
    Prepend(s, Begin, [TakeLock(id)] + ([TakePrevious(id)] + [AbortPrevious(id)]));
  }

  /** Such a state is reached by two connections beginning one after the other. */
  lemma WaitingIsReachable() returns (steps: seq<Step>)
    ensures Possible(START, steps)
    ensures var s := Exec(START, steps);
      2 in s.phases && s.phases[2] == Awaiting(1) && Runs(s, 1)
  {
    var s1 := BeginAlone(START, 1);
    var s2 := BeginBehind(s1, 2, 1);
    Chain(START, FreeBegin(1), WaitingBegin(2));
    steps := FreeBegin(1) + WaitingBegin(2);
  }

  // ---- predecessors, signals, late finishes -----------------------------------------------------------------

  /** A connection that superseded another begins only after that one is over and has said so. */
  lemma BeginsAfterItsPredecessor(steps: seq<Step>, id: nat)
    requires Possible(START, steps) && Holds(Exec(START, steps), id) && Exec(START, steps).phases[id].took.Some?
    ensures var s := Exec(START, steps);
      Past(s, s.phases[id].took.value) && Signals(s, s.phases[id].took.value) == 1
  {
    EveryRunKeeps(START, steps);
    var s := Exec(START, steps);
    assert PhaseOk(s, id);
    assert PhaseOk(s, s.phases[id].took.value);
  }

  /** Every lease signals done exactly once, finished or dropped, and never before. */
  lemma DoneExactlyOnce(steps: seq<Step>, id: nat)
    requires Possible(START, steps) && id in Exec(START, steps).phases
    ensures var s := Exec(START, steps); Signals(s, id) == if s.phases[id].Over? then 1 else 0
  {
    EveryRunKeeps(START, steps);
    assert PhaseOk(Exec(START, steps), id);
  }

  /** Clearing, dropping, signalling or cleaning up a connection, however late, takes no other connection
      off the supervisor's hands: whoever else is registered stays registered, in whatever phase, whoever
      is about to be aborted stays so, and no other connection's phase changes. */
  lemma LateFinishKeepsNewer(steps: seq<Step>, step: Step, id: nat)
    requires Possible(START, steps) && Enabled(Exec(START, steps), step)
    requires step.ClearLease? || step.DropLease? || step.SendDone? || step.Cleanup?
    requires id != step.id
    ensures var s, t := Exec(START, steps), Apply(Exec(START, steps), step);
      && (s.sup.active == Some(id) ==> t.sup.active == Some(id))
      && (BeingAborted(s, id) ==> BeingAborted(t, id))
      && (id in s.phases ==> id in t.phases && t.phases[id] == s.phases[id])
      && (Untouched(s, id) ==> t.sup.active == Some(id) || BeingAborted(t, id))
  {
    EveryRunKeeps(START, steps);
    var s := Exec(START, steps);
    StepKeeps(s, step);
    if id in s.phases {
      OthersUntouched(s, step, id);
      if Untouched(s, id) { assert LeaseOk(Apply(s, step), id); }
    }
    if BeingAborted(s, id) { OthersStillTaken(s, step, id); }
  }

  lemma OthersStillTaken(s: State, step: Step, id: nat)
    requires Inv(s) && Enabled(s, step) && BeingAborted(s, id)
    requires step.ClearLease? || step.DropLease? || step.SendDone? || step.Cleanup?
    ensures BeingAborted(Apply(s, step), id)
  {
    var w :| w in s.phases && s.phases[w] == Took(id);
    assert PhaseOk(s, w);
    if w != step.id { OthersUntouched(s, step, w); }
    assert Apply(s, step).phases[w] == Took(id);
  }

  /** The next step of an aborted connection on its way to its signal. */
  function NextToDone(s: State, id: nat): Step
    requires Holds(s, id)
  {
    match s.phases[id]
    case Running(_, _) => TransportEnds(id)
    case Ended(_, _) => ClearLease(id)
    case _ => SendDone(id)
  }

  /** How far it is from having signalled. */
  function FromDone(s: State, id: nat): nat {
    if !Holds(s, id) then 0 else match s.phases[id] case Running(_, _) => 3 case Ended(_, _) => 2 case _ => 1
  }

  /** A waiting replacement never stalls: it has been answered, or what it waits for has been aborted,
      still holds its lease, and can always take a step nearer to its signal. */
  lemma WaitingIsAnswered(steps: seq<Step>, id: nat)
    requires Possible(START, steps) && Is(Exec(START, steps), id, (p: Phase) => p.Awaiting?)
    ensures var s := Exec(START, steps);
      var previous := s.phases[id].previous;
      || Enabled(s, DoneArrives(id))
      || (Holds(s, previous) && Aborted(s.phases[previous]) && Enabled(s, NextToDone(s, previous))
          && FromDone(Apply(s, NextToDone(s, previous)), previous) < FromDone(s, previous))
  {
    EveryRunKeeps(START, steps);
    var s := Exec(START, steps);
    assert PhaseOk(s, id) && PhaseOk(s, s.phases[id].previous);
  }
}
