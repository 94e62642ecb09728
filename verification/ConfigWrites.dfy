/** Optimistic writes of the configuration file (app/routers/admin.py). A writer loads the file,
    edits what it loaded, and commits under the write guard only if the file is still what it
    loaded, checked on entry and again just before the replacement. A failed reload of the memory
    section is compensated by one more such write. Content hashes are taken to be injective, so
    comparing hashes is comparing files. */
module ConfigWrites {
  import opened Common

  datatype Section = Mapping(fields: map<string, string>) | Plain(text: string)

  type Data = map<string, Section>

  /** The file: `layout` tells apart files that differ only in formatting. */
  datatype Disk = Missing | Garbled(bytes: nat) | Good(data: Data, layout: nat)

  function Dumped(d: Data): Disk { Good(d, 0) }

  const MEMORY := "memory"

  /** `_memory_raw_config`: anything but a mapping reads as an empty one. */
  function RawMemory(d: Data): map<string, string> {
    if MEMORY in d && d[MEMORY].Mapping? then d[MEMORY].fields else map[]
  }

  function Undo(d: Data, previous: map<string, string>, present: bool): Data {
    if present then d[MEMORY := Mapping(previous)] else d - {MEMORY}
  }

  /** What a writer is for: any edit, or undoing its own memory update. */
  datatype Intent =
    | Edit(f: Data -> Data)
    | Rollback(previous: map<string, string>, present: bool, candidate: map<string, string>)

  /** What the intent makes of loaded data; None when a newer memory section has superseded it. */
  function Target(intent: Intent, d: Data): Option<Data> {
    match intent
    case Edit(f) => Some(f(d))
    case Rollback(previous, present, candidate) =>
      if RawMemory(d) != candidate then None else Some(Undo(d, previous, present))
  }

  // ---- many writers -----------------------------------------------------------------------------

  datatype Phase =
    | Loaded(base: Disk, data: Data)
    | Prepared(base: Disk, data: Data)    // in the guard, first check passed
    | Checked(base: Disk, data: Data)     // second check passed
    | Committed
    | Refused

  datatype Writer = Writer(intent: Intent, phase: Phase)

  /** One replacement of the file: what it was computed from, and what it replaced. */
  datatype Commit = Commit(intent: Intent, base: Disk, replaced: Disk, data: Data)

  datatype State = State(disk: Disk, writers: map<nat, Writer>, guard: Option<nat>, log: seq<Commit>)

  datatype Step =
    | Load(w: nat, intent: Intent)
    | Enter(w: nat)
    | Fail(w: nat)         // validation or the temporary file, or after the second check the mode or the replacement
    | Recheck(w: nat)
    | Replace(w: nat)
    | External(disk: Disk) // an edit that does not take the guard

  function Start(disk: Disk): State { State(disk, map[], None, []) }

  predicate In(s: State, w: nat) { w in s.writers }

  predicate Enabled(s: State, step: Step) {
    match step
    case Load(w, _) => !In(s, w)
    case Enter(w) => s.guard.None? && In(s, w) && s.writers[w].phase.Loaded?
    case Fail(w) => In(s, w) && (s.writers[w].phase.Prepared? || s.writers[w].phase.Checked?)
    case Recheck(w) => In(s, w) && s.writers[w].phase.Prepared?
    case Replace(w) => In(s, w) && s.writers[w].phase.Checked?
    case External(_) => true
  }

  function Move(s: State, w: nat, phase: Phase): State
    requires In(s, w)
  {
    s.(writers := s.writers[w := s.writers[w].(phase := phase)])
  }

  function LoadPhase(disk: Disk, intent: Intent): Phase {
    if !disk.Good? then Refused
    else match Target(intent, disk.data) case None => Refused case Some(data) => Loaded(disk, data)
  }

  function Apply(s: State, step: Step): State
    requires Enabled(s, step)
  {
    match step
    case Load(w, intent) => s.(writers := s.writers[w := Writer(intent, LoadPhase(s.disk, intent))])
    case Enter(w) =>
      var p := s.writers[w].phase;
      if s.disk != p.base then Move(s, w, Refused) else Move(s.(guard := Some(w)), w, Prepared(p.base, p.data))
    case Fail(w) => Move(s.(guard := None), w, Refused)
    case Recheck(w) =>
      var p := s.writers[w].phase;
      if s.disk != p.base then Move(s.(guard := None), w, Refused) else Move(s, w, Checked(p.base, p.data))
    case Replace(w) =>
      var x := s.writers[w];
      Move(s.(guard := None, disk := Dumped(x.phase.data),
              log := s.log + [Commit(x.intent, x.phase.base, s.disk, x.phase.data)]), w, Committed)
    case External(disk) => s.(disk := disk)
  }

  ghost predicate Possible(s: State, steps: seq<Step>)
    decreases |steps|
  {
    steps == [] || (Enabled(s, steps[0]) && Possible(Apply(s, steps[0]), steps[1..]))
  }

  ghost function Exec(s: State, steps: seq<Step>): State
    requires Possible(s, steps)
    decreases |steps|
  {
    if steps == [] then s else Exec(Apply(s, steps[0]), steps[1..])
  }

  /** No outside edit falls between a writer's second check and its replacement. */
  ghost predicate Undisturbed(s: State, steps: seq<Step>)
    requires Possible(s, steps)
    decreases |steps|
  {
    steps == [] ||
    ((steps[0].External? ==> forall w :: w in s.writers ==> !s.writers[w].phase.Checked?)
     && Undisturbed(Apply(s, steps[0]), steps[1..]))
  }

  // ---- no lost update ---------------------------------------------------------------------------------

  /** A commit computed from the very content it replaced. */
  ghost predicate Faithful(c: Commit) {
    c.base == c.replaced && c.replaced.Good? && Target(c.intent, c.replaced.data) == Some(c.data)
  }

  /** A writer past its first check has the guard, and what it will write is its edit of what it loaded. */
  ghost predicate PhaseHeld(s: State, w: nat)
    requires In(s, w)
  {
    var x := s.writers[w];
    && (x.phase.Prepared? || x.phase.Checked? ==> s.guard == Some(w))
    && (x.phase.Loaded? || x.phase.Prepared? || x.phase.Checked? ==>
          x.phase.base.Good? && Target(x.intent, x.phase.base.data) == Some(x.phase.data))
  }

  ghost predicate PhaseOk(s: State, w: nat)
    requires In(s, w)
  {
    PhaseHeld(s, w) && (s.writers[w].phase.Checked? ==> s.disk == s.writers[w].phase.base)
  }

  ghost predicate Sound(log: seq<Commit>) { forall i :: 0 <= i < |log| ==> Faithful(log[i]) }

  ghost predicate Inv(s: State) {
    (forall w :: w in s.writers ==> PhaseOk(s, w)) && Sound(s.log)
  }

  lemma StepKeeps(s: State, step: Step)
    requires Inv(s) && Enabled(s, step)
    requires step.External? ==> forall w :: w in s.writers ==> !s.writers[w].phase.Checked?
    ensures Inv(Apply(s, step))
  {
    var t := Apply(s, step);
    forall w | w in t.writers ensures PhaseOk(t, w) {
      if w in s.writers { assert PhaseOk(s, w); }
    }
    if step.Replace? { assert PhaseOk(s, step.w); }
  }

  /** However many writers interleave, and whatever outsiders do to the file, as long as no outside
      edit falls between a second check and its replacement: every committed content was computed
      from the content it replaced. */
  lemma {:induction false} NoLostUpdate(s: State, steps: seq<Step>)
    requires Inv(s) && Possible(s, steps) && Undisturbed(s, steps)
    ensures Inv(Exec(s, steps))
    decreases |steps|
  {
    if steps != [] {
      StepKeeps(s, steps[0]);
      NoLostUpdate(Apply(s, steps[0]), steps[1..]);
    }
  }

  /** A writer that nobody disturbs commits: its edit of what it loaded is the file afterwards. */
  lemma AloneCommits(s: State, w: nat, intent: Intent)
    requires s.guard.None? && !In(s, w) && s.disk.Good? && Target(intent, s.disk.data).Some?
    ensures var run := [Load(w, intent)] + ([Enter(w)] + ([Recheck(w)] + [Replace(w)]));
      var data := Target(intent, s.disk.data).value;
      && Possible(s, run) && Exec(s, run).disk == Dumped(data) && Exec(s, run).guard.None?
      && Exec(s, run).log == s.log + [Commit(intent, s.disk, s.disk, data)]
  {
    var s1 := Apply(s, Load(w, intent));
    var s2 := Apply(s1, Enter(w));
    var s3 := Apply(s2, Recheck(w));
    var s4 := Apply(s3, Replace(w));
    assert Exec(s4, []) == s4 && [Replace(w)][1..] == [];
    FirstStep(s2, Recheck(w), [Replace(w)]);
    FirstStep(s1, Enter(w), [Recheck(w)] + [Replace(w)]);
    FirstStep(s, Load(w, intent), [Enter(w)] + ([Recheck(w)] + [Replace(w)]));
  }

  /** The guard is taken only while a writer is at work under it. */
  ghost predicate GuardIsUsed(s: State) {
    s.guard.Some? ==> In(s, s.guard.value)
                      && (s.writers[s.guard.value].phase.Prepared? || s.writers[s.guard.value].phase.Checked?)
  }

  lemma {:induction false} GuardIsGivenBack(s: State, steps: seq<Step>)
    requires Possible(s, steps) && GuardIsUsed(s) && forall w :: w in s.writers ==> PhaseHeld(s, w)
    ensures GuardIsUsed(Exec(s, steps))
    decreases |steps|
  {
    if steps != [] {
      GuardStep(s, steps[0]);
      GuardIsGivenBack(Apply(s, steps[0]), steps[1..]);
    }
  }

  lemma GuardStep(s: State, step: Step)
    requires Enabled(s, step) && GuardIsUsed(s) && forall w :: w in s.writers ==> PhaseHeld(s, w)
    ensures GuardIsUsed(Apply(s, step)) && forall w :: w in Apply(s, step).writers ==> PhaseHeld(Apply(s, step), w)
  {
    var t := Apply(s, step);
    forall w | w in t.writers ensures PhaseHeld(t, w) {
      if w in s.writers { assert PhaseHeld(s, w); }
    }
    if step.Fail? || step.Recheck? || step.Replace? { assert PhaseHeld(s, step.w); }
  }

  lemma FirstStep(s: State, step: Step, rest: seq<Step>)
    requires Enabled(s, step) && Possible(Apply(s, step), rest)
    ensures Possible(s, [step] + rest) && Exec(s, [step] + rest) == Exec(Apply(s, step), rest)
  {
    assert ([step] + rest)[1..] == rest;
  }

  function Edits(disks: seq<Disk>): seq<Step> {
    if disks == [] then [] else [External(disks[0])] + Edits(disks[1..])
  }

  /** The window between second check and replacement is where an outside edit is lost. Whatever the
      edits in it are, the file afterwards is the same as without them; and the commit was computed
      from what it replaced exactly when they end with the content the writer had loaded. */
  lemma {:induction false} WindowDecides(s: State, w: nat, disks: seq<Disk>)
    requires In(s, w) && s.writers[w].phase.Checked?
    ensures var run := Edits(disks) + [Replace(w)];
      && Possible(s, run)
      && Exec(s, run).disk == Dumped(s.writers[w].phase.data)
      && var c := Exec(s, run).log;
         |c| == |s.log| + 1
         && (c[|s.log|].base == c[|s.log|].replaced <==>
             s.writers[w].phase.base == if disks == [] then s.disk else disks[|disks| - 1])
    decreases |disks|
  {
    var run := Edits(disks) + [Replace(w)];
    if disks == [] {
      assert run == [Replace(w)];
      assert Exec(s, run) == Exec(Apply(s, Replace(w)), []);
    } else {
      var t := Apply(s, External(disks[0]));
      assert run == [External(disks[0])] + (Edits(disks[1..]) + [Replace(w)]);
      assert run[1..] == Edits(disks[1..]) + [Replace(w)];
      WindowDecides(t, w, disks[1..]);
    }
  }

  /** What outsiders last wrote since the latest second check. */
  function Track(edited: Option<Disk>, step: Step): Option<Disk> {
    match step
    case Recheck(_) => None
    case External(disk) => Some(disk)
    case _ => edited
  }

  predicate Clobbers(s: State, edited: Option<Disk>, step: Step)
    requires Enabled(s, step)
  {
    step.Replace? && edited.Some? && edited.value != s.writers[step.w].phase.base
  }

  /** Some replacement of the run goes over an outside edit made since its second check that did not end
      with what its writer had loaded. */
  ghost predicate SomeClobbers(s: State, edited: Option<Disk>, steps: seq<Step>)
    requires Possible(s, steps)
    decreases |steps|
  {
    steps != [] &&
    (Clobbers(s, edited, steps[0]) || SomeClobbers(Apply(s, steps[0]), Track(edited, steps[0]), steps[1..]))
  }

  /** Between its check and its replacement a writer may meet the last outside edit. */
  ghost predicate Tracked(s: State, edited: Option<Disk>) {
    forall w :: w in s.writers ==>
      PhaseHeld(s, w) && (s.writers[w].phase.Checked? ==> s.disk == edited.GetOr(s.writers[w].phase.base))
  }

  lemma TrackedStep(s: State, edited: Option<Disk>, step: Step)
    requires Tracked(s, edited) && Enabled(s, step)
    ensures Tracked(Apply(s, step), Track(edited, step))
    ensures Sound(Apply(s, step).log) <==> Sound(s.log) && !Clobbers(s, edited, step)
  {
    var t := Apply(s, step);
    forall w | w in t.writers
      ensures PhaseHeld(t, w)
      ensures t.writers[w].phase.Checked? ==> t.disk == Track(edited, step).GetOr(t.writers[w].phase.base)
    {
      if w in s.writers { assert PhaseHeld(s, w); }
    }
    if step.Replace? {
      assert PhaseHeld(s, step.w);
      assert t.log[|s.log|].base == s.writers[step.w].phase.base;
      assert t.log[..|s.log|] == s.log;
      assert forall i :: 0 <= i < |s.log| ==> t.log[i] == s.log[i];
    }
  }

  /** Over every run, outside edits anywhere included: each commit was computed from the content it
      replaced, exactly when no replacement goes over such an edit. */
  lemma {:induction false} UpdatesLostExactly(s: State, edited: Option<Disk>, steps: seq<Step>)
    requires Tracked(s, edited) && Possible(s, steps)
    ensures Sound(Exec(s, steps).log) <==> Sound(s.log) && !SomeClobbers(s, edited, steps)
    decreases |steps|
  {
    if steps != [] {
      TrackedStep(s, edited, steps[0]);
      UpdatesLostExactly(Apply(s, steps[0]), Track(edited, steps[0]), steps[1..]);
    }
  }

  // ---- one after the other -----------------------------------------------------------------------------

  ghost predicate Guarded(steps: seq<Step>) { forall x :: x in steps ==> !x.External? }

  /** The committed intents applied to `d` in the order of their commits. */
  ghost function InOrder(d: Data, log: seq<Commit>): Data {
    if log == [] then d
    else Target(log[|log| - 1].intent, InOrder(d, log[..|log| - 1])).GetOr(d)
  }

  ghost predicate Serial(s: State, start: Disk)
    requires start.Good?
  {
    Inv(s) && s.disk.Good? && s.disk.data == InOrder(start.data, s.log)
  }

  lemma SerialStep(s: State, step: Step, start: Disk)
    requires start.Good? && Serial(s, start) && Enabled(s, step) && !step.External?
    ensures Serial(Apply(s, step), start)
  {
    StepKeeps(s, step);
    if step.Replace? {
      assert PhaseOk(s, step.w);
      assert Apply(s, step).log[..|s.log|] == s.log;
    }
  }

  /** When every writer takes the guard, the file always holds what the committed edits make of the
      initial content one after the other: no committed edit is missing and none is applied twice. */
  lemma {:induction false} CommitsAreSerial(s: State, steps: seq<Step>, start: Disk)
    requires start.Good? && Serial(s, start) && Possible(s, steps) && Guarded(steps)
    ensures Serial(Exec(s, steps), start)
    decreases |steps|
  {
    if steps != [] {
      assert steps[0] in steps;
      assert forall x :: x in steps[1..] ==> x in steps;
      SerialStep(s, steps[0], start);
      CommitsAreSerial(Apply(s, steps[0]), steps[1..], start);
    }
  }

  // ---- the rollback -----------------------------------------------------------------------------------------

  /** Every committed rollback replaced exactly the memory section its request had written, with what
      was there before, and left every other section as it found it. */
  lemma RollbackTouchesOnlyItsOwn(disk: Disk, steps: seq<Step>, i: nat)
    requires Possible(Start(disk), steps) && Undisturbed(Start(disk), steps)
    requires i < |Exec(Start(disk), steps).log| && Exec(Start(disk), steps).log[i].intent.Rollback?
    ensures var c := Exec(Start(disk), steps).log[i];
      && c.replaced.Good? && RawMemory(c.replaced.data) == c.intent.candidate
      && (c.intent.candidate != map[] ==>
            MEMORY in c.replaced.data && c.replaced.data[MEMORY] == Mapping(c.intent.candidate))
      && (forall k :: k != MEMORY ==> (k in c.data <==> k in c.replaced.data)
                                      && (k in c.data ==> c.data[k] == c.replaced.data[k]))
      && (if c.intent.present then MEMORY in c.data && c.data[MEMORY] == Mapping(c.intent.previous)
           else MEMORY !in c.data)
  {
    NoLostUpdate(Start(disk), steps);
    assert Faithful(Exec(Start(disk), steps).log[i]);
  }

  /** Undoing a memory update brings the file's data back exactly when the old section was absent or
      a mapping: anything else had been read as an empty mapping. */
  lemma RollbackRestoresExactly(before: Data, candidate: map<string, string>)
    ensures var after := before[MEMORY := Mapping(candidate)];
      Target(Rollback(RawMemory(before), MEMORY in before, candidate), after) == Some(before)
      <==> (MEMORY !in before || before[MEMORY].Mapping?)
  {
    var after := before[MEMORY := Mapping(candidate)];
    var back := Undo(after, RawMemory(before), MEMORY in before);
    if MEMORY !in before {
      assert back == before;
    } else {
      assert back == before[MEMORY := Mapping(RawMemory(before))];
      if before[MEMORY].Mapping? { assert back == before; } else { assert back[MEMORY] != before[MEMORY]; }
    }
  }

  // ---- one memory update, step by step ---------------------------------------------------------------------

  datatype WriteResult = Saved | Conflict | Invalid | WriteFailed

  /** What a memory update answers. `Failed` is the error detail after a reload that raised. */
  datatype Outcome =
    | NotWritten(why: WriteResult)
    | Done
    | Failed(fileRestored: bool, runtimeRestored: bool, synchronized: bool, superseded: bool, rollbackError: bool)

  /** What one rollback commit must be. */
  ghost predicate UndoesOwn(c: Commit, previous: map<string, string>, present: bool, candidate: map<string, string>) {
    && Faithful(c) && RawMemory(c.replaced.data) == candidate
    && c.data == Undo(c.replaced.data, previous, present)
  }

  class ConfigFile {
    var disk: Disk
    var runtime: Disk                 // what the last successful reload read
    ghost var mine: seq<Commit>       // the commits of this request

    constructor (initial: Disk)
      ensures disk == runtime == initial && mine == []
    {
      disk, runtime, mine := initial, initial, [];
    }

    /** Anything other requests, processes and editors may have done by now; nothing when it is `quiet`. */
    method Others(quiet: bool)
      modifies this`disk
      ensures quiet ==> disk == old(disk)
    {
      if !quiet { disk := *; }
    }

    /** `_atomic_write_config`: outside edits may come between its checks, not after the second. `first` and
        `second` are what the two checks met; the second is not reached when the first fails. */
    method AtomicWriteConfig(intent: Intent, base: Disk, data: Data, valid: bool, writable: bool, quiet: bool)
        returns (r: WriteResult, ghost first: Disk, ghost second: Disk)
      requires base.Good? && Target(intent, base.data) == Some(data)
      modifies this`disk, this`mine
      ensures first == old(disk) && (quiet ==> second == first)
      ensures r == Saved <==> first == base && valid && writable && second == base
      ensures r == Conflict <==> first != base || (valid && writable && second != base)
      ensures r == Invalid <==> first == base && !valid
      ensures if r == Saved
              then mine == old(mine) + [Commit(intent, base, base, data)] && disk == Dumped(data)
              else mine == old(mine) && disk == second
    {
      first, second := disk, disk;
      if disk != base { return Conflict, first, second; }
      Others(quiet);
      second := disk;
      if !valid { return Invalid, first, second; }
      if !writable { return WriteFailed, first, second; }
      if disk != base { return Conflict, first, second; }
      mine := mine + [Commit(intent, base, disk, data)];
      disk := Dumped(data);
      r := Saved;
    }

    method Reload(ok: bool)
      modifies this`runtime
      ensures runtime == if ok then disk else old(runtime)
    {
      if ok { runtime := disk; }
    }

    /** `_reload_memory_with_rollback` after a reload that raised. `found` is the file it loaded, `first` and
        `second` what the checks of its own write met. */
    method Compensate(previous: map<string, string>, present: bool, candidate: map<string, string>,
                      valid: bool, writable: bool, reloads: bool, quiet: bool)
      returns (r: Outcome, ghost found: Disk, ghost first: Disk, ghost second: Disk)
      modifies this
      ensures r.Failed? && (quiet ==> found == first == second == old(disk))
      // a newer section is left alone; the section this request wrote is undone, unless the file cannot be
      // read, has changed since it was loaded, or cannot be written
      ensures r.superseded <==> found.Good? && RawMemory(found.data) != candidate
      ensures r.fileRestored <==>
                found.Good? && RawMemory(found.data) == candidate && first == second == found && valid && writable
      ensures if r.fileRestored
              then |mine| == |old(mine)| + 1 && mine[..|old(mine)|] == old(mine)
                   && UndoesOwn(mine[|old(mine)|], previous, present, candidate)
              else mine == old(mine)
      ensures quiet && found.Good? ==>
                disk == if r.fileRestored then Dumped(Undo(found.data, previous, present)) else found
      // either way the runtime is brought in step with the file, unless that reload raises too
      ensures r.synchronized <==> (r.superseded || r.fileRestored) && reloads
      ensures r.runtimeRestored <==> r.fileRestored && r.synchronized
      ensures r.rollbackError <==> !r.synchronized
      ensures runtime == if r.synchronized then disk else old(runtime)
    {
      r := Failed(false, false, false, false, true);
      Others(quiet);
      found := disk;
      var loaded := disk;
      first, second := disk, disk;
      if !loaded.Good? { return; }
      if RawMemory(loaded.data) != candidate {
        Others(quiet);
        Reload(reloads);
        r := Failed(false, false, reloads, true, !reloads);
        return;
      }
      var back := if present then loaded.data[MEMORY := Mapping(previous)] else loaded.data - {MEMORY};
      Others(quiet);
      var w;
      var intent := Rollback(previous, present, candidate);
      w, first, second := AtomicWriteConfig(intent, loaded, back, valid, writable, quiet);
      if w != Saved { return; }
      Others(quiet);
      Reload(reloads);
      r := Failed(true, reloads, reloads, false, !reloads);
    }

    /** `_persist_memory_and_reload`: commit the new section; if the reload raises, compensate. */
    method PersistMemoryAndReload(base: Disk, candidate: map<string, string>, reload: bool, reloadOk: bool,
                                  valid: bool, writable: bool, undoValid: bool, undoWritable: bool, undoReloads: bool,
                                  quiet: bool)
      returns (r: Outcome)
      requires base.Good? && mine == []
      modifies this
      ensures r.NotWritten? <==> mine == []
      ensures quiet ==> (r.NotWritten? <==> old(disk) != base || !valid || !writable)
      ensures quiet && r.NotWritten? ==> disk == old(disk) && runtime == old(runtime)
      ensures quiet && r.NotWritten? ==>
                r.why == if old(disk) != base then Conflict else if !valid then Invalid else WriteFailed
      ensures r.Done? <==> mine != [] && (!reload || reloadOk)
      ensures r.Done? ==> |mine| == 1 && (reload ==> runtime == disk)
      ensures quiet && r.Done? ==> disk == Dumped(base.data[MEMORY := Mapping(candidate)])
      ensures r.Failed? ==> |mine| == if r.fileRestored then 2 else 1
      // a failed reload leaves the file as it was, the section it had written undone, and no other touched
      ensures quiet && r.Failed? ==> (r.fileRestored <==> undoValid && undoWritable) && !r.superseded
      ensures quiet && r.Failed? && r.fileRestored && (MEMORY !in base.data || base.data[MEMORY].Mapping?) ==>
                disk == Dumped(base.data) && (undoReloads ==> runtime == disk)
      ensures |mine| > 0 ==> Faithful(mine[0]) && mine[0].data == base.data[MEMORY := Mapping(candidate)]
      ensures |mine| > 1 ==> UndoesOwn(mine[1], RawMemory(base.data), MEMORY in base.data, candidate)
    {
      Others(quiet);
      var data := base.data[MEMORY := Mapping(candidate)];
      var intent := Edit((d: Data) => d[MEMORY := Mapping(candidate)]);
      var w, _, _ := AtomicWriteConfig(intent, base, data, valid, writable, quiet);
      if w != Saved { return NotWritten(w); }
      Others(quiet);
      if !reload { return Done; }
      Reload(reloadOk);
      if reloadOk { return Done; }
      var previous, present := RawMemory(base.data), MEMORY in base.data;
      ghost var found, first, second;
      r, found, first, second := Compensate(previous, present, candidate, undoValid, undoWritable, undoReloads, quiet);
      UndoneIsBase(base.data, candidate);
    }
  }

  /** Undoing what was just written leaves what was there, where that was absent or a mapping. */
  lemma UndoneIsBase(before: Data, candidate: map<string, string>)
    ensures var after := before[MEMORY := Mapping(candidate)];
      && RawMemory(after) == candidate
      && (MEMORY !in before || before[MEMORY].Mapping? ==>
            Undo(after, RawMemory(before), MEMORY in before) == before)
  {
    RollbackRestoresExactly(before, candidate);
  }
}
