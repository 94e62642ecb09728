/** The client cache of the manager (app/dependencies.py): synchronous and asynchronous gets race
    with configuration reloads. Every key carries the generation read at the start of the get; a
    reload loads the new configuration, then moves the generation and clears both maps. */
module ClientCache {
  import opened Common

  /** A built client and the configuration revision it was built from. */
  datatype Client = Client(id: nat, revision: nat)

  /** `rest` stands for the settings and overrides in the key. */
  datatype Key = Key(gen: nat, rest: string)

  // ---- the cache as an object ------------------------------------------------------------------

  datatype Cache = Cache(gen: nat, sync: map<Key, Client>, async: map<Key, Client>)

  function Lookup(m: map<Key, Client>, k: Key): Option<Client> { if k in m then Some(m[k]) else None }

  /** Insertion happens only while the generation is still the key's. */
  function Insert(c: Cache, k: Key, client: Client, isAsync: bool): Cache {
    if k.gen != c.gen then c
    else if isAsync then c.(async := c.async[k := client])
    else c.(sync := c.sync[k := client])
  }

  function Invalidate(c: Cache): Cache { Cache(c.gen + 1, map[], map[]) }

  /** Each method is one critical section under `_client_cache_lock`. */
  class ClientManager {
    var configGeneration: nat
    var clientMap: map<Key, Client>
    var asyncClientMap: map<Key, Client>

    function Now(): Cache
      reads this
    {
      Cache(configGeneration, clientMap, asyncClientMap)
    }

    constructor ()
      ensures Now() == Cache(0, map[], map[])
    {
      configGeneration, clientMap, asyncClientMap := 0, map[], map[];
    }

    /** The locked part of `get_client`; `made` is what building yields. */
    method GetClientLocked(key: Key, made: Client) returns (client: Client)
      modifies this`clientMap
      ensures client == Lookup(old(clientMap), key).GetOr(made)
      ensures Now() == if key in old(clientMap) then old(Now()) else Insert(old(Now()), key, made, false)
      ensures key.gen == configGeneration ==> key in clientMap && clientMap[key] == client
      ensures key.gen != configGeneration ==> clientMap == old(clientMap)
    {
      if key in clientMap { return clientMap[key]; }
      client := made;
      if key.gen == configGeneration { clientMap := clientMap[key := client]; }
    }

    /** The first section of `get_async_client`: the key and the first lookup. */
    method StartAsync(rest: string) returns (key: Key, cached: Option<Client>)
      ensures key == Key(configGeneration, rest) && cached == Lookup(asyncClientMap, key)
    {
      key := Key(configGeneration, rest);
      cached := Lookup(asyncClientMap, key);
    }

    method RecheckAsync(key: Key) returns (cached: Option<Client>)
      ensures cached == Lookup(asyncClientMap, key)
    {
      cached := Lookup(asyncClientMap, key);
    }

    method StoreAsync(key: Key, client: Client)
      modifies this`asyncClientMap
      ensures Now() == Insert(old(Now()), key, client, true)
      ensures asyncClientMap == if key.gen == configGeneration then old(asyncClientMap)[key := client]
                                else old(asyncClientMap)
    {
      if key.gen == configGeneration { asyncClientMap := asyncClientMap[key := client]; }
    }

    /** Every key carries the generation in force. */
    predicate Current()
      reads this
    {
      && (forall k :: k in clientMap ==> k.gen == configGeneration)
      && (forall k :: k in asyncClientMap ==> k.gen == configGeneration)
    }

    /** What other gets and reloads may have done by now. */
    method Others()
      requires Current()
      modifies this
      ensures Current() && configGeneration >= old(configGeneration)
    {
      var later: nat :| later >= configGeneration;
      var sync: map<Key, Client>, async: map<Key, Client> := *, *;
      if (forall k :: k in sync ==> k.gen == later) && (forall k :: k in async ==> k.gen == later) {
        configGeneration, clientMap, asyncClientMap := later, sync, async;
      }
    }

    /** `get_async_client`: three sections with everybody else in between. `at` is the cache at the lookup
        that found a client: it was there under the key of this get, and that key's generation was the
        one in force. A client it did not find is the one it built. */
    method GetAsyncClient(rest: string, made: Client) returns (client: Client, found: bool, ghost at: Cache)
      requires Current()
      modifies this
      ensures Current() && configGeneration >= old(configGeneration)
      ensures !found ==> client == made
      // what it built is there for the next get, unless a reload came in between
      ensures !found && configGeneration == old(configGeneration) ==>
        var key := Key(configGeneration, rest); key in asyncClientMap && asyncClientMap[key] == made
      ensures found ==>
        var key := Key(at.gen, rest);
        key in at.async && at.async[key] == client && old(configGeneration) == at.gen
    {
      at := Now();
      var key, cached := StartAsync(rest);
      if cached.Some? { return cached.value, true, at; }
      Others();                              // until the async lock is free
      at := Now();
      cached := RecheckAsync(key);
      if cached.Some? { return cached.value, true, at; }
      Others();                              // while the client is built
      StoreAsync(key, made);
      client, found := made, false;
    }

    /** The section of `reload_runtime_config`. */
    method ResetClients()
      modifies this
      ensures Now() == Invalidate(old(Now()))
    {
      configGeneration := configGeneration + 1;
      clientMap, asyncClientMap := map[], map[];
    }
  }

  // ---- every interleaving ---------------------------------------------------------------------------

  /** Where a get is. `floor` is the configuration revision the last completed reload had installed
      when the get began; for a hit, when it was found. */
  datatype Get =
    | SyncStarted(key: Key, floor: nat)
    | SyncMissed(key: Key, floor: nat)                     // inside the lock
    | SyncBuilt(key: Key, floor: nat, client: Client)      // inside the lock
    | AsyncMissed(key: Key, floor: nat)
    | AsyncLocked(key: Key, floor: nat)                    // holding the async lock
    | AsyncBuilding(key: Key, floor: nat)                  // holding it, missed again
    | AsyncBuilt(key: Key, floor: nat, client: Client)     // holding it
    | Returned(floor: nat, client: Client)
    | Raised

  /** `revision` is the configuration loaded now, `floor` the one loaded when the generation last moved.
      Clients are numbered as they are built; `base` is the first number after the generation moved. */
  datatype State = State(cache: Cache, revision: nat, floor: nat, base: nat, gets: map<nat, Get>,
                         lock: Option<nat>, asyncLock: Option<nat>, next: nat)

  const START := State(Cache(0, map[], map[]), 0, 0, 0, map[], None, None, 0)

  datatype Step =
    | LoadConfig                          // reload_app_config
    | Reset                               // the generation moves, the maps are cleared
    | BeginSync(g: nat, rest: string)     // reads the generation without the lock
    | EnterSync(g: nat)
    | BuildSync(g: nat)                   // the new client reads the configuration
    | LeaveSync(g: nat)
    | BeginAsync(g: nat, rest: string)
    | LockAsync(g: nat)
    | RecheckAsync(g: nat)
    | BuildAsync(g: nat)
    | LeaveAsync(g: nat)
    | BuildFails(g: nat)

  predicate At(s: State, g: nat, phase: Get -> bool) { g in s.gets && phase(s.gets[g]) }

  predicate Enabled(s: State, step: Step) {
    match step
    case LoadConfig => true
    case Reset => s.lock.None?
    case BeginSync(g, _) => g !in s.gets
    case EnterSync(g) => s.lock.None? && At(s, g, (x: Get) => x.SyncStarted?)
    case BuildSync(g) => At(s, g, (x: Get) => x.SyncMissed?)
    case LeaveSync(g) => At(s, g, (x: Get) => x.SyncBuilt?)
    case BeginAsync(g, _) => s.lock.None? && g !in s.gets
    case LockAsync(g) => s.asyncLock.None? && At(s, g, (x: Get) => x.AsyncMissed?)
    case RecheckAsync(g) => s.lock.None? && At(s, g, (x: Get) => x.AsyncLocked?)
    case BuildAsync(g) => At(s, g, (x: Get) => x.AsyncBuilding?)
    case LeaveAsync(g) => s.lock.None? && At(s, g, (x: Get) => x.AsyncBuilt?)
    case BuildFails(g) => At(s, g, (x: Get) => x.SyncMissed? || x.AsyncBuilding?)
  }

  function Put(s: State, g: nat, get: Get): State { s.(gets := s.gets[g := get]) }

  function Apply(s: State, step: Step): State
    requires Enabled(s, step)
  {
    match step
    case LoadConfig => s.(revision := s.revision + 1)
    case Reset => s.(cache := Invalidate(s.cache), floor := s.revision, base := s.next)
    case BeginSync(g, rest) => Put(s, g, SyncStarted(Key(s.cache.gen, rest), s.floor))
    case EnterSync(g) =>
      var k := s.gets[g].key;
      if k in s.cache.sync then Put(s, g, Returned(s.floor, s.cache.sync[k]))
      else Put(s.(lock := Some(g)), g, SyncMissed(k, s.gets[g].floor))
    case BuildSync(g) =>
      Put(s.(next := s.next + 1), g, SyncBuilt(s.gets[g].key, s.gets[g].floor, Client(s.next, s.revision)))
    case LeaveSync(g) =>
      var x := s.gets[g];
      Put(s.(lock := None, cache := Insert(s.cache, x.key, x.client, false)), g, Returned(x.floor, x.client))
    case BeginAsync(g, rest) =>
      var k := Key(s.cache.gen, rest);
      if k in s.cache.async then Put(s, g, Returned(s.floor, s.cache.async[k]))
      else Put(s, g, AsyncMissed(k, s.floor))
    case LockAsync(g) => Put(s.(asyncLock := Some(g)), g, AsyncLocked(s.gets[g].key, s.gets[g].floor))
    case RecheckAsync(g) =>
      var k := s.gets[g].key;
      if k in s.cache.async then Put(s.(asyncLock := None), g, Returned(s.floor, s.cache.async[k]))
      else Put(s, g, AsyncBuilding(k, s.gets[g].floor))
    case BuildAsync(g) =>
      Put(s.(next := s.next + 1), g, AsyncBuilt(s.gets[g].key, s.gets[g].floor, Client(s.next, s.revision)))
    case LeaveAsync(g) =>
      var x := s.gets[g];
      Put(s.(asyncLock := None, cache := Insert(s.cache, x.key, x.client, true)), g, Returned(x.floor, x.client))
    case BuildFails(g) =>
      if s.gets[g].SyncMissed? then Put(s.(lock := None), g, Raised) else Put(s.(asyncLock := None), g, Raised)
  }

  ghost predicate Possible(s: State, steps: seq<Step>)
    decreases |steps|
  {
    steps == [] || (Enabled(s, steps[0]) && Possible(Apply(s, steps[0]), steps[1..]))
  }

  ghost function Exec(s: State, steps: seq<Step>): State
    requires Possible(s, steps)
    decreases |steps|
  {
    if steps == [] then s else Exec(Apply(s, steps[0]), steps[1..])
  }

  // ---- the invariant -----------------------------------------------------------------------------------

  /** Every entry belongs to the current generation, was built since it began, and from a
      configuration no older than the last completed reload's. */
  ghost predicate CurrentEntries(s: State, m: map<Key, Client>) {
    forall k :: k in m ==> k.gen == s.cache.gen && s.base <= m[k].id && m[k].revision >= s.floor
  }

  predicate InFlight(x: Get) { !x.Returned? && !x.Raised? }
  predicate InLock(x: Get) { x.SyncMissed? || x.SyncBuilt? }
  predicate InAsyncLock(x: Get) { x.AsyncLocked? || x.AsyncBuilding? || x.AsyncBuilt? }

  /** One get: its generation is not from the future, and what it built or got is new enough. */
  ghost predicate GetOk(s: State, x: Get) {
    && (InFlight(x) ==> x.key.gen <= s.cache.gen && x.floor <= s.floor)
    && (InFlight(x) && x.key.gen == s.cache.gen ==> x.floor == s.floor)
    && (x.SyncBuilt? || x.AsyncBuilt? || x.Returned? ==> x.client.revision >= x.floor)
    && (x.SyncBuilt? || x.AsyncBuilt? ==> x.key.gen == s.cache.gen ==> x.client.id >= s.base)
    && (InLock(x) ==> x.key !in s.cache.sync)
    && (x.AsyncBuilding? || x.AsyncBuilt? ==> x.key !in s.cache.async)
  }

  ghost predicate Locks(s: State) {
    && (forall g :: g in s.gets && InLock(s.gets[g]) ==> s.lock == Some(g))
    && (forall g :: g in s.gets && InAsyncLock(s.gets[g]) ==> s.asyncLock == Some(g))
  }

  ghost predicate Inv(s: State) {
    && s.floor <= s.revision && s.base <= s.next
    && CurrentEntries(s, s.cache.sync) && CurrentEntries(s, s.cache.async)
    && (forall g :: g in s.gets ==> GetOk(s, s.gets[g]))
    && Locks(s)
  }

  lemma LocksKept(s: State, step: Step)
    requires Inv(s) && Enabled(s, step)
    ensures Locks(Apply(s, step))
  {
  }

  lemma EntriesKept(s: State, step: Step)
    requires Inv(s) && Enabled(s, step)
    ensures var t := Apply(s, step);
      && t.floor <= t.revision && t.base <= t.next
      && CurrentEntries(t, t.cache.sync) && CurrentEntries(t, t.cache.async)
  {
    if step.LeaveSync? || step.LeaveAsync? { assert GetOk(s, s.gets[step.g]); }
  }

  lemma OwnGetKept(s: State, step: Step, g: nat)
    requires Inv(s) && Enabled(s, step) && !step.LoadConfig? && !step.Reset? && step.g == g
    ensures GetOk(Apply(s, step), Apply(s, step).gets[g])
  {
    if g in s.gets { assert GetOk(s, s.gets[g]); }
  }

  lemma OtherGetKept(s: State, step: Step, g: nat)
    requires Inv(s) && Enabled(s, step) && (step.LoadConfig? || step.Reset? || step.g != g) && g in s.gets
    ensures Apply(s, step).gets[g] == s.gets[g] && GetOk(Apply(s, step), s.gets[g])
  {
    assert GetOk(s, s.gets[g]);
  }

  lemma StepKeeps(s: State, step: Step)
    requires Inv(s) && Enabled(s, step)
    ensures Inv(Apply(s, step))
  {
    LocksKept(s, step);
    EntriesKept(s, step);
    var t := Apply(s, step);
    forall g | g in t.gets ensures GetOk(t, t.gets[g]) {
      if step.LoadConfig? || step.Reset? || step.g != g { OtherGetKept(s, step, g); } else { OwnGetKept(s, step, g); }
    }
  }

  lemma {:induction false} EveryRunKeeps(s: State, steps: seq<Step>)
    requires Inv(s) && Possible(s, steps)
    ensures Inv(Exec(s, steps))
    decreases |steps|
  {
    if steps != [] {
      StepKeeps(s, steps[0]);
      EveryRunKeeps(Apply(s, steps[0]), steps[1..]);
    }
  }

  // ---- what it gives ---------------------------------------------------------------------------------

  /** In every interleaving both maps hold only keys of the current generation, with clients built
      from a configuration at least as new as the last completed reload's. */
  lemma CacheIsCurrent(steps: seq<Step>, k: Key)
    requires Possible(START, steps)
    ensures var s := Exec(START, steps);
      && (k in s.cache.sync + s.cache.async ==> k.gen == s.cache.gen)
      && (k in s.cache.sync ==> s.cache.sync[k].id >= s.base && s.cache.sync[k].revision >= s.floor)
      && (k in s.cache.async ==> s.cache.async[k].id >= s.base && s.cache.async[k].revision >= s.floor)
  {
    EveryRunKeeps(START, steps);
  }

  /** No get returns a client older than the last reload completed before it began; a get served
      from the cache, not even one older than the last reload completed before it was served. */
  lemma ReturnedIsNotStale(steps: seq<Step>, g: nat)
    requires Possible(START, steps) && g in Exec(START, steps).gets && Exec(START, steps).gets[g].Returned?
    ensures var x := Exec(START, steps).gets[g]; x.client.revision >= x.floor
  {
    EveryRunKeeps(START, steps);
    assert GetOk(Exec(START, steps), Exec(START, steps).gets[g]);
  }

  /** An entry, once stored, stays the same client until the generation moves: neither a second
      builder nor a late one replaces it. */
  lemma StoredEntryStays(s: State, step: Step, k: Key)
    requires Inv(s) && Enabled(s, step) && Apply(s, step).cache.gen == s.cache.gen
    ensures var t := Apply(s, step);
      && (k in s.cache.sync ==> k in t.cache.sync && t.cache.sync[k] == s.cache.sync[k])
      && (k in s.cache.async ==> k in t.cache.async && t.cache.async[k] == s.cache.async[k])
  {
    if step.LeaveSync? || step.LeaveAsync? { assert GetOk(s, s.gets[step.g]); }
  }

  lemma {:induction false} GenerationOnlyGrows(s: State, steps: seq<Step>)
    requires Possible(s, steps)
    ensures Exec(s, steps).cache.gen >= s.cache.gen
    decreases |steps|
  {
    if steps != [] { GenerationOnlyGrows(Apply(s, steps[0]), steps[1..]); }
  }

  lemma {:induction false} SharedWithinAGeneration(s: State, steps: seq<Step>, k: Key)
    requires Inv(s) && Possible(s, steps) && Exec(s, steps).cache.gen == s.cache.gen
    ensures var t := Exec(s, steps);
      && (k in s.cache.sync ==> k in t.cache.sync && t.cache.sync[k] == s.cache.sync[k])
      && (k in s.cache.async ==> k in t.cache.async && t.cache.async[k] == s.cache.async[k])
    decreases |steps|
  {
    if steps != [] {
      var t := Apply(s, steps[0]);
      GenerationOnlyGrows(t, steps[1..]);
      StepKeeps(s, steps[0]);
      StoredEntryStays(s, steps[0], k);
      SharedWithinAGeneration(t, steps[1..], k);
    }
  }

  lemma {:induction false} NumbersOnlyGrow(s: State, steps: seq<Step>)
    requires Inv(s) && Possible(s, steps)
    ensures Exec(s, steps).next >= s.next && Exec(s, steps).base >= s.base
    ensures Exec(s, steps).cache.gen > s.cache.gen ==> Exec(s, steps).base >= s.next
    decreases |steps|
  {
    if steps != [] {
      StepKeeps(s, steps[0]);
      NumbersOnlyGrow(Apply(s, steps[0]), steps[1..]);
      GenerationOnlyGrows(Apply(s, steps[0]), steps[1..]);
    }
  }

  /** A client built before a reload is never found in the cache after it, whatever was in the maps
      or still being built when the generation moved. */
  lemma NothingSurvivesAReset(s: State, steps: seq<Step>, k: Key)
    requires Inv(s) && Possible(s, steps) && Exec(s, steps).cache.gen > s.cache.gen
    ensures var t := Exec(s, steps);
      && (k in t.cache.sync ==> t.cache.sync[k].id >= s.next && k.gen > s.cache.gen)
      && (k in t.cache.async ==> t.cache.async[k].id >= s.next && k.gen > s.cache.gen)
  {
    EveryRunKeeps(s, steps);
    NumbersOnlyGrow(s, steps);
  }

  /** A get that builds under the generation still in force is the last to build for its key: until the next
      reload every other get with that key returns the very same client. */
  lemma BuiltOnceIsShared(steps: seq<Step>, g: nat, later: seq<Step>, h: nat)
    requires Possible(START, steps)
    requires var s := Exec(START, steps);
      && At(s, g, (x: Get) => x.SyncBuilt?) && s.gets[g].key.gen == s.cache.gen
      && Possible(Apply(s, LeaveSync(g)), later)
      && var t := Exec(Apply(s, LeaveSync(g)), later);
         && t.cache.gen == s.cache.gen && At(t, h, (x: Get) => x.SyncStarted?) && t.gets[h].key == s.gets[g].key
         && Enabled(t, EnterSync(h))
    ensures var s := Exec(START, steps);
      var t := Exec(Apply(s, LeaveSync(g)), later);
      Apply(t, EnterSync(h)).gets[h] == Returned(t.floor, s.gets[g].client)
  {
    EveryRunKeeps(START, steps);
    var s := Exec(START, steps);
    StepKeeps(s, LeaveSync(g));
    SharedWithinAGeneration(Apply(s, LeaveSync(g)), later, s.gets[g].key);
  }

  lemma BuiltOnceIsSharedAsync(steps: seq<Step>, g: nat, later: seq<Step>, h: nat, rest: string)
    requires Possible(START, steps)
    requires var s := Exec(START, steps);
      && At(s, g, (x: Get) => x.AsyncBuilt?) && s.gets[g].key.gen == s.cache.gen && s.lock.None?
      && Possible(Apply(s, LeaveAsync(g)), later)
      && var t := Exec(Apply(s, LeaveAsync(g)), later);
         t.cache.gen == s.cache.gen && s.gets[g].key == Key(s.cache.gen, rest) && Enabled(t, BeginAsync(h, rest))
    ensures var s := Exec(START, steps);
      var t := Exec(Apply(s, LeaveAsync(g)), later);
      Apply(t, BeginAsync(h, rest)).gets[h] == Returned(t.floor, s.gets[g].client)
  {
    EveryRunKeeps(START, steps);
    var s := Exec(START, steps);
    StepKeeps(s, LeaveAsync(g));
    SharedWithinAGeneration(Apply(s, LeaveAsync(g)), later, s.gets[g].key);
  }

  // ---- locks ------------------------------------------------------------------------------------------

  /** A lock is taken only while a get is at work under it. */
  ghost predicate LocksAreUsed(s: State) {
    && (s.lock.Some? ==> At(s, s.lock.value, InLock))
    && (s.asyncLock.Some? ==> At(s, s.asyncLock.value, InAsyncLock))
  }

  lemma LockStaysUsed(s: State, step: Step)
    requires Inv(s) && LocksAreUsed(s) && Enabled(s, step)
    ensures var t := Apply(s, step); t.lock.Some? ==> At(t, t.lock.value, InLock)
  {
  }

  lemma AsyncLockStaysUsed(s: State, step: Step)
    requires Inv(s) && LocksAreUsed(s) && Enabled(s, step)
    ensures var t := Apply(s, step); t.asyncLock.Some? ==> At(t, t.asyncLock.value, InAsyncLock)
  {
  }

  lemma {:induction false} LocksAreGivenBack(s: State, steps: seq<Step>)
    requires Inv(s) && LocksAreUsed(s) && Possible(s, steps)
    ensures LocksAreUsed(Exec(s, steps))
    decreases |steps|
  {
    if steps != [] {
      StepKeeps(s, steps[0]);
      LockStaysUsed(s, steps[0]);
      AsyncLockStaysUsed(s, steps[0]);
      LocksAreGivenBack(Apply(s, steps[0]), steps[1..]);
    }
  }

  /** The next step of a get at work; one under a lock can always take it, once no other get is under the
      lock of the maps, and so gives the lock back. */
  function Onward(x: Get, g: nat): Step
    requires InLock(x) || InAsyncLock(x)
  {
    match x
    case SyncMissed(_, _) => BuildSync(g)
    case SyncBuilt(_, _, _) => LeaveSync(g)
    case AsyncLocked(_, _) => RecheckAsync(g)
    case AsyncBuilding(_, _) => BuildAsync(g)
    case AsyncBuilt(_, _, _) => LeaveAsync(g)
  }

  function Left(x: Get): nat {
    match x
    case SyncMissed(_, _) => 2
    case SyncBuilt(_, _, _) => 1
    case AsyncLocked(_, _) => 3
    case AsyncBuilding(_, _) => 2
    case AsyncBuilt(_, _, _) => 1
    case _ => 0
  }

  lemma WorkGoesOn(steps: seq<Step>, g: nat)
    requires Possible(START, steps) && At(Exec(START, steps), g, (x: Get) => InLock(x) || InAsyncLock(x))
    requires InAsyncLock(Exec(START, steps).gets[g]) ==> Exec(START, steps).lock.None?
    ensures var s := Exec(START, steps);
      var step := Onward(s.gets[g], g);
      Enabled(s, step) && Left(Apply(s, step).gets[g]) < Left(s.gets[g])
  {
  }
}
