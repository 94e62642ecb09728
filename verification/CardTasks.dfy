/** The patch workers as the tasks they are (app/channels/feishu.py): any number may exist for one
    message, `patch_tasks` remembers only the latest, and a new one is created only when that one is
    absent or done. That test is why a message never has two live workers, and why the machine of
    CardPatcher, which has one worker per message, says all there is to say. */
module CardTasks {
  import opened Common
  import opened CardPatcher

  /** The n-th worker created for a message. */
  type TaskId = (string, nat)

  /** `msgs` holds everything but the workers (their field there is unused); `latest` is `patch_tasks`;
      `tasks` are all workers ever created, Idle once done. */
  datatype Tasks = Tasks(base: State, latest: map<string, nat>, tasks: map<TaskId, Worker>)

  function Begin(ack: bool): Tasks { Tasks(CardPatcher.Start(ack), map[], map[]) }

  datatype TaskStep =
    | Other(step: Step)                  // ticks, deltas, cards, the end of the stream
    | Starts(task: TaskId)
    | Resumes(task: TaskId)              // its card has arrived
    | Returns(task: TaskId)
    | Raises(task: TaskId)
    | Wakes(task: TaskId)

  predicate Live(w: Tasks, task: TaskId) { task in w.tasks && !w.tasks[task].Idle? }

  /** `task is None or task.done()`. */
  predicate Free(w: Tasks, id: string) {
    id !in w.latest || !Live(w, (id, w.latest[id]))
  }

  function Fresh(w: Tasks, id: string): nat { if id in w.latest then w.latest[id] + 1 else 0 }

  /** `schedule_patch` after the queue has been set: a new worker only if the latest is done. */
  function Spawn(w: Tasks, id: string): Tasks {
    if Free(w, id)
    then w.(latest := w.latest[id := Fresh(w, id)], tasks := w.tasks[(id, Fresh(w, id)) := Created])
    else w
  }

  /** A message with the phase of the worker that is acting on it. */
  function Seen(w: Tasks, task: TaskId): Msg
    requires task in w.tasks && task.0 in w.base.msgs
  {
    w.base.msgs[task.0].(worker := w.tasks[task])
  }

  /** Back into the dictionaries and the worker's own state. */
  function Store(w: Tasks, task: TaskId, m: Msg): Tasks {
    w.(base := Put(w.base, task.0, m.(worker := Idle)), tasks := w.tasks[task := m.worker])
  }

  function Queue(m: Msg, content: string): Msg { m.(pending := Some(content)) }

  predicate TaskEnabled(w: Tasks, s: TaskStep) {
    match s
    case Other(step) =>
      (step.Tick? || step.Chunk? || step.CardSent? || step.StreamEnds?) && Enabled(w.base, step)
    case Starts(t) => t in w.tasks && t.0 in w.base.msgs && w.tasks[t].Created?
    case Resumes(t) => t in w.tasks && t.0 in w.base.msgs && w.tasks[t].AwaitingCard?
        && !w.base.msgs[t.0].card.Creating?
    case Returns(t) => t in w.tasks && t.0 in w.base.msgs && w.tasks[t].Patching?
    case Raises(t) => t in w.tasks && t.0 in w.base.msgs && w.tasks[t].Patching?
    case Wakes(t) => t in w.tasks && t.0 in w.base.msgs && w.tasks[t].Sleeping? && w.base.now >= w.tasks[t].until
  }

  predicate Due(w: Tasks, id: string, piece: string) {
    var m := if id in w.base.msgs then w.base.msgs[id] else NewMessage(w.base.initialBound);
    ShouldPatch(m.(text := m.text + piece), w.base.now)
  }

  /** A delta before the worker is looked at: collected, and queued when due. */
  function Collected(w: Tasks, id: string, piece: string): Tasks {
    var m := if id in w.base.msgs then w.base.msgs[id] else NewMessage(w.base.initialBound);
    var t := m.(text := m.text + piece);
    w.(base := Put(w.base.(initialBound := w.base.initialBound || id !in w.base.msgs), id,
                   if Due(w, id, piece) then Queue(t, t.text) else t))
  }

  /** One delta: collect it, and queue and schedule when due. */
  function Delta(w: Tasks, id: string, piece: string): Tasks {
    if Due(w, id, piece) then Spawn(Collected(w, id, piece), id) else Collected(w, id, piece)
  }

  /** The end of the stream queues and schedules for every message. */
  function Finish(w: Tasks): Tasks {
    var ids := set id | id in w.base.msgs && Free(w, id);
    Tasks(w.base.(closed := true, msgs := map id | id in w.base.msgs :: Queue(w.base.msgs[id], w.base.msgs[id].text)),
          w.latest + map id | id in ids :: Fresh(w, id),
          w.tasks + map id | id in ids :: (id, Fresh(w, id)) := Created)
  }

  function TaskApply(w: Tasks, s: TaskStep): Tasks
    requires TaskEnabled(w, s)
  {
    match s
    case Other(step) =>
      (match step
       case Chunk(id, piece) => Delta(w, id, piece)
       case StreamEnds => Finish(w)
       case _ => w.(base := Apply(w.base, step)))
    case Starts(t) => Store(w, t, LoopHead(Seen(w, t), w.base.now))
    case Resumes(t) => Store(w, t, Send(Seen(w, t), w.tasks[t].content, w.base.now))
    case Returns(t) => Store(w, t, PatchOver(Seen(w, t), w.base.now))
    case Raises(t) => Store(w, t, Seen(w, t).(worker := Idle, hurt := Seen(w, t).hurt || w.base.closed))
    case Wakes(t) => Store(w, t, LoopHead(Seen(w, t), w.base.now))
  }

  ghost predicate TaskPossible(w: Tasks, steps: seq<TaskStep>)
    decreases |steps|
  {
    steps == [] || (TaskEnabled(w, steps[0]) && TaskPossible(TaskApply(w, steps[0]), steps[1..]))
  }

  ghost function TaskExec(w: Tasks, steps: seq<TaskStep>): Tasks
    requires TaskPossible(w, steps)
    decreases |steps|
  {
    if steps == [] then w else TaskExec(TaskApply(w, steps[0]), steps[1..])
  }

  // ---- one live worker, and the refinement ---------------------------------------------------------

  /** A live worker is the latest of its message. */
  ghost predicate OneLive(w: Tasks) {
    && (forall id :: id in w.latest ==> (id, w.latest[id]) in w.tasks && id in w.base.msgs)
    && (forall t: TaskId :: t in w.tasks ==> t.0 in w.latest && t.1 <= w.latest[t.0])
    && (forall t: TaskId :: t in w.tasks && !w.tasks[t].Idle? ==> t.1 == w.latest[t.0])
  }

  /** The phase CardPatcher gives a message: that of its latest worker. */
  function WorkerOf(w: Tasks, id: string): Worker {
    if id in w.latest && (id, w.latest[id]) in w.tasks then w.tasks[(id, w.latest[id])] else Idle
  }

  ghost function Abs(w: Tasks): State {
    w.base.(msgs := map id | id in w.base.msgs :: w.base.msgs[id].(worker := WorkerOf(w, id)))
  }

  function BaseStep(s: TaskStep): Step {
    match s
    case Other(step) => step
    case Starts(t) => WorkerStarts(t.0)
    case Resumes(t) => CardArrives(t.0)
    case Returns(t) => PatchReturns(t.0)
    case Raises(t) => PatchRaises(t.0)
    case Wakes(t) => WorkerWakes(t.0)
  }

  /** The field for the worker is unused below. */
  ghost predicate Unused(w: Tasks) { forall id :: id in w.base.msgs ==> w.base.msgs[id].worker == Idle }

  ghost predicate Good(w: Tasks) { OneLive(w) && Unused(w) }

  /** The worker a step acts for is the latest of its message, so its phase is the message's. */
  lemma SeenIsAbs(w: Tasks, t: TaskId)
    requires Good(w) && Live(w, t)
    ensures t.0 in w.base.msgs && t.1 == w.latest[t.0] && Abs(w).msgs[t.0] == Seen(w, t)
  {
  }

  /** The abstraction, entry by entry. */
  lemma AbsIs(v: Tasks, b: State)
    requires v.base.(msgs := b.msgs) == b && v.base.msgs.Keys == b.msgs.Keys
    requires forall id :: id in b.msgs ==> b.msgs[id] == v.base.msgs[id].(worker := WorkerOf(v, id))
    ensures Abs(v) == b
  {
    assert Abs(v).msgs == b.msgs;
  }

  lemma StoreKeepsGood(w: Tasks, t: TaskId, m: Msg)
    requires Good(w) && Live(w, t)
    ensures t.0 in w.base.msgs && Good(Store(w, t, m)) && WorkerOf(Store(w, t, m), t.0) == m.worker
    ensures forall id :: id != t.0 ==> WorkerOf(Store(w, t, m), id) == WorkerOf(w, id)
  {
    assert Store(w, t, m).base.msgs.Keys == w.base.msgs.Keys;
  }

  lemma StoreIsPut(w: Tasks, t: TaskId, m: Msg)
    requires Good(w) && Live(w, t)
    ensures t.0 in w.base.msgs && Good(Store(w, t, m)) && Abs(Store(w, t, m)) == Put(Abs(w), t.0, m)
  {
    StoreKeepsGood(w, t, m);
    var v, b := Store(w, t, m), Put(Abs(w), t.0, m);
    assert b.msgs.Keys == w.base.msgs.Keys == v.base.msgs.Keys;
    AbsIs(v, b);
  }

  lemma WorkerStepRefines(w: Tasks, s: TaskStep)
    requires Good(w) && TaskEnabled(w, s) && !s.Other?
    ensures Good(TaskApply(w, s))
    ensures Enabled(Abs(w), BaseStep(s)) && Abs(TaskApply(w, s)) == Apply(Abs(w), BaseStep(s))
  {
    var t := s.task;
    SeenIsAbs(w, t);
    var m, now := Seen(w, t), w.base.now;
    match s {
      case Starts(_) => StoreIsPut(w, t, LoopHead(m, now));
      case Resumes(_) => StoreIsPut(w, t, Send(m, w.tasks[t].content, now));
      case Returns(_) => StoreIsPut(w, t, PatchOver(m, now));
      case Raises(_) => StoreIsPut(w, t, m.(worker := Idle, hurt := m.hurt || w.base.closed));
      case Wakes(_) => StoreIsPut(w, t, LoopHead(m, now));
    }
  }

  /** A message is free exactly when its phase is Idle. */
  lemma FreeMeansIdle(w: Tasks, id: string)
    requires Good(w)
    ensures Free(w, id) <==> WorkerOf(w, id).Idle?
  {
  }

  lemma SpawnKeepsOneLive(w: Tasks, id: string)
    requires Good(w) && id in w.base.msgs && Free(w, id)
    ensures OneLive(Spawn(w, id))
  {
    var v := Spawn(w, id);
    forall t: TaskId | t in v.tasks
      ensures t.0 in v.latest && t.1 <= v.latest[t.0] && (!v.tasks[t].Idle? ==> t.1 == v.latest[t.0])
    {
      if t != (id, Fresh(w, id)) { assert t in w.tasks; }
    }
  }

  lemma SpawnKeeps(w: Tasks, id: string)
    requires Good(w) && id in w.base.msgs
    ensures Good(Spawn(w, id)) && Spawn(w, id).base == w.base
    ensures WorkerOf(Spawn(w, id), id) == if Free(w, id) then Created else WorkerOf(w, id)
    ensures forall other :: other != id ==> WorkerOf(Spawn(w, id), other) == WorkerOf(w, other)
  {
    if Free(w, id) { SpawnKeepsOneLive(w, id); }
  }

  /** Changing the dictionaries alone touches no worker. */
  lemma BaseKeeps(w: Tasks, b: State)
    requires Good(w) && w.base.msgs.Keys <= b.msgs.Keys && forall id :: id in b.msgs ==> b.msgs[id].worker == Idle
    ensures Good(w.(base := b)) && forall id :: WorkerOf(w.(base := b), id) == WorkerOf(w, id)
  {
  }

  lemma DeltaWorkers(w: Tasks, id: string, piece: string)
    requires Good(w)
    ensures var v := Delta(w, id, piece);
      && Good(v) && v.base == Collected(w, id, piece).base
      && WorkerOf(v, id) == (if Due(w, id, piece) && WorkerOf(w, id).Idle? then Created else WorkerOf(w, id))
      && forall k :: k != id ==> WorkerOf(v, k) == WorkerOf(w, k)
  {
    var mid := Collected(w, id, piece);
    BaseKeeps(w, mid.base);
    FreeMeansIdle(mid, id);
    SpawnKeeps(mid, id);
  }

  lemma DeltaRefines(w: Tasks, id: string, piece: string)
    requires Good(w) && Enabled(w.base, Chunk(id, piece))
    ensures Good(Delta(w, id, piece)) && Abs(Delta(w, id, piece)) == Apply(Abs(w), Chunk(id, piece))
  {
    var v, b := Delta(w, id, piece), Apply(Abs(w), Chunk(id, piece));
    DeltaWorkers(w, id, piece);
    OtherDeltas(w, id, piece);
    forall k | k in b.msgs ensures b.msgs[k] == v.base.msgs[k].(worker := WorkerOf(v, k)) {
      if k == id { OneDelta(w, id, piece); }
    }
    AbsIs(v, b);
  }

  lemma OtherDeltas(w: Tasks, id: string, piece: string)
    requires Enabled(w.base, Chunk(id, piece))
    ensures var b, c := Apply(Abs(w), Chunk(id, piece)), Collected(w, id, piece).base;
      && c.(msgs := b.msgs) == b && c.msgs.Keys == b.msgs.Keys
      && forall k :: k in b.msgs && k != id ==> b.msgs[k] == c.msgs[k].(worker := WorkerOf(w, k))
  {
    assert Abs(w).msgs.Keys == w.base.msgs.Keys;
  }

  /** The message of a delta, seen through the abstraction. */
  lemma OneDelta(w: Tasks, id: string, piece: string)
    requires Good(w) && Enabled(w.base, Chunk(id, piece))
    ensures var m := if id in w.base.msgs then w.base.msgs[id] else NewMessage(w.base.initialBound);
      var t := m.(text := m.text + piece);
      var due := ShouldPatch(t, w.base.now);
      var worker := WorkerOf(w, id);
      Apply(Abs(w), Chunk(id, piece)).msgs[id] ==
        if due then Queue(t, t.text).(worker := if worker.Idle? then Created else worker) else t.(worker := worker)
  {
    var k := if id in w.base.msgs then Abs(w).msgs[id] else NewMessage(w.base.initialBound);
    assert id !in w.base.msgs ==> WorkerOf(w, id).Idle?;
    assert ShouldPatch(k.(text := k.text + piece), w.base.now) <==>
           ShouldPatch((if id in w.base.msgs then w.base.msgs[id]
             else NewMessage(w.base.initialBound)).(text := k.text + piece), w.base.now);
  }

  lemma FinishWorkers(w: Tasks, id: string)
    requires Good(w) && id in w.base.msgs
    ensures WorkerOf(Finish(w), id) == if WorkerOf(w, id).Idle? then Created else WorkerOf(w, id)
  {
    FreeMeansIdle(w, id);
  }

  lemma FinishTask(w: Tasks, t: TaskId)
    requires Good(w) && t in Finish(w).tasks
    ensures var v := Finish(w); t.0 in v.latest && t.1 <= v.latest[t.0] && (!v.tasks[t].Idle? ==> t.1 == v.latest[t.0])
  {
    if t !in w.tasks { assert t.1 == Fresh(w, t.0); }
  }

  lemma FinishLatest(w: Tasks, id: string)
    requires Good(w) && id in Finish(w).latest
    ensures var v := Finish(w); (id, v.latest[id]) in v.tasks && id in v.base.msgs
  {
  }

  lemma FinishKeepsGood(w: Tasks)
    requires Good(w)
    ensures Good(Finish(w))
  {
    var v := Finish(w);
    forall t: TaskId | t in v.tasks
      ensures t.0 in v.latest && t.1 <= v.latest[t.0] && (!v.tasks[t].Idle? ==> t.1 == v.latest[t.0])
    {
      FinishTask(w, t);
    }
    forall id | id in v.latest ensures (id, v.latest[id]) in v.tasks && id in v.base.msgs { FinishLatest(w, id); }
  }

  /** The end of the stream, message by message. */
  lemma EndsAt(s: State, id: string)
    requires Enabled(s, StreamEnds) && id in s.msgs
    ensures var b := Apply(s, StreamEnds); id in b.msgs && b.msgs[id] == Schedule(s.msgs[id], s.msgs[id].text)
  {
  }

  lemma ScheduledAlike(m: Msg, worker: Worker)
    ensures Schedule(m.(worker := worker), m.text) ==
            Queue(m, m.text).(worker := if worker.Idle? then Created else worker)
  {
  }

  lemma FinishMessage(w: Tasks, id: string)
    requires Good(w) && Enabled(Abs(w), StreamEnds) && id in w.base.msgs
    ensures var b, v := Apply(Abs(w), StreamEnds), Finish(w);
      id in b.msgs && b.msgs[id] == v.base.msgs[id].(worker := WorkerOf(v, id))
  {
    FinishWorkers(w, id);
    EndsAt(Abs(w), id);
    ScheduledAlike(w.base.msgs[id], WorkerOf(w, id));
  }

  lemma FinishKeys(w: Tasks)
    requires Enabled(Abs(w), StreamEnds)
    ensures var b, c := Apply(Abs(w), StreamEnds), Finish(w).base;
      b.msgs.Keys == c.msgs.Keys == w.base.msgs.Keys && c.(msgs := b.msgs) == b
  {
  }

  lemma FinishRefines(w: Tasks)
    requires Good(w) && Enabled(w.base, StreamEnds)
    ensures Good(Finish(w)) && Enabled(Abs(w), StreamEnds) && Abs(Finish(w)) == Apply(Abs(w), StreamEnds)
  {
    FinishKeepsGood(w);
    FinishKeys(w);
    var b := Apply(Abs(w), StreamEnds);
    forall id | id in b.msgs ensures b.msgs[id] == Finish(w).base.msgs[id].(worker := WorkerOf(Finish(w), id)) {
      FinishMessage(w, id);
    }
    AbsIs(Finish(w), b);
  }

  lemma TickRefines(w: Tasks, d: real)
    requires Good(w) && d >= 0.0
    ensures var v := TaskApply(w, Other(Tick(d))); Good(v) && Abs(v) == Apply(Abs(w), Tick(d))
  {
    var v, b := TaskApply(w, Other(Tick(d))), Apply(Abs(w), Tick(d));
    BaseKeeps(w, v.base);
    assert b.msgs.Keys == v.base.msgs.Keys;
    AbsIs(v, b);
  }

  /** Settling a card changes one message and no worker. */
  lemma OneMessageRefines(w: Tasks, b: State, c: State, id: string)
    requires Good(w) && id in w.base.msgs && b.msgs.Keys == c.msgs.Keys == w.base.msgs.Keys && c.(msgs := b.msgs) == b
    requires c.msgs[id].worker == Idle && b.msgs[id] == c.msgs[id].(worker := WorkerOf(w, id))
    requires forall k :: k in b.msgs && k != id ==> b.msgs[k] == Abs(w).msgs[k] && c.msgs[k] == w.base.msgs[k]
    ensures Good(w.(base := c)) && Abs(w.(base := c)) == b
  {
    BaseKeeps(w, c);
    AbsIs(w.(base := c), b);
  }

  lemma CardSentMessages(w: Tasks, id: string, ok: bool)
    requires Good(w) && Enabled(w.base, CardSent(id, ok))
    ensures var b, c := Apply(Abs(w), CardSent(id, ok)), Apply(w.base, CardSent(id, ok));
      && b.msgs == Abs(w).msgs[id := Abs(w).msgs[id].(card := b.msgs[id].card)]
      && c.msgs == w.base.msgs[id := w.base.msgs[id].(card := b.msgs[id].card)]
      && c.(msgs := b.msgs) == b
  {
  }

  lemma CardSentRefines(w: Tasks, id: string, ok: bool)
    requires Good(w) && Enabled(w.base, CardSent(id, ok))
    ensures var v := TaskApply(w, Other(CardSent(id, ok))); Good(v) && Abs(v) == Apply(Abs(w), CardSent(id, ok))
  {
    var b, c := Apply(Abs(w), CardSent(id, ok)), Apply(w.base, CardSent(id, ok));
    CardSentMessages(w, id, ok);
    OneMessageRefines(w, b, c, id);
  }

  lemma OtherStepRefines(w: Tasks, step: Step)
    requires Good(w) && TaskEnabled(w, Other(step))
    ensures Good(TaskApply(w, Other(step)))
    ensures Enabled(Abs(w), step) && Abs(TaskApply(w, Other(step))) == Apply(Abs(w), step)
  {
    if step.Chunk? { DeltaRefines(w, step.id, step.piece); }
    else if step.StreamEnds? { FinishRefines(w); }
    else if step.Tick? { TickRefines(w, step.d); }
    else { CardSentRefines(w, step.id, step.ok); }
  }

  function BaseSteps(steps: seq<TaskStep>): seq<Step>
    decreases |steps|
  {
    if steps == [] then [] else [BaseStep(steps[0])] + BaseSteps(steps[1..])
  }

  /** Every run of real tasks is a run of the one-worker machine, message by message and patch by patch. */
  lemma {:induction false} TasksRefine(w: Tasks, steps: seq<TaskStep>)
    requires Good(w) && TaskPossible(w, steps)
    ensures Good(TaskExec(w, steps))
    ensures Possible(Abs(w), BaseSteps(steps)) && Exec(Abs(w), BaseSteps(steps)) == Abs(TaskExec(w, steps))
    decreases |steps|
  {
    if steps != [] {
      if steps[0].Other? { OtherStepRefines(w, steps[0].step); } else { WorkerStepRefines(w, steps[0]); }
      TasksRefine(TaskApply(w, steps[0]), steps[1..]);
      assert BaseSteps(steps)[1..] == BaseSteps(steps[1..]);
    }
  }

  lemma NoneIsGood(ack: bool)
    ensures Good(Begin(ack)) && Abs(Begin(ack)) == CardPatcher.Start(ack)
  {
    assert Abs(Begin(ack)).msgs == map[];
  }

  /** In every interleaving a message has at most one live worker. */
  lemma AtMostOneLiveWorker(ack: bool, steps: seq<TaskStep>, t: TaskId, u: TaskId)
    requires TaskPossible(Begin(ack), steps)
    requires var w := TaskExec(Begin(ack), steps); Live(w, t) && Live(w, u) && t.0 == u.0
    ensures t == u
  {
    NoneIsGood(ack);
    TasksRefine(Begin(ack), steps);
  }

  /** And with real tasks too, no final text is lost: once the stream is over and every worker is done,
      the last patch of a message with a card is its whole text, unless a call raised meanwhile. */
  lemma TasksLoseNoFinalText(ack: bool, steps: seq<TaskStep>, id: string)
    requires TaskPossible(Begin(ack), steps) && id in TaskExec(Begin(ack), steps).base.msgs
    requires var w := TaskExec(Begin(ack), steps); w.base.closed && forall t :: t in w.tasks ==> w.tasks[t].Idle?
    ensures var m := TaskExec(Begin(ack), steps).base.msgs[id];
      m.card.Ready? && !m.hurt ==> LastContent(m) == Some(m.text)
  {
    NoneIsGood(ack);
    TasksRefine(Begin(ack), steps);
    NoLostFinalText(ack, BaseSteps(steps), id);
    var w := TaskExec(Begin(ack), steps);
    forall k | k in Abs(w).msgs ensures Abs(w).msgs[k].worker.Idle? {}
  }
}
