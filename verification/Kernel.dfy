/** The scheduler kernel as a function from one state to the next.

    One actor owns every field, and handles one message at a time, so a message
    (or the periodic tick) is one atomic step.  `Step` is the meaning of one
    step; the class in SchedulerActor.dfy carries the same steps out in place
    and is proved equal to it. */
module Kernel {
  import opened Wrappers

  type Id = string

  // An opaque JSON payload: the kernel stores it and never looks inside.
  type Payload = string

  datatype TaskState = Pending | Running | Paused | Finished | Killed {
    predicate Terminal() { Finished? || Killed? }
  }

  datatype Task = Task(
    id: Id, priority: nat, info: Payload, state: TaskState,
    checkpoint: Option<Payload>, result: Option<Payload>, error: Option<string>,
    attempts: nat, maxAttempts: nat,
    createdMs: int, lastStartedMs: Option<int>, finishedMs: Option<int>,
    order: nat, resume: bool)

  // A queue entry.  It may outlive the state it was pushed for (a stale entry).
  datatype HeapKey = HeapKey(id: Id, priority: nat, order: nat)

  datatype Delayed = Delayed(at: int, key: HeapKey)

  // The hook calls the actor spawns, with the task snapshot each call carries.
  datatype HookCall =
    | OnStart(task: Task)
    | OnResume(task: Task, checkpoint: Option<Payload>)
    | OnPause(task: Task, checkpoint: Option<Payload>)
    | OnFinish(task: Task)
    | OnKill(task: Task, reason: Option<string>)
    | OnReschedule(task: Task, error: string)

  datatype State = State(
    tasks: map<Id, Task>,
    queue: seq<HeapKey>,          // a bag: only `Top` gives its order a meaning
    delayed: seq<Delayed>,
    slots: nat, running: nat, order: nat,
    orderIds: seq<Id>, index: map<Id, nat>, snapshot: seq<Task>,
    calls: seq<HookCall>)         // every hook call spawned so far

  datatype Command =
    | Start(id: Id, priority: nat, info: Payload, maxAttempts: nat)
    | Pause(id: Id, checkpoint: Option<Payload>)
    | Resume(id: Id, checkpoint: Option<Payload>)
    | Kill(id: Id, reason: Option<string>)
    | Finish(id: Id, result: Option<Payload>, checkpoint: Option<Payload>)
    | Reschedule(id: Id, error: string, delayMs: nat)
    | Checkpoint(id: Id, value: Payload)
    | Update(id: Id, info: Payload)
    | Restore(tasks: seq<Task>)
    | SetSlots(slots: nat)
    | Tick

  // `now` stands for every clock reading taken while the message is handled.
  datatype Event = Event(cmd: Command, now: int)

  function Max(a: nat, b: nat): nat { if a < b then b else a }

  // Rust's `saturating_sub(1)`.
  function SaturatingDec(n: nat): nat { if n == 0 then 0 else n - 1 }

  function Init(slots: nat): State {
    State(map[], [], [], Max(slots, 1), 0, 0, [], map[], [], [])
  }

  // ----- queue ---------------------------------------------------------------

  /** `a` pops before `b`: higher priority first, then the smaller order. */
  predicate Before(a: HeapKey, b: HeapKey) {
    a.priority > b.priority || (a.priority == b.priority && a.order < b.order)
  }

  /** Where the heap's greatest entry is. */
  function Top(q: seq<HeapKey>): (i: nat)
    requires q != []
    ensures i < |q| && forall j :: 0 <= j < |q| ==> !Before(q[j], q[i])
  {
    var last := |q| - 1;
    if last == 0 then 0
    else
      var i := Top(q[..last]);
      if Before(q[last], q[i]) then last else i
  }

  function Without(q: seq<HeapKey>, i: nat): (r: seq<HeapKey>)
    requires i < |q|
    ensures multiset(q) == multiset(r) + multiset{q[i]} && |r| == |q| - 1
  {
    assert q == q[..i] + [q[i]] + q[i + 1..];
    q[..i] + q[i + 1..]
  }

  function Ready(delayed: seq<Delayed>, now: int): seq<HeapKey> {
    if delayed == [] then []
    else (if delayed[0].at <= now then [delayed[0].key] else []) + Ready(delayed[1..], now)
  }

  function NotReady(delayed: seq<Delayed>, now: int): seq<Delayed> {
    if delayed == [] then []
    else (if delayed[0].at <= now then [] else [delayed[0]]) + NotReady(delayed[1..], now)
  }

  // ----- snapshot rows -------------------------------------------------------

  function Register(s: State, t: Task): State {
    if t.id in s.index then s
    else s.(orderIds := s.orderIds + [t.id],
            index := s.index[t.id := |s.orderIds|],
            snapshot := s.snapshot + [t])
  }

  function Sync(s: State, id: Id): State {
    if id in s.index && id in s.tasks && s.index[id] < |s.snapshot|
    then s.(snapshot := s.snapshot[s.index[id] := s.tasks[id]])
    else s
  }

  function Upsert(s: State, id: Id): State {
    if id in s.index then Sync(s, id)
    else if id in s.tasks then Register(s, s.tasks[id])
    else s
  }

  // ----- dispatch ------------------------------------------------------------

  function Started(t: Task, now: int): Task {
    t.(state := Running, attempts := Max(t.attempts, 1), lastStartedMs := Some(now), resume := false)
  }

  function StartCall(t: Task, now: int): HookCall {
    var t' := Started(t, now);
    if t.resume then OnResume(t', t'.checkpoint) else OnStart(t')
  }

  /** One turn of the dispatch loop: pop the top entry, and start its task
      unless the entry is stale. */
  function DispatchOne(s: State, now: int): (r: State)
    requires s.queue != []
    ensures |r.queue| == |s.queue| - 1
  {
    var i := Top(s.queue);
    var key := s.queue[i];
    var s1 := s.(queue := Without(s.queue, i));
    if key.id !in s.tasks || !s.tasks[key.id].state.Pending? then s1
    else
      var t := s.tasks[key.id];
      Sync(s1.(tasks := s.tasks[key.id := Started(t, now)], running := s.running + 1,
               calls := s.calls + [StartCall(t, now)]),
           t.id)
  }

  function Dispatch(s: State, now: int): State
    decreases |s.queue|
  {
    if s.running >= s.slots || s.queue == [] then s
    else Dispatch(DispatchOne(s, now), now)
  }

  function MoveDelayed(s: State, now: int): State {
    s.(queue := s.queue + Ready(s.delayed, now), delayed := NotReady(s.delayed, now))
  }

  // ----- handlers ------------------------------------------------------------

  /** A handler edits the state; then most handlers fill the free slots. */
  datatype Edit = Quiet(s: State) | ThenDispatch(s: State)

  function Close(e: Edit, now: int): State {
    if e.Quiet? then e.s else Dispatch(e.s, now)
  }

  /** Replace a registered task and patch its row. */
  function Put(s: State, id: Id, t: Task): State {
    Sync(s.(tasks := s.tasks[id := t]), id)
  }

  function OrElse<T>(a: Option<T>, b: Option<T>): Option<T> { if a.Some? then a else b }

  function Released(t: Task, running: nat): nat {
    if t.state.Running? then SaturatingDec(running) else running
  }

  function HandleStart(s: State, id: Id, priority: nat, info: Payload, maxAttempts: nat, now: int): Edit {
    if id in s.tasks then Quiet(s)
    else
      var t := Task(id, priority, info, Pending, None, None, None, 0, maxAttempts, now, None, None, s.order, false);
      var s1 := Upsert(s.(order := s.order + 1, tasks := s.tasks[id := t]), id);
      ThenDispatch(s1.(queue := s1.queue + [HeapKey(id, priority, s.order)]))
  }

  function HandlePause(s: State, id: Id, checkpoint: Option<Payload>): Edit {
    if id !in s.tasks then Quiet(s)
    else
      var t := s.tasks[id];
      var t' := t.(state := Paused, checkpoint := OrElse(checkpoint, t.checkpoint));
      match t.state
      case Running =>
        ThenDispatch(Put(s.(running := SaturatingDec(s.running),
                            calls := s.calls + [OnPause(t', t'.checkpoint)]), id, t'))
      case Pending => Quiet(Put(s, id, t'))
      case _ => Quiet(s)
  }

  function HandleResume(s: State, id: Id, checkpoint: Option<Payload>): Edit {
    if id !in s.tasks || !s.tasks[id].state.Paused? then Quiet(s)
    else
      var t := s.tasks[id];
      var t' := t.(state := Pending, resume := true, checkpoint := OrElse(checkpoint, t.checkpoint));
      ThenDispatch(Put(s.(order := s.order + 1,
                          queue := s.queue + [HeapKey(t.id, t.priority, s.order)]), id, t'))
  }

  function HandleFinish(s: State, id: Id, result: Option<Payload>, checkpoint: Option<Payload>, now: int): Edit {
    if id !in s.tasks || !s.tasks[id].state.Running? then Quiet(s)
    else
      var t := s.tasks[id];
      var t' := t.(state := Finished, finishedMs := Some(now),
                   result := OrElse(result, t.result), checkpoint := OrElse(checkpoint, t.checkpoint));
      ThenDispatch(Put(s.(running := SaturatingDec(s.running), calls := s.calls + [OnFinish(t')]), id, t'))
  }

  function HandleKill(s: State, id: Id, reason: Option<string>, now: int): Edit {
    if id !in s.tasks || s.tasks[id].state.Terminal() then Quiet(s)
    else
      var t := s.tasks[id];
      var t' := t.(state := Killed, error := reason, finishedMs := Some(now));
      ThenDispatch(Put(s.(running := Released(t, s.running), calls := s.calls + [OnKill(t', reason)]), id, t'))
  }

  predicate Exhausted(t: Task) { t.maxAttempts > 0 && t.attempts > t.maxAttempts }

  /** The retry cap was passed: the task dies of its last failure. */
  function GiveUp(s: State, id: Id, t0: Task, t: Task, error: string, now: int): State {
    var t' := t.(state := Killed, finishedMs := Some(now));
    Put(s.(running := Released(t0, s.running), calls := s.calls + [OnKill(t', Some(error))]), id, t')
  }

  function Retry(s: State, id: Id, t0: Task, t: Task, error: string, delayMs: nat, now: int): State {
    var t' := t.(state := Pending, resume := false);
    var key := HeapKey(id, t.priority, s.order);
    Put(s.(running := Released(t0, s.running), order := s.order + 1,
           queue := if delayMs > 0 then s.queue else s.queue + [key],
           delayed := if delayMs > 0 then s.delayed + [Delayed(now + delayMs, key)] else s.delayed,
           calls := s.calls + [OnReschedule(t', error)]), id, t')
  }

  function Tried(t: Task, error: string): Task { t.(attempts := t.attempts + 1, error := Some(error)) }

  /** A reported failure.  The handler looks at no state but Running: it revives
      paused and terminal tasks too. */
  function HandleReschedule(s: State, id: Id, error: string, delayMs: nat, now: int): Edit {
    if id !in s.tasks then Quiet(s)
    else
      var t0 := s.tasks[id];
      var t := Tried(t0, error);
      ThenDispatch(if Exhausted(t) then GiveUp(s, id, t0, t, error, now) else Retry(s, id, t0, t, error, delayMs, now))
  }

  function HandleCheckpoint(s: State, id: Id, value: Payload): Edit {
    if id !in s.tasks then Quiet(s) else Quiet(Put(s, id, s.tasks[id].(checkpoint := Some(value))))
  }

  function HandleUpdate(s: State, id: Id, info: Payload): Edit {
    if id !in s.tasks then Quiet(s) else Quiet(Put(s, id, s.tasks[id].(info := info)))
  }

  predicate Interrupted(t: Task) { t.state.Running? || t.state.Paused? }

  /** A restored live task as the registry will hold it. */
  function Requeued(t: Task, order: nat, now: int): Task {
    t.(state := Pending, resume := Interrupted(t), order := order,
       createdMs := if t.createdMs == 0 then now else t.createdMs)
  }

  function RestoreOne(s: State, t: Task, now: int): State {
    if t.state.Terminal() then Upsert(s.(tasks := s.tasks[t.id := t]), t.id)
    else
      var t' := Requeued(t, s.order, now);
      var s1 := Upsert(s.(order := s.order + 1, tasks := s.tasks[t.id := t']), t.id);
      s1.(queue := s1.queue + [HeapKey(t.id, t.priority, s.order)])
  }

  function RestoreAll(s: State, ts: seq<Task>, now: int): State
    decreases |ts|
  {
    if ts == [] then s else RestoreAll(RestoreOne(s, ts[0], now), ts[1..], now)
  }

  function Handle(s: State, e: Event): Edit {
    match e.cmd
    case Start(id, priority, info, maxAttempts) => HandleStart(s, id, priority, info, maxAttempts, e.now)
    case Pause(id, checkpoint) => HandlePause(s, id, checkpoint)
    case Resume(id, checkpoint) => HandleResume(s, id, checkpoint)
    case Kill(id, reason) => HandleKill(s, id, reason, e.now)
    case Finish(id, result, checkpoint) => HandleFinish(s, id, result, checkpoint, e.now)
    case Reschedule(id, error, delayMs) => HandleReschedule(s, id, error, delayMs, e.now)
    case Checkpoint(id, value) => HandleCheckpoint(s, id, value)
    case Update(id, info) => HandleUpdate(s, id, info)
    case Restore(tasks) => ThenDispatch(RestoreAll(s, tasks, e.now))
    case SetSlots(slots) => ThenDispatch(s.(slots := Max(slots, 1)))
    case Tick => ThenDispatch(MoveDelayed(s, e.now))
  }

  function Step(s: State, e: Event): State { Close(Handle(s, e), e.now) }

  /** A whole run: the messages are handled one after another. */
  function Run(s: State, events: seq<Event>): State
    decreases |events|
  {
    if events == [] then s else Run(Step(s, events[0]), events[1..])
  }
}
