/** Retry delays: a task that failed waits for its delay, and no longer. */
module KernelDelay {
  import opened Wrappers
  import opened Kernel
  import opened KernelInvariants
  import opened KernelRuns
  import opened KernelPriority
  import opened KernelRetry
  import opened KernelTask
  import opened KernelCrash

  /** How often the task was given a slot. */
  function Slotted(calls: seq<HookCall>, id: Id): nat {
    if calls == [] then 0
    else
      var c := calls[|calls| - 1];
      Slotted(calls[..|calls| - 1], id) + (if Goes(c) && c.task.id == id then 1 else 0)
  }

  lemma SlottedSnoc(calls: seq<HookCall>, c: HookCall, id: Id)
    ensures Slotted(calls + [c], id) == Slotted(calls, id) + (if Goes(c) && c.task.id == id then 1 else 0)
  {
    assert (calls + [c])[..|calls|] == calls;
  }

  /** The message may make the task wait for a slot anew. */
  ghost predicate Recalls(cmd: Command, id: Id) {
    RestoresId(cmd, id) || (cmd.Resume? && cmd.id == id) || (cmd.Reschedule? && cmd.id == id)
  }

  /** Messages handled before `due`, none of which recalls the task. */
  ghost predicate QuietBefore(events: seq<Event>, id: Id, due: int) {
    forall i :: 0 <= i < |events| ==> events[i].now < due && !Recalls(events[i].cmd, id)
  }

  /** The task has an entry that comes up before `due`. */
  predicate EarlyEntry(s: State, id: Id, due: int) {
    || (exists i :: 0 <= i < |s.queue| && s.queue[i].id == id)
    || exists i :: 0 <= i < |s.delayed| && s.delayed[i].key.id == id && s.delayed[i].at < due
  }

  // ----- slots given out, over a step ----------------------------------------------------------------------

  /** An edit gives out no slot. */
  lemma {:induction false} EditSlots(s: State, e: Event, id: Id)
    ensures Slotted(Handle(s, e).s.calls, id) == Slotted(s.calls, id)
  {
    hide RestoreAll, MoveDelayed, HandleReschedule, Slotted;
    match e.cmd
    case Restore(ts) => RestoreCalls(s, ts, e.now);
    case Tick => FlushedTasks(s, e.now);
    case Reschedule(id', error, delayMs) => FailureSlots(s, id', error, delayMs, e.now, id);
    case Pause(_, _) => HookSlots(s, e, id);
    case Finish(_, _, _) => HookSlots(s, e, id);
    case Kill(_, _) => HookSlots(s, e, id);
    case _ =>
  }

  lemma HookSlots(s: State, e: Event, id: Id)
    requires e.cmd.Pause? || e.cmd.Finish? || e.cmd.Kill?
    ensures Slotted(Handle(s, e).s.calls, id) == Slotted(s.calls, id)
  {
    hide Slotted;
    var r := Handle(s, e).s;
    if r.calls != s.calls { SlottedSnoc(s.calls, r.calls[|s.calls|], id); }
  }

  lemma FailureSlots(s: State, id': Id, error: string, delayMs: nat, now: int, id: Id)
    ensures Slotted(HandleReschedule(s, id', error, delayMs, now).s.calls, id) == Slotted(s.calls, id)
  {
    hide Slotted;
    var r := HandleReschedule(s, id', error, delayMs, now).s;
    if id' in s.tasks { SlottedSnoc(s.calls, r.calls[|s.calls|], id); }
  }

  /** A pending task with an entry in the queue is started, and the start is
      counted, or both are still there. */
  ghost predicate StartsOrStays(s: State, r: State, id: Id, key: HeapKey, now: int)
    requires id in s.tasks
  {
    && id in r.tasks
    && if r.tasks[id] == s.tasks[id] then key in r.queue && Slotted(r.calls, id) == Slotted(s.calls, id)
       else r.tasks[id] == Started(s.tasks[id], now) && Slotted(r.calls, id) == Slotted(s.calls, id) + 1
  }

  lemma TurnStartsOrStays(s: State, id: Id, key: HeapKey, now: int)
    requires Core(s) && id in s.tasks && s.tasks[id].state.Pending? && key in s.queue && key.id == id
    ensures StartsOrStays(s, DispatchOne(s, now), id, key, now)
  {
    hide Core, DispatchOne, Slotted, Before;
    var top := s.queue[Top(s.queue)];
    TurnQueue(s, now);
    KeyLeft(s.queue, DispatchOne(s, now).queue, top, key);
    if Stale(s, top) {
      TurnSkips(s, now);
    } else {
      TurnStarts(s, now);
      CoreIds(s, top.id);
      SlottedSnoc(s.calls, StartCall(s.tasks[top.id], now), id);
      StartedDiffers(s.tasks[top.id], now);
    }
  }

  lemma KeyLeft(q: seq<HeapKey>, r: seq<HeapKey>, top: HeapKey, key: HeapKey)
    requires multiset(q) == multiset(r) + multiset{top} && key in q
    ensures key == top || key in r
  {
    assert key in multiset(q);
  }

  lemma StartedDiffers(t: Task, now: int)
    requires t.state.Pending?
    ensures Started(t, now) != t && Goes(StartCall(t, now)) && StartCall(t, now).task.id == t.id
    ensures Started(t, now).state.Running?
  {}

  /** The count never falls, and rises only where the task is pending. */
  lemma TurnSlots(s: State, id: Id, now: int)
    requires Core(s) && s.queue != [] && id in s.tasks
    ensures var r := DispatchOne(s, now);
            && id in r.tasks && Slotted(r.calls, id) >= Slotted(s.calls, id)
            && (!s.tasks[id].state.Pending? ==>
                  r.tasks[id] == s.tasks[id] && Slotted(r.calls, id) == Slotted(s.calls, id))
  {
    hide Core, DispatchOne, Slotted;
    var key := s.queue[Top(s.queue)];
    if Stale(s, key) {
      TurnSkips(s, now);
    } else {
      TurnStarts(s, now);
      CoreIds(s, key.id);
      SlottedSnoc(s.calls, StartCall(s.tasks[key.id], now), id);
    }
  }

  lemma {:induction false} DispatchSlots(s: State, id: Id, now: int)
    requires Core(s) && id in s.tasks
    ensures var r := Dispatch(s, now);
            && id in r.tasks && Slotted(r.calls, id) >= Slotted(s.calls, id)
            && (!s.tasks[id].state.Pending? ==>
                  r.tasks[id] == s.tasks[id] && Slotted(r.calls, id) == Slotted(s.calls, id))
    decreases |s.queue|
  {
    hide Core, DispatchOne, Slotted;
    if s.running < s.slots && s.queue != [] {
      assert Core(DispatchOne(s, now)) by { DispatchOneKeepsCore(s, now); }
      TurnSlots(s, id, now);
      DispatchSlots(DispatchOne(s, now), id, now);
    }
  }

  lemma {:induction false} DispatchStartsOrStays(s: State, id: Id, key: HeapKey, now: int)
    requires Core(s) && id in s.tasks && s.tasks[id].state.Pending? && key in s.queue && key.id == id
    ensures StartsOrStays(s, Dispatch(s, now), id, key, now)
    decreases |s.queue|
  {
    hide Core, DispatchOne, Slotted, Started;
    if s.running < s.slots && s.queue != [] {
      assert Core(DispatchOne(s, now)) by { DispatchOneKeepsCore(s, now); }
      TurnStartsOrStays(s, id, key, now);
      var d := DispatchOne(s, now);
      if d.tasks[id] == s.tasks[id] {
        DispatchStartsOrStays(d, id, key, now);
      } else {
        StartedDiffers(s.tasks[id], now);
        DispatchSlots(d, id, now);
      }
    }
  }

  // ----- a task without early entries sleeps ----------------------------------------------------------------

  lemma {:induction false} ReadyIsDue(d: seq<Delayed>, now: int, k: HeapKey)
    requires k in Ready(d, now)
    ensures exists i :: 0 <= i < |d| && d[i].key == k && d[i].at <= now
  {
    if !(d[0].at <= now && d[0].key == k) {
      ReadyIsDue(d[1..], now, k);
      var i :| 0 <= i < |d[1..]| && d[1..][i].key == k && d[1..][i].at <= now;
      assert d[i + 1] == d[1..][i];
    }
  }

  lemma {:induction false} NotReadyIsIn(d: seq<Delayed>, now: int, x: Delayed)
    requires x in NotReady(d, now)
    ensures x in d
  {
    if d[0].at <= now || x != d[0] { NotReadyIsIn(d[1..], now, x); }
  }

  predicate NoQueued(q: seq<HeapKey>, id: Id) { forall k :: k in q ==> k.id != id }

  predicate NoDueBefore(d: seq<Delayed>, id: Id, due: int) { forall x :: x in d && x.key.id == id ==> x.at >= due }

  lemma EarlyIs(s: State, id: Id, due: int)
    ensures EarlyEntry(s, id, due) <==> !NoQueued(s.queue, id) || !NoDueBefore(s.delayed, id, due)
  {
    if !NoQueued(s.queue, id) {
      var k :| k in s.queue && k.id == id;
      var i :| 0 <= i < |s.queue| && s.queue[i] == k;
    }
    if !NoDueBefore(s.delayed, id, due) {
      var x :| x in s.delayed && x.key.id == id && x.at < due;
      var i :| 0 <= i < |s.delayed| && s.delayed[i] == x;
    }
  }

  lemma FlushSleeps(d: seq<Delayed>, now: int, id: Id, due: int)
    requires NoDueBefore(d, id, due) && now < due
    ensures NoQueued(Ready(d, now), id) && NoDueBefore(NotReady(d, now), id, due)
  {
    hide Ready, NotReady;
    forall k | k in Ready(d, now) ensures k.id != id {
      ReadyIsDue(d, now, k);
      var i :| 0 <= i < |d| && d[i].key == k && d[i].at <= now;
      assert d[i] in d;
    }
    forall x | x in NotReady(d, now) && x.key.id == id ensures x.at >= due { NotReadyIsIn(d, now, x); }
  }

  lemma {:induction false} RestoreSleeps(s: State, ts: seq<Task>, now: int, id: Id)
    requires id !in Names(ts) && NoQueued(s.queue, id)
    ensures var r := RestoreAll(s, ts, now); NoQueued(r.queue, id) && r.delayed == s.delayed
    decreases |ts|
  {
    if ts != [] {
      NamesCons(ts);
      OneRowSleeps(s, ts[0], now, id);
      RestoreSleeps(RestoreOne(s, ts[0], now), ts[1..], now, id);
    }
  }

  lemma OneRowSleeps(s: State, t: Task, now: int, id: Id)
    requires t.id != id && NoQueued(s.queue, id)
    ensures var r := RestoreOne(s, t, now); NoQueued(r.queue, id) && r.delayed == s.delayed
  {
    hide Requeued;
  }

  lemma EditSleeps(s: State, e: Event, id: Id, due: int)
    requires Core(s) && id in s.tasks && NoQueued(s.queue, id) && NoDueBefore(s.delayed, id, due)
    requires e.now < due && !Recalls(e.cmd, id)
    ensures var r := Handle(s, e).s; NoQueued(r.queue, id) && NoDueBefore(r.delayed, id, due)
  {
    hide Core, RestoreAll, Ready, NotReady, NoDueBefore, NoQueued;
    match e.cmd
    case Restore(ts) => RestoreSleeps(s, ts, e.now, id);
    case Tick =>
      FlushSleeps(s.delayed, e.now, id, due);
      BothQueued(s.queue, Ready(s.delayed, e.now), id);
    case Resume(other, _) =>
      if other in s.tasks { CoreIds(s, other); }
      PushedSleeps(s, id, due);
    case _ => PushedSleeps(s, id, due);
  }

  lemma BothQueued(a: seq<HeapKey>, b: seq<HeapKey>, id: Id)
    requires NoQueued(a, id) && NoQueued(b, id)
    ensures NoQueued(a + b, id)
  {}

  lemma PushedSleeps(s: State, id: Id, due: int)
    requires NoQueued(s.queue, id) && NoDueBefore(s.delayed, id, due)
    ensures forall k: HeapKey :: k.id != id ==> NoQueued(s.queue + [k], id)
    ensures forall x: Delayed :: x.key.id != id || x.at >= due ==> NoDueBefore(s.delayed + [x], id, due)
  {}

  lemma {:induction false} DispatchSleeps(s: State, id: Id, now: int)
    requires Core(s) && id in s.tasks && NoQueued(s.queue, id)
    ensures var r := Dispatch(s, now);
            && NoQueued(r.queue, id) && r.delayed == s.delayed
            && id in r.tasks && r.tasks[id] == s.tasks[id] && Slotted(r.calls, id) == Slotted(s.calls, id)
    decreases |s.queue|
  {
    hide Core, DispatchOne, Slotted, Before;
    if s.running < s.slots && s.queue != [] {
      assert Core(DispatchOne(s, now)) by { DispatchOneKeepsCore(s, now); }
      TurnQueue(s, now);
      TurnCounts(s, now);
      var key := s.queue[Top(s.queue)];
      if Stale(s, key) {
        TurnSkips(s, now);
      } else {
        TurnStarts(s, now);
        CoreIds(s, key.id);
        SlottedSnoc(s.calls, StartCall(s.tasks[key.id], now), id);
      }
      DispatchSleeps(DispatchOne(s, now), id, now);
    }
  }

  ghost predicate Asleep(s: State, id: Id, due: int) {
    Valid(s) && id in s.tasks && NoQueued(s.queue, id) && NoDueBefore(s.delayed, id, due)
  }

  lemma TaskStays(s: State, e: Event, id: Id)
    requires Core(s) && id in s.tasks && !RestoresId(e.cmd, id)
    ensures id in Handle(s, e).s.tasks && Handle(s, e).s.tasks[id].lastStartedMs == s.tasks[id].lastStartedMs
  {
    hide Core, Handle, RestoresId, CallsOf;
    MessageEdits(s, e, id);
  }

  lemma StepSleeps(s: State, e: Event, id: Id, due: int)
    requires Asleep(s, id, due) && e.now < due && !Recalls(e.cmd, id)
    ensures var r := Step(s, e);
            && Asleep(r, id, due) && Slotted(r.calls, id) == Slotted(s.calls, id)
            && r.tasks[id].lastStartedMs == s.tasks[id].lastStartedMs
  {
    hide Core, Idle, Handle, Dispatch, Slotted, NoQueued, NoDueBefore, RestoresId;
    StepKeepsValid(s, e);
    HandleKeepsCore(s, e);
    EditSleeps(s, e, id, due);
    EditSlots(s, e, id);
    TaskStays(s, e, id);
    DispatchSleeps(Handle(s, e).s, id, e.now);
  }

  lemma {:induction false} RunSleeps(s: State, events: seq<Event>, id: Id, due: int)
    requires Asleep(s, id, due) && QuietBefore(events, id, due)
    ensures var r := Run(s, events);
            && Slotted(r.calls, id) == Slotted(s.calls, id)
            && id in r.tasks && r.tasks[id].lastStartedMs == s.tasks[id].lastStartedMs
    decreases |events|
  {
    hide Asleep, Step, Slotted, Recalls;
    if events != [] {
      StepSleeps(s, events[0], id, due);
      RunSleeps(Step(s, events[0]), events[1..], id, due);
    } else {
      AsleepKnown(s, id, due);
    }
  }

  lemma AsleepKnown(s: State, id: Id, due: int)
    requires Asleep(s, id, due)
    ensures id in s.tasks && Valid(s)
  {}

  // ----- the failure that is to be retried ----------------------------------------------------------------------

  /** The report of a failure of a task that has attempts left, to be retried after a delay. */
  predicate Retried(s: State, e: Event, id: Id) {
    && e.cmd.Reschedule? && e.cmd.id == id && id in s.tasks
    && (s.tasks[id].maxAttempts > 0 ==> s.tasks[id].attempts < s.tasks[id].maxAttempts)
  }

  /** The registry before the dispatch that ends the step. */
  lemma RetryEdit(s: State, e: Event, id: Id) returns (key: HeapKey)
    requires Valid(s) && Retried(s, e, id)
    ensures var f := Handle(s, e).s;
            && Handle(s, e).ThenDispatch? && id in f.tasks && f.tasks[id].state.Pending? && key.id == id
            && (if e.cmd.delayMs > 0
                then f.queue == s.queue && f.delayed == s.delayed + [Delayed(e.now + e.cmd.delayMs, key)]
                else f.queue == s.queue + [key] && f.delayed == s.delayed)
  {
    hide Core, Sync;
    key := HeapKey(id, s.tasks[id].priority, s.order);
    PutSync(s, id);
  }

  lemma PutSync(s: State, id: Id)
    ensures forall f: State {:trigger Sync(f, id)} :: Sync(f, id).tasks == f.tasks && Sync(f, id).queue == f.queue
                               && Sync(f, id).delayed == f.delayed
  {}

  lemma RetryTick(s: State, e: Event, id: Id)
    requires Valid(s) && Retried(s, e, id) && e.cmd.delayMs > 0 && !EarlyEntry(s, id, e.now + e.cmd.delayMs)
    ensures var r := Step(s, e);
            && Asleep(r, id, e.now + e.cmd.delayMs) && Slotted(r.calls, id) == Slotted(s.calls, id)
            && r.tasks[id].lastStartedMs == s.tasks[id].lastStartedMs
  {
    hide Core, Idle, Handle, Dispatch, Slotted, NoQueued, NoDueBefore, EarlyEntry;
    var due := e.now + e.cmd.delayMs;
    StepKeepsValid(s, e);
    HandleKeepsCore(s, e);
    EarlyIs(s, id, due);
    var key := RetryEdit(s, e, id);
    PushedSleeps(s, id, due);
    EditSlots(s, e, id);
    TaskStays(s, e, id);
    DispatchSleeps(Handle(s, e).s, id, e.now);
  }

  // ----- an early entry brings it back early -----------------------------------------------------------------------

  /** Some entry of the task has been, or can be, made to start it. */
  ghost predicate Poised(s: State, id: Id, key: HeapKey) {
    Valid(s) && id in s.tasks && s.tasks[id].state.Pending? && key in s.queue && key.id == id
  }

  lemma {:induction false} ReadyHas(d: seq<Delayed>, now: int, x: Delayed)
    requires x in d && x.at <= now
    ensures x.key in Ready(d, now)
  {
    if x != d[0] { ReadyHas(d[1..], now, x); }
  }

  lemma {:induction false} NotReadyHas(d: seq<Delayed>, now: int, x: Delayed)
    requires x in d && x.at > now
    ensures x in NotReady(d, now)
  {
    if x != d[0] { NotReadyHas(d[1..], now, x); }
  }

  /** A tick at the time of a delayed entry, or later, starts its pending task
      or puts the entry into the queue. */
  lemma TickBrings(s: State, id: Id, x: Delayed, now: int)
    requires Valid(s) && id in s.tasks && s.tasks[id].state.Pending? && x in s.delayed && x.key.id == id && x.at <= now
    ensures Valid(Step(s, Event(Command.Tick, now)))
    ensures StartsOrStays(s, Step(s, Event(Command.Tick, now)), id, x.key, now)
  {
    hide Core, Idle, Dispatch, Slotted, Ready, NotReady, Started;
    var e := Event(Command.Tick, now);
    StepKeepsValid(s, e);
    HandleKeepsCore(s, e);
    ReadyHas(s.delayed, now, x);
    var f := MoveDelayed(s, now);
    assert Handle(s, e) == ThenDispatch(f);
    DispatchStartsOrStays(f, id, x.key, now);
  }

  /** Enough slots start it. */
  lemma WideningStarts(s: State, id: Id, key: HeapKey, now: int)
    requires Poised(s, id, key)
    ensures var r := Step(s, Event(Command.SetSlots(s.running + |s.queue| + 1), now));
            Slotted(r.calls, id) > Slotted(s.calls, id)
  {
    hide Core, Idle, Dispatch, Slotted, Started;
    var e := Event(Command.SetSlots(s.running + |s.queue| + 1), now);
    HandleKeepsCore(s, e);
    var f := s.(slots := s.running + |s.queue| + 1);
    assert Handle(s, e) == ThenDispatch(f);
    DispatchStartsOrStays(f, id, key, now);
    DispatchDrains(f, now);
  }

  /** Over the report and the messages after it, handled before the delay is
      over, the task is given no slot. */
  ghost predicate WaitsOut(s: State, e: Event, id: Id, due: int) {
    forall events :: QuietBefore(events, id, due) ==> Slotted(Run(s, [e] + events).calls, id) == Slotted(s.calls, id)
  }

  lemma RunCons(s: State, e: Event, events: seq<Event>)
    ensures Run(s, [e] + events) == Run(Step(s, e), events)
  {
    hide Step;
    assert ([e] + events)[1..] == events;
  }

  lemma QuietTwo(a: Event, b: Event, id: Id, due: int)
    requires a.now < due && b.now < due && !Recalls(a.cmd, id) && !Recalls(b.cmd, id)
    ensures QuietBefore([], id, due) && QuietBefore([b], id, due) && QuietBefore([a, b], id, due)
  {
    hide Recalls;
  }

  /** The report with an entry of the task in the queue. */
  lemma QueuedIsEarly(s: State, e: Event, id: Id, due: int, key: HeapKey)
    requires Valid(s) && Retried(s, e, id) && e.cmd.delayMs > 0 && e.now < due && key in s.queue && key.id == id
    ensures !WaitsOut(s, e, id, due)
  {
    hide Core, Idle, Handle, Dispatch, Slotted, Started, Run, Recalls;
    StepKeepsValid(s, e);
    HandleKeepsCore(s, e);
    var own := RetryEdit(s, e, id);
    EditSlots(s, e, id);
    var f, r := Handle(s, e).s, Step(s, e);
    DispatchStartsOrStays(f, id, key, e.now);
    var widen := Event(Command.SetSlots(r.running + |r.queue| + 1), e.now);
    assert !Recalls(widen.cmd, id) by { NoRecall(widen.cmd, id); }
    QuietTwo(widen, widen, id, due);
    RunCons(s, e, []);
    RunCons(s, e, [widen]);
    NoEvents(r);
    RunOne(r, widen);
    if r.tasks[id] == f.tasks[id] { WideningStarts(r, id, key, e.now); }
    assert Slotted(Run(s, [e] + []).calls, id) > Slotted(s.calls, id)
           || Slotted(Run(s, [e] + [widen]).calls, id) > Slotted(s.calls, id);
  }

  lemma NoRecall(cmd: Command, id: Id)
    requires cmd.SetSlots? || cmd.Tick?
    ensures !Recalls(cmd, id)
  {}

  /** The report with an entry of the task that is delayed for less. */
  lemma DelayedIsEarly(s: State, e: Event, id: Id, due: int, x: Delayed)
    requires Valid(s) && Retried(s, e, id) && e.cmd.delayMs > 0 && x in s.delayed && x.key.id == id && x.at < due
    ensures !WaitsOut(s, e, id, due)
  {
    hide Core, Idle, Handle, Dispatch, Slotted, Started, Run, Recalls, Step;
    var own := RetryEdit(s, e, id);
    var f, r := Handle(s, e).s, Step(s, e);
    StepPends(s, e, id, x);
    NoEvents(r);
    RunCons(s, e, []);
    var tick := Event(Command.Tick, x.at);
    NoRecall(tick.cmd, id);
    if r.tasks[id].state.Pending? {
      TickBrings(r, id, x, x.at);
      var r2 := Step(r, tick);
      var widen := Event(Command.SetSlots(r2.running + |r2.queue| + 1), x.at);
      NoRecall(widen.cmd, id);
      QuietTwo(tick, widen, id, due);
      QuietTwo(tick, tick, id, due);
      RunCons(s, e, [tick]);
      RunCons(s, e, [tick, widen]);
      RunOne(r, tick);
      RunTwo(r, tick, widen);
      if r2.tasks[id] == r.tasks[id] { WideningStarts(r2, id, x.key, x.at); }
      assert Slotted(Run(s, [e] + [tick]).calls, id) > Slotted(s.calls, id)
             || Slotted(Run(s, [e] + [tick, widen]).calls, id) > Slotted(s.calls, id);
    } else {
      QuietTwo(tick, tick, id, due);
      assert Slotted(Run(s, [e] + []).calls, id) > Slotted(s.calls, id);
    }
  }

  /** After the report the task waits, or was started; delayed entries stay. */
  lemma StepPends(s: State, e: Event, id: Id, x: Delayed)
    requires Valid(s) && Retried(s, e, id) && x in Handle(s, e).s.delayed
    ensures var r := Step(s, e);
            && Valid(r) && id in r.tasks && x in r.delayed
            && if r.tasks[id].state.Pending? then Slotted(r.calls, id) == Slotted(s.calls, id)
               else Slotted(r.calls, id) > Slotted(s.calls, id)
  {
    hide Core, Idle, Handle, Dispatch, Slotted;
    StepKeepsValid(s, e);
    HandleKeepsCore(s, e);
    var own := RetryEdit(s, e, id);
    EditSlots(s, e, id);
    PendingCounts(Handle(s, e).s, id, e.now);
    DelayedStay(Handle(s, e).s, e.now);
  }

  lemma {:induction false} DelayedStay(s: State, now: int)
    ensures Dispatch(s, now).delayed == s.delayed
    decreases |s.queue|
  {
    hide Top, Without;
    if s.running < s.slots && s.queue != [] {
      TurnCounts(s, now);
      DelayedStay(DispatchOne(s, now), now);
    }
  }

  /** A dispatch that leaves a pending task pending gave it no slot. */
  lemma {:induction false} PendingCounts(s: State, id: Id, now: int)
    requires Core(s) && id in s.tasks && s.tasks[id].state.Pending?
    ensures var r := Dispatch(s, now);
            && id in r.tasks
            && if r.tasks[id].state.Pending? then Slotted(r.calls, id) == Slotted(s.calls, id)
               else Slotted(r.calls, id) > Slotted(s.calls, id)
    decreases |s.queue|
  {
    hide Core, DispatchOne, Slotted, Started;
    if s.running < s.slots && s.queue != [] {
      assert Core(DispatchOne(s, now)) by { DispatchOneKeepsCore(s, now); }
      var d, key := DispatchOne(s, now), s.queue[Top(s.queue)];
      if Stale(s, key) {
        TurnSkips(s, now);
        PendingCounts(d, id, now);
      } else {
        TurnStarts(s, now);
        CoreIds(s, key.id);
        SlottedSnoc(s.calls, StartCall(s.tasks[key.id], now), id);
        StartedDiffers(s.tasks[key.id], now);
        if key.id == id { DispatchSlots(d, id, now); } else { PendingCounts(d, id, now); }
      }
    }
  }

  /** The retry delay.  A task whose failure at time t is to be retried after d is
      started by no message handled before t + d, as long as it is not resumed,
      failed or restored again, exactly when it owns no other entry that comes
      up before then. */
  lemma RetryWaitsIff(s: State, e: Event, id: Id)
    requires Valid(s) && Retried(s, e, id) && e.cmd.delayMs > 0
    ensures WaitsOut(s, e, id, e.now + e.cmd.delayMs) <==> !EarlyEntry(s, id, e.now + e.cmd.delayMs)
  {
    hide Valid, Step, Slotted, Run, QuietBefore, WaitsOut;
    var due := e.now + e.cmd.delayMs;
    if EarlyEntry(s, id, due) {
      if i :| 0 <= i < |s.queue| && s.queue[i].id == id {
        QueuedIsEarly(s, e, id, due, s.queue[i]);
      } else {
        var i :| 0 <= i < |s.delayed| && s.delayed[i].key.id == id && s.delayed[i].at < due;
        StillDelayed(s, e, id, s.delayed[i]);
        DelayedIsEarly(s, e, id, due, s.delayed[i]);
      }
    } else {
      NoEarlyWaits(s, e, id);
    }
  }

  lemma StillDelayed(s: State, e: Event, id: Id, x: Delayed)
    requires Valid(s) && Retried(s, e, id) && e.cmd.delayMs > 0 && x in s.delayed
    ensures x in Handle(s, e).s.delayed
  {
    hide Handle, Valid;
    var own := RetryEdit(s, e, id);
  }

  lemma NoEarlyWaits(s: State, e: Event, id: Id)
    requires Valid(s) && Retried(s, e, id) && e.cmd.delayMs > 0 && !EarlyEntry(s, id, e.now + e.cmd.delayMs)
    ensures WaitsOut(s, e, id, e.now + e.cmd.delayMs)
  {
    hide Valid, Step, Slotted, Run, QuietBefore, Asleep;
    var due := e.now + e.cmd.delayMs;
    RetryTick(s, e, id);
    forall events | QuietBefore(events, id, due)
      ensures Slotted(Run(s, [e] + events).calls, id) == Slotted(s.calls, id) {
      RunCons(s, e, events);
      RunSleeps(Step(s, e), events, id, due);
    }
  }

  // ----- the delay over ---------------------------------------------------------------------------------------------

  /** At work since `now`, or waiting in the queue while all slots are taken. */
  predicate Back(r: State, id: Id, now: int) {
    && id in r.tasks
    && (|| (r.tasks[id].state.Running? && r.tasks[id].lastStartedMs == Some(now))
        || (r.tasks[id].state.Pending? && r.running >= r.slots && exists i ::
            0 <= i < |r.queue| && r.queue[i].id == id))
  }

  lemma StaysIsBack(s: State, r: State, id: Id, key: HeapKey, now: int)
    requires Valid(r) && id in s.tasks && s.tasks[id].state.Pending? && StartsOrStays(s, r, id, key, now) &&
        key.id == id
    ensures Back(r, id, now)
  {
    hide Core, Slotted;
    if r.tasks[id] == s.tasks[id] {
      var i :| 0 <= i < |r.queue| && r.queue[i] == key;
    }
  }

  lemma StepKeepsDelayed(s: State, e: Event, x: Delayed)
    requires x in s.delayed && e.now < x.at
    ensures x in Step(s, e).delayed
  {
    hide Handle, Dispatch;
    EditKeepsDelayed(s, e, x);
    DelayedStay(Handle(s, e).s, e.now);
  }

  lemma EditKeepsDelayed(s: State, e: Event, x: Delayed)
    requires x in s.delayed && e.now < x.at
    ensures x in Handle(s, e).s.delayed
  {
    hide RestoreAll, Ready, NotReady;
    match e.cmd
    case Restore(ts) => RestoreDelayed(s, ts, e.now);
    case Tick => NotReadyHas(s.delayed, e.now, x);
    case _ =>
  }

  lemma {:induction false} RestoreDelayed(s: State, ts: seq<Task>, now: int)
    ensures RestoreAll(s, ts, now).delayed == s.delayed
    decreases |ts|
  {
    if ts != [] { RestoreDelayed(RestoreOne(s, ts[0], now), ts[1..], now); }
  }

  lemma {:induction false} RunKeepsDelayed(s: State, events: seq<Event>, x: Delayed)
    requires x in s.delayed && forall i :: 0 <= i < |events| ==> events[i].now < x.at
    ensures x in Run(s, events).delayed
    decreases |events|
  {
    hide Step;
    if events != [] {
      StepKeepsDelayed(s, events[0], x);
      RunKeepsDelayed(Step(s, events[0]), events[1..], x);
    }
  }

  /** And no longer: whatever is handled before t + d, if the task still waits
      then, the first tick from t + d on starts it, or leaves it in the queue
      only because every slot is taken. */
  lemma DueRetryIsBack(s: State, e: Event, id: Id, events: seq<Event>, now: int)
    requires Valid(s) && Retried(s, e, id) && e.cmd.delayMs > 0
    requires forall i :: 0 <= i < |events| ==> events[i].now < e.now + e.cmd.delayMs
    requires now >= e.now + e.cmd.delayMs
    ensures var r := Run(s, [e] + events);
            id in r.tasks && r.tasks[id].state.Pending? ==> Back(Step(r, Event(Command.Tick, now)), id, now)
  {
    hide Valid, Step, Slotted, Run, Handle, Back, StartsOrStays;
    var own := RetryEdit(s, e, id);
    var x := Delayed(e.now + e.cmd.delayMs, own);
    StepPends(s, e, id, x);
    RunCons(s, e, events);
    RunKeepsDelayed(Step(s, e), events, x);
    RunKeepsValid(Step(s, e), events);
    var r := Run(s, [e] + events);
    if id in r.tasks && r.tasks[id].state.Pending? {
      TickBrings(r, id, x, now);
      StaysIsBack(r, Step(r, Event(Command.Tick, now)), id, own, now);
    }
  }

  /** Without a delay the task is back at once. */
  lemma RetryAtOnce(s: State, e: Event, id: Id)
    requires Valid(s) && Retried(s, e, id) && e.cmd.delayMs == 0
    ensures Back(Step(s, e), id, e.now)
  {
    hide Core, Idle, Handle, Dispatch, Slotted, Back, StartsOrStays;
    StepKeepsValid(s, e);
    HandleKeepsCore(s, e);
    var own := RetryEdit(s, e, id);
    DispatchStartsOrStays(Handle(s, e).s, id, own, e.now);
    StaysIsBack(Handle(s, e).s, Step(s, e), id, own, e.now);
  }
}
