/** Dispatch keeps priority order from a state on, exactly when every entry of
    that state carries its task's priority. */
module KernelOrder {
  import opened Kernel
  import opened KernelInvariants
  import opened KernelRuns
  import opened KernelPriority

  /** Every restore of the run keeps the registered priorities. */
  ghost predicate PrioritiesKept(s: State, events: seq<Event>)
    decreases |events|
  {
    events == [] || (KeepsPriorities(s, events[0].cmd) && PrioritiesKept(Step(s, events[0]), events[1..]))
  }

  /** After the run, handling `e` starts the task of `d` ahead of a pending one
      that it does not outrank. */
  ghost predicate OvertakesAfter(s: State, events: seq<Event>, e: Event, d: HeapKey, k: HeapKey) {
    && PrioritiesKept(s, events) && KeepsPriorities(Run(s, events), e.cmd)
    && Overtakes(Handle(Run(s, events), e).s, e.now, d, k)
  }

  /** Some continuation that keeps all priorities dispatches out of order. */
  ghost predicate CanOvertake(s: State) {
    exists events, e, d, k :: OvertakesAfter(s, events, e, d, k)
  }

  // ----- current entries are enough ---------------------------------------------------------

  lemma {:induction false} KeptIsOrderKept(s: State, events: seq<Event>)
    requires Valid(s) && KeysCurrent(s) && PrioritiesKept(s, events)
    ensures OrderKept(s, events)
    decreases |events|
  {
    hide KeysCurrent, KeepsOrder, KeepsPriorities, Valid, Step;
    if events != [] {
      PrioritiesAreEnough(s, events[0].cmd);
      StepKeysCurrent(s, events[0]);
      KeptIsOrderKept(Step(s, events[0]), events[1..]);
    }
  }

  lemma CurrentNeverOvertakes(s: State)
    requires Valid(s) && KeysCurrent(s)
    ensures !CanOvertake(s)
  {
    hide KeysCurrent, KeepsOrder, KeepsPriorities, Handle, Dispatched, Dispatch, Core;
    forall events, e: Event, d, k | PrioritiesKept(s, events) && KeepsPriorities(Run(s, events), e.cmd)
      ensures !Overtakes(Handle(Run(s, events), e).s, e.now, d, k) {
      KeptIsOrderKept(s, events);
      RunKeysCurrent(s, events);
      var r := Run(s, events);
      PrioritiesAreEnough(r, e.cmd);
      EditKeysCurrent(r, e);
      HandleKeepsCore(r, e);
      InOrderHere(Handle(r, e).s, e.now, d, k);
    }
  }

  lemma InOrderHere(s: State, now: int, d: HeapKey, k: HeapKey)
    requires Core(s) && KeysCurrent(s)
    ensures !Overtakes(s, now, d, k)
  {
    hide Core, KeysCurrent, Dispatched, Dispatch;
    if d in Dispatched(s, now) && k in Dispatch(s, now).queue && k.id in s.tasks { PriorityThenFifo(s, now, d, k); }
  }

  // ----- a stale entry is enough to break it -------------------------------------------------

  lemma OvertakesLater(s: State, e: Event)
    requires KeepsPriorities(s, e.cmd) && CanOvertake(Step(s, e))
    ensures CanOvertake(s)
  {
    hide Step, Handle, Overtakes, KeepsPriorities;
    var events, f, d, k :| OvertakesAfter(Step(s, e), events, f, d, k);
    var all := [e] + events;
    assert all[1..] == events;
    assert OvertakesAfter(s, all, f, d, k);
  }

  lemma OvertakesNow(s: State, e: Event, d: HeapKey, k: HeapKey)
    requires KeepsPriorities(s, e.cmd) && Overtakes(Handle(s, e).s, e.now, d, k)
    ensures CanOvertake(s)
  {
    hide Handle, Overtakes, KeepsPriorities;
    assert Run(s, []) == s;
    assert OvertakesAfter(s, [], e, d, k);
  }

  predicate Full(s: State) { s.running >= s.slots }

  /** An entry of a pending task is dispatched, or its task by another entry, or it stays. */
  lemma {:induction false} PendingStays(s: State, now: int, k: HeapKey)
    requires Core(s) && k in s.queue && !Stale(s, k) && k.id !in IdsOf(Dispatched(s, now))
    ensures k in Dispatch(s, now).queue
    decreases |s.queue|
  {
    hide Core, DispatchOne, IdsOf;
    if s.running < s.slots && s.queue != [] {
      var key, r := s.queue[Top(s.queue)], DispatchOne(s, now);
      assert Core(r) by { DispatchOneKeepsCore(s, now); }
      if Stale(s, key) {
        TurnSkips(s, now);
      } else {
        TurnStarts(s, now);
        IdsOfCons(key, Dispatched(r, now));
      }
      TurnLeaves(s, now, k);
      PendingStays(r, now, k);
    }
  }

  lemma TurnLeaves(s: State, now: int, k: HeapKey)
    requires s.queue != [] && k in s.queue && k != s.queue[Top(s.queue)]
    ensures k in DispatchOne(s, now).queue
  {
    var i := Top(s.queue);
    assert k in multiset(s.queue);
    assert multiset(s.queue) == multiset(Without(s.queue, i)) + multiset{s.queue[i]};
    assert k in multiset(Without(s.queue, i));
  }

  lemma TurnFills(s: State, now: int)
    requires s.queue != [] && !Stale(s, s.queue[Top(s.queue)])
    ensures DispatchOne(s, now).running == s.running + 1 && DispatchOne(s, now).slots == s.slots
  {}

  /** With one free slot, an entry behind the one that takes it stays. */
  lemma {:induction false} LaterStays(s: State, now: int, d: HeapKey, k: HeapKey)
    requires Core(s) && s.running + 1 == s.slots && Dispatched(s, now) == [d]
    requires k in s.queue && Before(d, k)
    ensures k in Dispatch(s, now).queue
    decreases |s.queue|
  {
    hide Core, DispatchOne;
    DispatchedPending(s, now);
    var key, r := s.queue[Top(s.queue)], DispatchOne(s, now);
    assert d in [d];
    assert Core(r) by { DispatchOneKeepsCore(s, now); }
    if Stale(s, key) {
      TurnSkips(s, now);
      TurnLeaves(s, now, k);
      LaterStays(r, now, d, k);
    } else {
      TurnStarts(s, now);
      assert key == d;
      TurnLeaves(s, now, k);
      TurnFills(s, now);
      assert Dispatch(r, now) == r;
    }
  }

  lemma {:induction false} QueueShrinks(s: State, now: int)
    ensures |Dispatch(s, now).queue| <= |s.queue|
    ensures s.running < s.slots && s.queue != [] ==> |Dispatch(s, now).queue| < |s.queue|
    decreases |s.queue|
  {
    hide DispatchOne;
    if s.running < s.slots && s.queue != [] { QueueShrinks(DispatchOne(s, now), now); }
  }

  lemma {:induction false} DispatchIsIdle(s: State, now: int)
    ensures var r := Dispatch(s, now); Full(r) || r.queue == []
    ensures Dispatch(s, now).delayed == s.delayed
    decreases |s.queue|
  {
    if s.running < s.slots && s.queue != [] { DispatchIsIdle(DispatchOne(s, now), now); }
  }

  // ----- freeing one slot ----------------------------------------------------------------------

  /** The message that gives a full kernel exactly one free slot. */
  function FreeOne(s: State): Event { Event(SetSlots(s.running + 1), 0) }

  function Freed(s: State): State { s.(slots := s.running + 1) }

  lemma FreeOneIs(s: State)
    ensures Handle(s, FreeOne(s)) == ThenDispatch(Freed(s)) && Step(s, FreeOne(s)) == Dispatch(Freed(s), 0)
    ensures KeepsPriorities(s, FreeOne(s).cmd)
  {
    hide Dispatch;
  }

  lemma FreedIsCore(s: State)
    requires Core(s)
    ensures Core(Freed(s))
  {
    hide SnapshotAgrees, OrdersDistinct, NoLostWork;
    SameKeysKeepCore(s, Freed(s));
  }

  /** With a pending entry waiting, one free slot starts exactly one task. */
  lemma OneStarts(s: State, k: HeapKey) returns (d: HeapKey)
    requires Core(s) && Full(s) && k in s.queue && !Stale(s, k)
    ensures Core(Freed(s)) && Dispatched(Freed(s), 0) == [d] && d in s.queue && !Stale(s, d)
    ensures var r := Dispatch(Freed(s), 0); Full(r) && |r.queue| < |s.queue| && r.delayed == s.delayed
    ensures d.id != k.id ==> k in Dispatch(Freed(s), 0).queue && Before(d, k)
  {
    hide Core, Dispatch, Dispatched, IdsOf;
    var f := Freed(s);
    FreedIsCore(s);
    DispatchCalls(f, 0);
    DispatchKeepsRows(f, 0);
    DispatchIsIdle(f, 0);
    QueueShrinks(f, 0);
    DispatchedPending(f, 0);
    DispatchOrder(f, 0);
    var ds := Dispatched(f, 0);
    assert !Stale(f, k);
    if ds == [] {
      IdsOfNone();
      PendingStays(f, 0, k);
    }
    d := ds[0];
    assert ds == [d];
    assert !Stale(f, d);
    if d.id != k.id {
      IdsOfSingle(d);
      PendingStays(f, 0, k);
    }
  }

  lemma IdsOfSingle(d: HeapKey)
    ensures IdsOf([d]) == {d.id}
  {
    assert d in [d];
  }

  lemma OneStartsTasks(s: State, d: HeapKey, id: Id)
    requires Core(Freed(s)) && Dispatched(Freed(s), 0) == [d] && id in s.tasks && id != d.id
    ensures var r := Dispatch(Freed(s), 0); id in r.tasks && r.tasks[id] == s.tasks[id]
    ensures forall k :: k in Dispatch(Freed(s), 0).queue ==> k in s.queue
  {
    hide Core, Dispatch, Dispatched, IdsOf;
    DispatchTasks(Freed(s), 0);
    DispatchOrder(Freed(s), 0);
    IdsOfSingle(d);
  }

  /** Slots freed one by one until the task of `t` starts, ahead of `w`. */
  lemma {:induction false} Drain(s: State, t: HeapKey, w: HeapKey)
    requires Valid(s) && Full(s) && t in s.queue && w in s.queue && t.id != w.id && !Stale(s, t) && !Stale(s, w)
    requires forall x :: x in s.queue && x.id == w.id ==> Before(t, x)
    requires forall x :: x in s.queue && x.id == t.id ==> !Outranks(s, x, w)
    ensures CanOvertake(s)
    decreases |s.queue|
  {
    hide Core, Dispatch, Dispatched, CanOvertake, Handle, Step, Before;
    var d := OneStarts(s, t);
    FreeOneIs(s);
    var r := Dispatch(Freed(s), 0);
    if d.id == t.id {
      WatchedStays(s, d, w);
      OvertakesHere(s, d, w);
    } else {
      NotTheWatched(s, t, w, d);
      OneStartsTasks(s, d, t.id);
      OneStartsTasks(s, d, w.id);
      WatchedStays(s, d, w);
      StepKeepsValid(s, FreeOne(s));
      Drain(r, t, w);
      OvertakesLater(s, FreeOne(s));
    }
  }

  lemma WatchedStays(s: State, d: HeapKey, w: HeapKey)
    requires Core(Freed(s)) && Dispatched(Freed(s), 0) == [d] && d.id != w.id
    requires w in s.queue && !Stale(s, w)
    ensures w in Dispatch(Freed(s), 0).queue
  {
    hide Core, Dispatch, Dispatched, IdsOf;
    IdsOfSingle(d);
    PendingStays(Freed(s), 0, w);
  }

  lemma OvertakesHere(s: State, d: HeapKey, w: HeapKey)
    requires Core(Freed(s)) && Dispatched(Freed(s), 0) == [d] && w in Dispatch(Freed(s), 0).queue
    requires !Stale(s, d) && !Stale(s, w) && !Outranks(s, d, w)
    ensures CanOvertake(s)
  {
    hide Core, Dispatch, Dispatched, Handle, CanOvertake;
    FreeOneIs(s);
    assert d in [d];
    OvertakesNow(s, FreeOne(s), d, w);
  }

  lemma NotTheWatched(s: State, t: HeapKey, w: HeapKey, d: HeapKey)
    requires d in s.queue && Before(d, t) && forall x :: x in s.queue && x.id == w.id ==> Before(t, x)
    ensures d.id != w.id
  {}

  // ----- an entry above its task's priority ------------------------------------------------------

  lemma {:induction false} Longer(ids: set<Id>) returns (id: Id)
    ensures id !in ids && forall x :: x in ids ==> |x| < |id|
  {
    id := "!";
    if x :| x in ids {
      var y := Longer(ids - {x});
      id := x + y + "!";
      forall z | z in ids ensures |z| < |id| { if z != x { assert z in ids - {x}; } }
    }
  }

  lemma NewId(s: State) returns (id: Id)
    ensures id !in s.tasks && forall k :: k in s.queue ==> k.id != id
  {
    var ids := s.tasks.Keys + (set k | k in s.queue :: k.id);
    id := Longer(ids);
    forall k | k in s.queue ensures k.id in ids {}
  }

  function StartOf(id: Id, priority: nat): Event { Event(Command.Start(id, priority, "", 0), 0) }

  /** A new task in a full kernel just joins the queue. */
  lemma StartQueues(s: State, id: Id, priority: nat)
    requires Valid(s) && Full(s) && id !in s.tasks
    ensures var r, key := Step(s, StartOf(id, priority)), HeapKey(id, priority, s.order);
            && Valid(r) && Full(r) && r.queue == s.queue + [key] && r.delayed == s.delayed
            && r.tasks == s.tasks[id := Fresh(id, priority, s.order)] && r.order == s.order + 1
    ensures KeepsPriorities(s, StartOf(id, priority).cmd)
  {
    StepKeepsValid(s, StartOf(id, priority));
    hide OrdersDistinct, NoLostWork, Drift, Valid;
    StartWhenFull(s, id, priority);
  }

  /** The rows the proof restores: the task's own, but for its state and cap. */
  function Row(t: Task, st: TaskState): Task { t.(state := st, maxAttempts := 0) }

  lemma RestoreInFull(s: State, id: Id, st: TaskState)
    requires Valid(s) && Full(s) && id in s.tasks && (st == Pending || st == Finished)
    ensures var row := Row(s.tasks[id], st);
            var e := Event(Command.Restore([row]), 0);
            var r := Step(s, e);
            && KeepsPriorities(s, e.cmd) && Valid(r) && Full(r) && r.delayed == s.delayed
            && id in r.tasks && r.tasks[id].state == st && r.tasks[id].priority == s.tasks[id].priority
            && r.tasks[id].maxAttempts == 0
            && r.queue == s.queue + (if st == Pending then [HeapKey(id, s.tasks[id].priority, s.order)] else [])
  {
    hide Valid, RestoreOne, KeepsPriorities, Step;
    var row := Row(s.tasks[id], st);
    ValidIds(s, id);
    StepIsValid(s, Event(Command.Restore([row]), 0));
    RestoredRow(s, row);
    RestoreStep(s, row);
    OwnPriority(s, row);
  }

  lemma ValidIds(s: State, id: Id)
    requires Valid(s) && id in s.tasks
    ensures s.tasks[id].id == id
  {
    CoreIds(s, id);
  }

  lemma StepIsValid(s: State, e: Event)
    requires Valid(s)
    ensures Valid(Step(s, e))
  {
    StepKeepsValid(s, e);
  }

  lemma RestoreStep(s: State, row: Task)
    requires Full(RestoreOne(s, row, 0))
    ensures Step(s, Event(Command.Restore([row]), 0)) == RestoreOne(s, row, 0)
  {
    hide RestoreOne;
    assert [row][1..] == [];
    assert RestoreAll(s, [row], 0) == RestoreAll(RestoreOne(s, row, 0), [], 0);
  }

  lemma OwnPriority(s: State, row: Task)
    requires row.id in s.tasks && row.priority == s.tasks[row.id].priority
    ensures KeepsPriorities(s, Command.Restore([row]))
  {}

  lemma RestoredRow(s: State, row: Task)
    ensures var r := RestoreOne(s, row, 0);
            && r.running == s.running && r.slots == s.slots && r.delayed == s.delayed
            && row.id in r.tasks
            && r.tasks[row.id] == (if row.state.Terminal() then row else Requeued(row, s.order, 0))
            && r.queue == s.queue + (if row.state.Terminal() then [] else [HeapKey(row.id, row.priority, s.order)])
  {}

  lemma OldOrder(s: State, k: HeapKey)
    requires Valid(s) && k in s.queue
    ensures k.order < s.order
  {
    assert k in Keys(s);
  }

  /** An entry above its task's priority: a new task of the entry's priority is
      overtaken by it. */
  lemma HighCase(s: State, k: HeapKey)
    requires Valid(s) && Full(s) && s.delayed == [] && k in s.queue && k.id in s.tasks
    requires k.priority > s.tasks[k.id].priority
    ensures CanOvertake(s)
  {
    hide Valid, Step, CanOvertake, Handle, KeepsPriorities;
    var e1 := Event(Command.Restore([Row(s.tasks[k.id], Pending)]), 0);
    RestoreInFull(s, k.id, Pending);
    var s1 := Step(s, e1);
    var c := NewId(s1);
    StartQueues(s1, c, k.priority);
    OldOrder(s1, k);
    var s2, w := Step(s1, StartOf(c, k.priority)), HeapKey(c, k.priority, s1.order);
    HighDrains(s1, s2, k, w);
    OvertakesLater(s1, StartOf(c, k.priority));
    OvertakesLater(s, e1);
  }

  lemma HighDrains(s1: State, s2: State, k: HeapKey, w: HeapKey)
    requires Valid(s2) && Full(s2) && s2.queue == s1.queue + [w] && k in s1.queue && forall x :: x in s1.queue ==>
        x.id != w.id
    requires k.id in s2.tasks && w.id in s2.tasks && s2.tasks[k.id].state.Pending? && s2.tasks[w.id].state.Pending?
    requires s2.tasks[k.id].priority < s2.tasks[w.id].priority && k.priority == w.priority && k.order < w.order
    ensures CanOvertake(s2)
  {
    hide Valid, CanOvertake;
    assert k in s2.queue && w in s2.queue;
    Drain(s2, k, w);
  }

  // ----- an entry below its task's priority ------------------------------------------------------

  /** The task of `k` is over, and all it left in the queue are entries below its priority. */
  predicate LowReady(s: State, k: HeapKey) {
    && Full(s) && s.delayed == [] && k in s.queue && k.id in s.tasks
    && s.tasks[k.id].state.Finished? && s.tasks[k.id].maxAttempts == 0
    && forall x :: x in s.queue && x.id == k.id ==> x.priority < s.tasks[k.id].priority
  }

  lemma RetryLater(s: State, id: Id, t: Task)
    requires id in s.tasks
    ensures var r := Retry(s, id, s.tasks[id], t, "", 1, 0);
            && r.queue == s.queue && r.slots == s.slots && r.running == Released(s.tasks[id], s.running)
            && id in r.tasks && r.tasks[id].state.Pending? && r.tasks[id].priority == t.priority
  {}

  lemma RescheduleInFull(s: State, id: Id)
    requires Valid(s) && Full(s) && id in s.tasks && s.tasks[id].state.Finished? && s.tasks[id].maxAttempts == 0
    ensures var e := Event(Command.Reschedule(id, "", 1), 0);
            var r := Step(s, e);
            && KeepsPriorities(s, e.cmd) && Valid(r) && Full(r) && r.queue == s.queue
            && id in r.tasks && r.tasks[id].state.Pending? && r.tasks[id].priority == s.tasks[id].priority
  {
    var e := Event(Command.Reschedule(id, "", 1), 0);
    StepKeepsValid(s, e);
    CoreIds(s, id);
    hide Valid, Core, Step, Handle, Retry, GiveUp;
    RescheduleForms(s, id, "", 1, 0);
    RetryLater(s, id, Tried(s.tasks[id], ""));
  }

  lemma LowFinish(s: State, k: HeapKey)
    requires Valid(s) && LowReady(s, k)
    ensures CanOvertake(s)
  {
    hide Valid, Step, CanOvertake, Handle, KeepsPriorities;
    var p := s.tasks[k.id].priority;
    var e1 := Event(Command.Reschedule(k.id, "", 1), 0);
    RescheduleInFull(s, k.id);
    var s1 := Step(s, e1);
    var c := NewId(s1);
    StartQueues(s1, c, p);
    OldOrder(s1, k);
    var s2, t := Step(s1, StartOf(c, p)), HeapKey(c, p, s1.order);
    LowDrains(s1, s2, t, k);
    OvertakesLater(s1, StartOf(c, p));
    OvertakesLater(s, e1);
  }

  lemma LowDrains(s1: State, s2: State, t: HeapKey, k: HeapKey)
    requires Valid(s2) && Full(s2) && s2.queue == s1.queue + [t] && k in s1.queue && forall x :: x in s1.queue ==>
        x.id != t.id
    requires k.id in s2.tasks && t.id in s2.tasks && s2.tasks[k.id].state.Pending? && s2.tasks[t.id].state.Pending?
    requires t.priority == s2.tasks[t.id].priority == s2.tasks[k.id].priority && k.order < t.order
    requires forall x :: x in s1.queue && x.id == k.id ==> x.priority < t.priority
    ensures CanOvertake(s2)
  {
    hide Valid, CanOvertake;
    assert t in s2.queue && k in s2.queue;
    Drain(s2, t, k);
  }

  /** Slots freed one by one until the marker `m` starts: what is left of the
      finished task's entries is below the marker. */
  lemma {:induction false} DrainMarker(s: State, m: HeapKey, k: HeapKey)
    requires Valid(s) && Full(s) && s.delayed == [] && m in s.queue && k in s.queue && !Stale(s, m) && Before(m, k)
    requires k.id in s.tasks && s.tasks[k.id].state.Finished? && s.tasks[k.id].maxAttempts == 0
    requires m.priority <= s.tasks[k.id].priority
    requires forall x :: x in s.queue && x.id == m.id ==> x == m
    requires forall x :: x in s.queue && x.id == k.id ==> x.order < m.order
    ensures CanOvertake(s)
    decreases |s.queue|
  {
    hide Core, Dispatch, Dispatched, CanOvertake, Handle, Step;
    var d := OneStarts(s, m);
    FreeOneIs(s);
    var r := Dispatch(Freed(s), 0);
    assert d.id != k.id;
    OneStartsTasks(s, d, k.id);
    BehindMarker(s, m, k, d);
    StepKeepsValid(s, FreeOne(s));
    if d.id == m.id {
      LeftBehind(s, m, k.id);
      LowFinish(r, k);
    } else {
      OneStartsTasks(s, d, m.id);
      DrainMarker(r, m, k);
    }
    OvertakesLater(s, FreeOne(s));
  }

  lemma BehindMarker(s: State, m: HeapKey, k: HeapKey, d: HeapKey)
    requires Core(Freed(s)) && Full(s) && Dispatched(Freed(s), 0) == [d] && d in s.queue && k in s.queue && Before(m, k)
    requires d.id == m.id ==> d == m
    requires d.id != m.id ==> Before(d, m)
    requires s.running + 1 == Freed(s).slots
    ensures k in Dispatch(Freed(s), 0).queue
  {
    hide Core, Dispatch, Dispatched;
    LaterStays(Freed(s), 0, d, k);
  }

  lemma LeftBehind(s: State, m: HeapKey, id: Id)
    requires Core(Freed(s)) && Dispatched(Freed(s), 0) == [m]
    requires forall x :: x in s.queue && x.id == id ==> x.order < m.order
    ensures forall x :: x in Dispatch(Freed(s), 0).queue && x.id == id ==> x.priority < m.priority
  {
    hide Core, Dispatch, Dispatched;
    DispatchOrder(Freed(s), 0);
    assert m in [m];
  }

  /** An entry below its task's priority: with the task's other entries used up
      and a retry delayed, a new task of its priority overtakes it. */
  lemma LowCase(s: State, k: HeapKey)
    requires Valid(s) && Full(s) && s.delayed == [] && k in s.queue && k.id in s.tasks
    requires k.priority < s.tasks[k.id].priority
    ensures CanOvertake(s)
  {
    hide Valid, Step, CanOvertake, Handle, KeepsPriorities;
    var e1 := Event(Command.Restore([Row(s.tasks[k.id], Finished)]), 0);
    RestoreInFull(s, k.id, Finished);
    var s1 := Step(s, e1);
    var c := NewId(s1);
    StartQueues(s1, c, k.priority + 1);
    var s2, m := Step(s1, StartOf(c, k.priority + 1)), HeapKey(c, k.priority + 1, s1.order);
    forall x | x in s1.queue ensures x.order < m.order { OldOrder(s1, x); }
    MarkerDrains(s1, s2, m, k);
    OvertakesLater(s1, StartOf(c, k.priority + 1));
    OvertakesLater(s, e1);
  }

  lemma MarkerDrains(s1: State, s2: State, m: HeapKey, k: HeapKey)
    requires Valid(s2) && Full(s2) && s2.delayed == [] && s2.queue == s1.queue + [m] && k in s1.queue
    requires forall x :: x in s1.queue ==> x.id != m.id && x.order < m.order
    requires m.id in s2.tasks && s2.tasks[m.id].state.Pending? && k.id in s2.tasks && s2.tasks[k.id].state.Finished?
    requires s2.tasks[k.id].maxAttempts == 0 && m.priority == k.priority + 1 <= s2.tasks[k.id].priority
    ensures CanOvertake(s2)
  {
    hide Valid, CanOvertake;
    assert m in s2.queue && k in s2.queue;
    DrainMarker(s2, m, k);
  }

  // ----- from any state ----------------------------------------------------------------------------

  lemma {:induction false} Latest(d: seq<Delayed>) returns (now: int)
    ensures NotReady(d, now) == []
  {
    if d == [] {
      now := 0;
    } else {
      var later := Latest(d[1..]);
      now := if later < d[0].at then d[0].at else later;
      AllReady(d[1..], later, now);
    }
  }

  lemma {:induction false} AllReady(d: seq<Delayed>, now: int, later: int)
    requires NotReady(d, now) == [] && now <= later
    ensures NotReady(d, later) == []
  {
    if d != [] { AllReady(d[1..], now, later); }
  }

  /** In a full kernel: bring every entry into the queue. */
  lemma FullCase(s: State, k: HeapKey)
    requires Valid(s) && Full(s) && k in Keys(s) && k.id in s.tasks && k.priority != s.tasks[k.id].priority
    ensures CanOvertake(s)
  {
    hide Core, CanOvertake, Keys;
    var now := Latest(s.delayed);
    var e := Event(Command.Tick, now);
    var r := MoveDelayed(s, now);
    StepKeepsValid(s, e);
    MoveDelayedKeepsKeys(s, now);
    assert Step(s, e) == r && KeepsPriorities(s, e.cmd);
    hide Step, KeepsPriorities, MoveDelayed;
    InTheQueue(r, k);
    MoveDelayedTasks(s, now);
    if k.priority > r.tasks[k.id].priority { HighCase(r, k); } else { LowCase(r, k); }
    OvertakesLater(s, e);
  }

  lemma InTheQueue(s: State, k: HeapKey)
    requires s.delayed == [] && k in Keys(s)
    ensures k in s.queue
  {}

  /** In a kernel with free slots and so nothing queued: fill one slot and close the others. */
  lemma FreeCase(s: State, k: HeapKey)
    requires Valid(s) && !Full(s) && k in Keys(s) && k.id in s.tasks && k.priority != s.tasks[k.id].priority
    ensures CanOvertake(s)
  {
    hide Core, CanOvertake, Keys;
    var e := Event(Command.SetSlots(1), 0);
    var r := s.(slots := 1);
    StepKeepsValid(s, e);
    assert Step(s, e) == r && KeepsPriorities(s, e.cmd);
    assert Keys(r) == Keys(s) by { SameEntriesSameKeys(s, r); }
    hide Step, KeepsPriorities;
    if Full(r) { FullCase(r, k); } else { EmptyCase(r, k); }
    OvertakesLater(s, e);
  }

  lemma EmptyCase(s: State, k: HeapKey)
    requires Valid(s) && s.slots == 1 && s.running == 0 && k in Keys(s) && k.id in s.tasks &&
        k.priority != s.tasks[k.id].priority
    ensures CanOvertake(s)
  {
    hide Core, CanOvertake, Keys;
    var c := NewId(s);
    StepKeepsValid(s, StartOf(c, 0));
    FillerStarts(s, c);
    var r := Step(s, StartOf(c, 0));
    hide Step, Valid;
    FullCase(r, k);
    OvertakesLater(s, StartOf(c, 0));
  }

  lemma FillerEdit(s: State, c: Id)
    requires s.slots == 1 && s.running == 0 && s.queue == [] && c !in s.tasks
    ensures var f := Handle(s, StartOf(c, 0)).s;
            && f.queue == [HeapKey(c, 0, s.order)] && f.tasks == s.tasks[c := Fresh(c, 0, s.order)]
            && f.delayed == s.delayed && f.running == 0 && f.slots == 1
            && Handle(s, StartOf(c, 0)).ThenDispatch?
  {}

  lemma FillerStarts(s: State, c: Id)
    requires Core(s) && s.slots == 1 && s.running == 0 && s.queue == [] && c !in s.tasks
    ensures var r := Step(s, StartOf(c, 0));
            && Full(r) && Keys(r) == Keys(s) && KeepsPriorities(s, StartOf(c, 0).cmd)
            && forall id :: id in s.tasks ==> id in r.tasks && r.tasks[id] == s.tasks[id]
  {
    var f := Handle(s, StartOf(c, 0)).s;
    FillerEdit(s, c);
    hide Handle, Core, Dispatch;
    DispatchSolo(f);
    assert Top(f.queue) == 0 && Without(f.queue, 0) == [];
  }

  lemma StaleOvertakes(s: State, k: HeapKey)
    requires Valid(s) && k in Keys(s) && k.id in s.tasks && k.priority != s.tasks[k.id].priority
    ensures CanOvertake(s)
  {
    hide Valid, Keys, CanOvertake;
    if Full(s) { FullCase(s, k); } else { FreeCase(s, k); }
  }

  // ----- reachable states ----------------------------------------------------------------------------

  ghost predicate Registered(s: State) { forall k :: k in Keys(s) ==> k.id in s.tasks }

  lemma HandleRegistered(s: State, e: Event)
    requires Core(s) && Registered(s)
    ensures Registered(Handle(s, e).s)
  {
    hide Core, Keys, CurrentEdit, HandleStart, RestoreAll, RestoresTo;
    if e.cmd.Restore? {
      RestoreAllRestores(s, e.cmd.tasks, e.now);
      RestoredRegistered(s, e.cmd.tasks, RestoreAll(s, e.cmd.tasks, e.now));
    } else {
      HandleKeysCurrent(s, e);
      EditedRegistered(s, Handle(s, e).s);
    }
  }

  lemma RestoredRegistered(s: State, ts: seq<Task>, r: State)
    requires Registered(s) && RestoresTo(s, ts, r)
    ensures Registered(r)
  {
    hide Keys, LastRow;
    forall k | k in Keys(r) ensures k.id in r.tasks {
      if k !in Keys(s) {
        var j :| Pushes(ts, j, k);
        PushedIsNamed(ts, j, k);
      }
    }
  }

  lemma EditedRegistered(s: State, r: State)
    requires Registered(s) && CurrentEdit(s, r)
    ensures Registered(r)
  {
    hide Keys;
  }

  lemma DispatchRegistered(s: State, now: int)
    requires Core(s) && Registered(s)
    ensures Registered(Dispatch(s, now))
  {
    hide Core, Keys, Dispatch;
    DispatchTasks(s, now);
    DispatchKeepsEntries(s, now);
  }

  lemma {:induction false} RunRegistered(s: State, events: seq<Event>)
    requires Valid(s) && Registered(s)
    ensures Valid(Run(s, events)) && Registered(Run(s, events))
    decreases |events|
  {
    hide Core, Registered, Handle, Dispatch;
    if events != [] {
      var e := events[0];
      HandleRegistered(s, e);
      HandleKeepsCore(s, e);
      if Handle(s, e).ThenDispatch? { DispatchRegistered(Handle(s, e).s, e.now); }
      StepKeepsValid(s, e);
      RunRegistered(Step(s, e), events[1..]);
    }
  }

  lemma InitRegistered(slots: nat)
    ensures Registered(Init(slots))
  {
    assert Keys(Init(slots)) == multiset{};
  }

  /** After any run: some continuation that keeps all priorities dispatches out
      of order exactly when some entry does not carry its task's priority. */
  lemma OrderExactlyWhenCurrent(slots: nat, events: seq<Event>)
    ensures var s := Run(Init(slots), events); KeysCurrent(s) <==> !CanOvertake(s)
  {
    hide Run, CanOvertake, Valid, Keys;
    InitValid(slots);
    InitRegistered(slots);
    RunRegistered(Init(slots), events);
    var s := Run(Init(slots), events);
    if KeysCurrent(s) {
      CurrentNeverOvertakes(s);
    } else {
      var k :| k in Keys(s) && !(k.id in s.tasks && k.priority == s.tasks[k.id].priority);
      StaleOvertakes(s, k);
    }
  }
}
