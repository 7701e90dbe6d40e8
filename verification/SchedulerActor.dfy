/** The actor itself: it updates its fields in place, as the kernel does, and
    each handler is proved to be the step `Kernel` describes.  The invariants
    proved there therefore hold of the object after every message. */
module Actor {
  import opened Wrappers
  import opened Kernel
  import opened KernelInvariants
  import opened KernelRuns

  class SchedulerActor {
    var tasks: map<Id, Task>
    var queue: seq<HeapKey>
    var delayed: seq<Delayed>
    var slots: nat
    var running: nat
    var order: nat
    var orderIds: seq<Id>
    var index: map<Id, nat>
    var snapshot: seq<Task>
    var calls: seq<HookCall>

    function View(): State
      reads this
    {
      State(tasks, queue, delayed, slots, running, order, orderIds, index, snapshot, calls)
    }

    constructor (slots: nat)
      ensures View() == Init(slots) && Valid(View()) && Drift(View()) == 0
    {
      tasks, queue, delayed := map[], [], [];
      this.slots, running, order := Max(slots, 1), 0, 0;
      orderIds, index, snapshot, calls := [], map[], [], [];
      InitValid(slots);
    }

    method NextOrder() returns (o: nat)
      modifies this`order
      ensures o == old(order) && order == old(order) + 1
    {
      o := order;
      order := order + 1;
    }

    /** A new id gets the next row; a known id is left alone. */
    method RegisterRow(t: Task)
      modifies this
      ensures View() == Register(old(View()), t)
    {
      if t.id in index { return; }
      var pos := |orderIds|;
      orderIds := orderIds + [t.id];
      index := index[t.id := pos];
      snapshot := snapshot + [t];
    }

    method SyncRow(id: Id)
      modifies this
      ensures View() == Sync(old(View()), id)
    {
      if id !in index { return; }
      var pos := index[id];
      if id !in tasks { return; }
      if pos < |snapshot| {
        snapshot := snapshot[pos := tasks[id]];
      }
    }

    method UpsertRow(id: Id)
      modifies this
      ensures View() == Upsert(old(View()), id)
    {
      if id in index {
        SyncRow(id);
      } else if id in tasks {
        RegisterRow(tasks[id]);
      }
    }

    /** Keep the entries still waiting, and push those that are due. */
    method FlushDelayed(now: int)
      modifies this
      ensures View() == MoveDelayed(old(View()), now)
    {
      var ready: seq<HeapKey>, kept: seq<Delayed> := [], [];
      var i := 0;
      while i < |delayed|
        invariant 0 <= i <= |delayed| && View() == old(View())
        invariant ready + Ready(delayed[i..], now) == Ready(delayed, now)
        invariant kept + NotReady(delayed[i..], now) == NotReady(delayed, now)
      {
        assert delayed[i..][1..] == delayed[i + 1..];
        if delayed[i].at <= now {
          ready := ready + [delayed[i].key];
        } else {
          kept := kept + [delayed[i]];
        }
        i := i + 1;
      }
      delayed := kept;
      queue := queue + ready;
    }

    /** Pop the top entry, and start its task unless the entry is stale. */
    method StartTop(now: int)
      requires queue != []
      modifies this
      ensures View() == DispatchOne(old(View()), now)
    {
      hide Sync, Top, Without, Max;
      var i := Top(queue);
      var key := queue[i];
      queue := Without(queue, i);
      if key.id in tasks && tasks[key.id].state.Pending? {
        var task := tasks[key.id];
        var resume := task.resume;
        task := task.(state := Running, attempts := Max(task.attempts, 1), lastStartedMs := Some(now));
        running := running + 1;
        task := task.(resume := false);
        tasks := tasks[key.id := task];
        calls := calls + [if resume then OnResume(task, task.checkpoint) else OnStart(task)];
        SyncRow(task.id);
      }
    }

    /** Fill the free slots from the queue. */
    method FillSlots(now: int)
      modifies this
      ensures View() == Dispatch(old(View()), now)
    {
      hide DispatchOne;
      while running < slots && queue != []
        invariant Dispatch(View(), now) == Dispatch(old(View()), now)
        decreases |queue|
      {
        StartTop(now);
      }
    }

    // ----- handlers: each is one `Step` ------------------------------------------

    method HandleStart(id: Id, priority: nat, info: Payload, maxAttempts: nat, now: int)
      modifies this
      ensures View() == Step(old(View()), Event(Command.Start(id, priority, info, maxAttempts), now))
      ensures old(Valid(View())) ==> Valid(View())
    {
      hide Valid, Dispatch, Sync, Upsert, RestoreAll, MoveDelayed;
      ghost var before := View();
      if id !in tasks {
        var o := NextOrder();
        tasks := tasks[id := Task(id, priority, info, Pending, None, None, None, 0, maxAttempts, now, None, None, o,
            false)];
        UpsertRow(id);
        queue := queue + [HeapKey(id, priority, o)];
        FillSlots(now);
      }
      Kept(before, Event(Command.Start(id, priority, info, maxAttempts), now));
    }

    method HandlePause(id: Id, checkpoint: Option<Payload>, now: int)
      modifies this
      ensures View() == Step(old(View()), Event(Command.Pause(id, checkpoint), now))
      ensures old(Valid(View())) ==> Valid(View())
    {
      hide Valid, Dispatch, Sync, Upsert, RestoreAll, MoveDelayed;
      ghost var before := View();
      if id in tasks {
        var task := tasks[id];
        match task.state {
          case Running =>
            if checkpoint.Some? { task := task.(checkpoint := checkpoint); }
            task := task.(state := Paused);
            tasks := tasks[id := task];
            running := SaturatingDec(running);
            calls := calls + [OnPause(task, task.checkpoint)];
            SyncRow(id);
            FillSlots(now);
          case Pending =>
            if checkpoint.Some? { task := task.(checkpoint := checkpoint); }
            task := task.(state := Paused);
            tasks := tasks[id := task];
            SyncRow(id);
          case _ =>
        }
      }
      Kept(before, Event(Command.Pause(id, checkpoint), now));
    }

    method HandleResume(id: Id, checkpoint: Option<Payload>, now: int)
      modifies this
      ensures View() == Step(old(View()), Event(Command.Resume(id, checkpoint), now))
      ensures old(Valid(View())) ==> Valid(View())
    {
      hide Valid, Dispatch, Sync, Upsert, RestoreAll, MoveDelayed;
      ghost var before := View();
      if id in tasks && tasks[id].state.Paused? {
        var task := tasks[id].(state := Pending, resume := true);
        if checkpoint.Some? { task := task.(checkpoint := checkpoint); }
        tasks := tasks[id := task];
        var o := NextOrder();
        queue := queue + [HeapKey(task.id, task.priority, o)];
        SyncRow(id);
        FillSlots(now);
      }
      Kept(before, Event(Command.Resume(id, checkpoint), now));
    }

    method HandleKill(id: Id, reason: Option<string>, now: int)
      modifies this
      ensures View() == Step(old(View()), Event(Command.Kill(id, reason), now))
      ensures old(Valid(View())) ==> Valid(View())
    {
      hide Valid, Dispatch, Sync, Upsert, RestoreAll, MoveDelayed;
      ghost var before := View();
      if id in tasks && !tasks[id].state.Terminal() {
        var wasRunning := tasks[id].state.Running?;
        var task := tasks[id].(state := Killed, error := reason, finishedMs := Some(now));
        tasks := tasks[id := task];
        if wasRunning { running := SaturatingDec(running); }
        calls := calls + [OnKill(task, reason)];
        SyncRow(id);
        FillSlots(now);
      }
      Kept(before, Event(Command.Kill(id, reason), now));
    }

    method HandleFinish(id: Id, result: Option<Payload>, checkpoint: Option<Payload>, now: int)
      modifies this
      ensures View() == Step(old(View()), Event(Command.Finish(id, result, checkpoint), now))
      ensures old(Valid(View())) ==> Valid(View())
    {
      hide Valid, Dispatch, Sync, Upsert, RestoreAll, MoveDelayed;
      ghost var before := View();
      if id in tasks && tasks[id].state.Running? {
        var task := tasks[id].(state := Finished, finishedMs := Some(now));
        if result.Some? { task := task.(result := result); }
        if checkpoint.Some? { task := task.(checkpoint := checkpoint); }
        tasks := tasks[id := task];
        running := SaturatingDec(running);
        calls := calls + [OnFinish(task)];
        SyncRow(id);
        FillSlots(now);
      }
      Kept(before, Event(Command.Finish(id, result, checkpoint), now));
    }

    method HandleReschedule(id: Id, error: string, delayMs: nat, now: int)
      modifies this
      ensures View() == Step(old(View()), Event(Command.Reschedule(id, error, delayMs), now))
      ensures old(Valid(View())) ==> Valid(View())
    {
      hide Valid, Dispatch, Sync, Upsert, Handle, Step;
      ghost var before := View();
      RescheduleForms(before, id, error, delayMs, now);
      if id in tasks {
        var task := tasks[id];
        task := task.(attempts := task.attempts + 1, error := Some(error));
        var wasRunning := task.state.Running?;
        if task.maxAttempts > 0 && task.attempts > task.maxAttempts {
          task := task.(state := Killed, finishedMs := Some(now));
          tasks := tasks[id := task];
          if wasRunning { running := SaturatingDec(running); }
          calls := calls + [OnKill(task, Some(error))];
          SyncRow(id);
          assert View() == GiveUp(before, id, before.tasks[id], Tried(before.tasks[id], error), error, now);
          hide GiveUp;
          FillSlots(now);
        } else {
          if wasRunning { running := SaturatingDec(running); }
          task := task.(state := Pending, resume := false);
          tasks := tasks[id := task];
          var o := NextOrder();
          var key := HeapKey(id, task.priority, o);
          if delayMs > 0 {
            delayed := delayed + [Delayed(now + delayMs, key)];
          } else {
            queue := queue + [key];
          }
          calls := calls + [OnReschedule(task, error)];
          SyncRow(id);
          assert View() == Retry(before, id, before.tasks[id], Tried(before.tasks[id], error), error, delayMs, now);
          hide Retry;
          FillSlots(now);
        }
      }
      Kept(before, Event(Command.Reschedule(id, error, delayMs), now));
    }

    method HandleCheckpoint(id: Id, value: Payload, now: int)
      modifies this
      ensures View() == Step(old(View()), Event(Command.Checkpoint(id, value), now))
      ensures old(Valid(View())) ==> Valid(View())
    {
      hide Valid, Dispatch, Sync, Upsert, RestoreAll, MoveDelayed;
      ghost var before := View();
      if id in tasks {
        tasks := tasks[id := tasks[id].(checkpoint := Some(value))];
        SyncRow(id);
      }
      Kept(before, Event(Command.Checkpoint(id, value), now));
    }

    method HandleUpdate(id: Id, info: Payload, now: int)
      modifies this
      ensures View() == Step(old(View()), Event(Command.Update(id, info), now))
      ensures old(Valid(View())) ==> Valid(View())
    {
      hide Valid, Dispatch, Sync, Upsert, RestoreAll, MoveDelayed;
      ghost var before := View();
      if id in tasks {
        tasks := tasks[id := tasks[id].(info := info)];
        SyncRow(id);
      }
      Kept(before, Event(Command.Update(id, info), now));
    }

    /** Put one row of a saved registry back. */
    method RestoreRow(t: Task, now: int)
      modifies this
      ensures View() == RestoreOne(old(View()), t, now)
    {
      var id := t.id;
      if t.state.Finished? || t.state.Killed? {
        tasks := tasks[id := t];
        UpsertRow(id);
      } else {
        var t' := t.(state := Pending, resume := Interrupted(t));
        if t'.createdMs == 0 { t' := t'.(createdMs := now); }
        var o := NextOrder();
        t' := t'.(order := o);
        tasks := tasks[id := t'];
        UpsertRow(id);
        queue := queue + [HeapKey(t'.id, t'.priority, o)];
      }
    }

    method HandleRestore(saved: seq<Task>, now: int)
      modifies this
      ensures View() == Step(old(View()), Event(Command.Restore(saved), now))
      ensures old(Valid(View())) ==> Valid(View())
    {
      hide Valid, Dispatch, Sync, Upsert, MoveDelayed;
      ghost var before := View();
      for i := 0 to |saved|
        invariant RestoreAll(View(), saved[i..], now) == RestoreAll(before, saved, now)
      {
        assert saved[i..][1..] == saved[i + 1..];
        RestoreRow(saved[i], now);
      }
      FillSlots(now);
      Kept(before, Event(Command.Restore(saved), now));
    }

    method HandleSetSlots(n: nat, now: int)
      modifies this
      ensures View() == Step(old(View()), Event(Command.SetSlots(n), now))
      ensures old(Valid(View())) ==> Valid(View())
    {
      hide Valid, Dispatch, Sync, Upsert, RestoreAll, MoveDelayed;
      ghost var before := View();
      slots := Max(n, 1);
      FillSlots(now);
      Kept(before, Event(Command.SetSlots(n), now));
    }

    method HandleTick(now: int)
      modifies this
      ensures View() == Step(old(View()), Event(Command.Tick, now))
      ensures old(Valid(View())) ==> Valid(View())
    {
      hide Valid, Dispatch, Sync, Upsert, RestoreAll, MoveDelayed;
      ghost var before := View();
      FlushDelayed(now);
      FillSlots(now);
      Kept(before, Event(Command.Tick, now));
    }

    /** Per-state totals, read off the snapshot alone. */
    method Counts() returns (c: seq<nat>)
      requires Valid(View())
      ensures c == [|IdsIn(tasks, Pending)|, |IdsIn(tasks, Running)|, |IdsIn(tasks, Paused)|,
                    |IdsIn(tasks, Finished)|, |IdsIn(tasks, Killed)|]
    {
      ghost var valid := View();
      hide Valid, CountRows, IdsIn;
      c := [0, 0, 0, 0, 0];
      TallyNone();
      for i := 0 to |snapshot|
        invariant c == Tally(snapshot[..i])
      {
        TallyNext(snapshot, i);
        var slot := Slot(snapshot[i].state);
        c := c[slot := c[slot] + 1];
      }
      assert snapshot[..|snapshot|] == snapshot;
      TallyIsRegistry(valid);
    }
  }

  // Where a state's total stands in the array of five.
  function Slot(st: TaskState): (i: nat)
    ensures i < 5
  {
    match st
    case Pending => 0
    case Running => 1
    case Paused => 2
    case Finished => 3
    case Killed => 4
  }

  function Tally(rows: seq<Task>): seq<nat> {
    [CountRows(rows, Pending), CountRows(rows, Running), CountRows(rows, Paused),
     CountRows(rows, Finished), CountRows(rows, Killed)]
  }

  lemma TallyNone()
    ensures Tally([]) == [0, 0, 0, 0, 0]
  {}

  lemma TallyNext(rows: seq<Task>, i: nat)
    requires i < |rows|
    ensures var slot := Slot(rows[i].state);
            Tally(rows[..i + 1]) == Tally(rows[..i])[slot := Tally(rows[..i])[slot] + 1]
  {
    assert rows[..i + 1][..i] == rows[..i];
  }

  lemma TallyIsRegistry(s: State)
    requires Valid(s)
    ensures Tally(s.snapshot) == [|IdsIn(s.tasks, Pending)|, |IdsIn(s.tasks, Running)|, |IdsIn(s.tasks, Paused)|,
                                  |IdsIn(s.tasks, Finished)|, |IdsIn(s.tasks, Killed)|]
  {
    CountsAgree(s, Pending);
    CountsAgree(s, Running);
    CountsAgree(s, Paused);
    CountsAgree(s, Finished);
    CountsAgree(s, Killed);
  }

  lemma Kept(s: State, e: Event)
    ensures Valid(s) ==> Valid(Step(s, e))
  {
    if Valid(s) {
      StepKeepsValid(s, e);
    }
  }
}
