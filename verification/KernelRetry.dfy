/** The retry cap, over whole runs: how often a task can be started. */
module KernelRetry {
  import opened Wrappers
  import opened Kernel
  import opened KernelInvariants
  import opened KernelRuns
  import opened KernelPriority

  /** How often the first-dispatch hook was called for a task. */
  function StartsOf(calls: seq<HookCall>, id: Id): nat {
    if calls == [] then 0
    else StartsOf(calls[..|calls| - 1], id) + (if Starts(calls[|calls| - 1], id) then 1 else 0)
  }

  predicate Starts(c: HookCall, id: Id) { c.OnStart? && c.task.id == id }

  lemma StartsOfSnoc(calls: seq<HookCall>, c: HookCall, id: Id)
    ensures StartsOf(calls + [c], id) == StartsOf(calls, id) + (if Starts(c, id) then 1 else 0)
  {
    assert (calls + [c])[..|calls|] == calls;
  }

  function Sub(a: nat, b: nat): nat { if a < b then 0 else a - b }

  /** How many more starts the cap leaves a capped task.  A pending task that
      will be started, not resumed, has its next start still ahead of it. */
  function Budget(t: Task): nat {
    if t.state.Pending? && !t.resume then 1 + Sub(t.maxAttempts, Max(t.attempts, 1))
    else Sub(t.maxAttempts, t.attempts)
  }

  ghost predicate RestoresId(cmd: Command, id: Id) { cmd.Restore? && id in Names(cmd.tasks) }

  /** Starts so far and starts to come. */
  function Total(s: State, id: Id): nat
    requires id in s.tasks
  {
    StartsOf(s.calls, id) + Budget(s.tasks[id])
  }

  /** Only a killed task is past its cap. */
  predicate WithinCap(t: Task) { t.state.Killed? || t.attempts <= t.maxAttempts }

  /** What a step may do to a capped task. */
  ghost predicate Spends(s: State, s': State, id: Id)
    requires id in s.tasks
  {
    && id in s'.tasks && s'.tasks[id].maxAttempts == s.tasks[id].maxAttempts
    && Total(s', id) <= Total(s, id)
    && (WithinCap(s.tasks[id]) ==> WithinCap(s'.tasks[id]))
  }

  lemma TurnSpends(s: State, id: Id, now: int)
    requires Core(s) && s.queue != [] && id in s.tasks && s.tasks[id].maxAttempts > 0
    ensures Spends(s, DispatchOne(s, now), id)
  {
    hide Core, DispatchOne;
    var key := s.queue[Top(s.queue)];
    if Stale(s, key) {
      TurnSkips(s, now);
    } else {
      TurnStarts(s, now);
      CoreIds(s, key.id);
      StartsOfSnoc(s.calls, StartCall(s.tasks[key.id], now), id);
    }
  }

  lemma {:induction false} DispatchSpends(s: State, id: Id, now: int)
    requires Core(s) && id in s.tasks && s.tasks[id].maxAttempts > 0
    ensures Spends(s, Dispatch(s, now), id)
    decreases |s.queue|
  {
    hide Core, DispatchOne, Total;
    if s.running < s.slots && s.queue != [] {
      assert Core(DispatchOne(s, now)) by { DispatchOneKeepsCore(s, now); }
      TurnSpends(s, id, now);
      DispatchSpends(DispatchOne(s, now), id, now);
    }
  }

  /** An edit that makes no start call, and leaves a task no more starts than it had. */
  lemma QuietSpends(s: State, s': State, id: Id)
    requires id in s.tasks && id in s'.tasks && s'.tasks[id].maxAttempts == s.tasks[id].maxAttempts
    requires s'.calls == s.calls || (exists c :: s'.calls == s.calls + [c] && !Starts(c, id))
    requires Budget(s'.tasks[id]) <= Budget(s.tasks[id])
    requires WithinCap(s.tasks[id]) ==> WithinCap(s'.tasks[id])
    ensures Spends(s, s', id)
  {
    if s'.calls != s.calls {
      var c :| s'.calls == s.calls + [c] && !Starts(c, id);
      StartsOfSnoc(s.calls, c, id);
    }
  }

  lemma {:induction false} RestoreOthers(s: State, ts: seq<Task>, now: int, id: Id)
    requires id in s.tasks && id !in Names(ts)
    ensures var r := RestoreAll(s, ts, now); id in r.tasks && r.tasks[id] == s.tasks[id] && r.calls == s.calls
    decreases |ts|
  {
    if ts != [] {
      NamesCons(ts);
      RestoreOthers(RestoreOne(s, ts[0], now), ts[1..], now, id);
    }
  }

  /** The part of a state the cap is about. */
  ghost predicate Edit1(s: State, s': State, id: Id)
    requires id in s.tasks
  {
    && id in s'.tasks && s'.tasks[id].maxAttempts == s.tasks[id].maxAttempts
    && Budget(s'.tasks[id]) <= Budget(s.tasks[id])
    && (WithinCap(s.tasks[id]) ==> WithinCap(s'.tasks[id]))
    && (s'.calls == s.calls
        || (|s'.calls| == |s.calls| + 1 && s'.calls == s.calls + [s'.calls[|s.calls|]] &&
            !Starts(s'.calls[|s.calls|], id)))
  }

  lemma PutIs(s: State, id: Id, t: Task)
    ensures Put(s, id, t).tasks == s.tasks[id := t] && Put(s, id, t).calls == s.calls
  {}

  /** A reported failure: one attempt more, and death past the cap. */
  lemma RescheduleEdit1(s: State, id': Id, error: string, delayMs: nat, now: int, id: Id)
    requires id in s.tasks && s.tasks[id].maxAttempts > 0
    ensures Edit1(s, HandleReschedule(s, id', error, delayMs, now).s, id)
  {
    hide Put;
    if id' in s.tasks {
      var t0 := s.tasks[id'];
      var t := t0.(attempts := t0.attempts + 1, error := Some(error));
      var t1 := t.(state := Killed, finishedMs := Some(now));
      var t2 := t.(state := Pending, resume := false);
      var key := HeapKey(id', t.priority, s.order);
      PutIs(s.(running := Released(t0, s.running), calls := s.calls + [OnKill(t1, Some(error))]), id', t1);
      PutIs(s.(running := Released(t0, s.running), order := s.order + 1,
               queue := if delayMs > 0 then s.queue else s.queue + [key],
               delayed := if delayMs > 0 then s.delayed + [Delayed(now + delayMs, key)] else s.delayed,
               calls := s.calls + [OnReschedule(t2, error)]), id', t2);
    }
  }

  lemma PauseResumeEdit1(s: State, e: Event, id: Id)
    requires id in s.tasks && s.tasks[id].maxAttempts > 0 && (e.cmd.Pause? || e.cmd.Resume?)
    ensures Edit1(s, Handle(s, e).s, id)
  {}

  lemma EndEdit1(s: State, e: Event, id: Id)
    requires id in s.tasks && s.tasks[id].maxAttempts > 0 && (e.cmd.Finish? || e.cmd.Kill?)
    ensures Edit1(s, Handle(s, e).s, id)
  {}

  lemma OtherEdit1(s: State, e: Event, id: Id)
    requires id in s.tasks && s.tasks[id].maxAttempts > 0
    requires e.cmd.Start? || e.cmd.Checkpoint? || e.cmd.Update? || e.cmd.SetSlots? || e.cmd.Tick?
    ensures Edit1(s, Handle(s, e).s, id)
  {
    hide Ready, NotReady;
  }

  lemma HandleEdit1(s: State, e: Event, id: Id)
    requires id in s.tasks && s.tasks[id].maxAttempts > 0 && !e.cmd.Restore?
    ensures Edit1(s, Handle(s, e).s, id)
  {
    hide Edit1, HandleReschedule, Put, Budget;
    match e.cmd
    case Reschedule(id', error, delayMs) => RescheduleEdit1(s, id', error, delayMs, e.now, id);
    case Pause(_, _) => PauseResumeEdit1(s, e, id);
    case Resume(_, _) => PauseResumeEdit1(s, e, id);
    case Finish(_, _, _) => EndEdit1(s, e, id);
    case Kill(_, _) => EndEdit1(s, e, id);
    case _ => OtherEdit1(s, e, id);
  }

  lemma EditSpends(s: State, e: Event, id: Id)
    requires Core(s) && id in s.tasks && s.tasks[id].maxAttempts > 0 && !RestoresId(e.cmd, id)
    ensures Spends(s, Handle(s, e).s, id)
  {
    hide Core, Handle, RestoreAll, Spends, Budget, WithinCap;
    if e.cmd.Restore? {
      RestoreOthers(s, e.cmd.tasks, e.now, id);
      HandleRestoreIs(s, e);
    } else {
      HandleEdit1(s, e, id);
    }
    QuietSpends(s, Handle(s, e).s, id);
  }

  lemma HandleRestoreIs(s: State, e: Event)
    requires e.cmd.Restore?
    ensures Handle(s, e) == ThenDispatch(RestoreAll(s, e.cmd.tasks, e.now))
  {}

  /** One step spends from the budget: what it starts, it cannot start again. */
  lemma StepSpends(s: State, e: Event, id: Id)
    requires Valid(s) && id in s.tasks && s.tasks[id].maxAttempts > 0 && !RestoresId(e.cmd, id)
    ensures Spends(s, Step(s, e), id)
  {
    hide Core, Handle, Dispatch, Total, WithinCap, RestoresId, Idle;
    EditSpends(s, e, id);
    HandleKeepsCore(s, e);
    DispatchSpends(Handle(s, e).s, id, e.now);
  }

  // ----- whole runs ----------------------------------------------------------------

  ghost predicate NeverRestores(events: seq<Event>, id: Id) {
    forall i :: 0 <= i < |events| ==> !RestoresId(events[i].cmd, id)
  }

  /** From any valid state, in any order of pause, resume, retry, kill and tick:
      a capped task is started at most as often as its budget allows. */
  lemma {:induction false} RunSpends(s: State, events: seq<Event>, id: Id)
    requires Valid(s) && id in s.tasks && s.tasks[id].maxAttempts > 0 && NeverRestores(events, id)
    ensures Spends(s, Run(s, events), id)
    decreases |events|
  {
    hide Valid, Step, Total, WithinCap, RestoresId;
    if events != [] {
      StepSpends(s, events[0], id);
      StepKeepsValid(s, events[0]);
      RunSpends(Step(s, events[0]), events[1..], id);
    }
  }

  /** What holds of one id from the initial state on: unknown ids were never
      started, and a capped task has no more starts, past and future, than its cap. */
  ghost predicate Capped(s: State, id: Id) {
    if id in s.tasks then s.tasks[id].maxAttempts > 0 ==>
        Total(s, id) <= s.tasks[id].maxAttempts && WithinCap(s.tasks[id])
    else StartsOf(s.calls, id) == 0
  }

  lemma UnknownUnstarted(s: State, e: Event, id: Id)
    requires Core(s) && id !in s.tasks && !RestoresId(e.cmd, id)
    ensures var r := Handle(s, e).s;
            && StartsOf(r.calls, id) == StartsOf(s.calls, id)
            && (id in r.tasks ==> r.tasks[id].state.Pending? && r.tasks[id].attempts == 0 && !r.tasks[id].resume)
  {
    hide Core;
    UnknownCalls(s, e);
    var r := Handle(s, e).s;
    if r.calls != s.calls {
      StartsOfSnoc(s.calls, r.calls[|s.calls|], id);
    }
    UnknownTasks(s, e, id);
  }

  lemma UnknownCalls(s: State, e: Event)
    ensures var r := Handle(s, e).s;
            r.calls == s.calls
            || (|r.calls| == |s.calls| + 1 && r.calls == s.calls + [r.calls[|s.calls|]] && !r.calls[|s.calls|].OnStart?)
  {
    hide RestoreAll, MoveDelayed, HandleReschedule;
    match e.cmd
    case Restore(ts) => RestoreCalls(s, ts, e.now);
    case Reschedule(id, error, delayMs) => RescheduleCalls(s, id, error, delayMs, e.now);
    case Tick => MoveDelayedCalls(s, e.now);
    case _ =>
  }

  lemma MoveDelayedCalls(s: State, now: int)
    ensures MoveDelayed(s, now).calls == s.calls
  {}

  lemma RescheduleCalls(s: State, id: Id, error: string, delayMs: nat, now: int)
    ensures var r := HandleReschedule(s, id, error, delayMs, now).s;
            r.calls == s.calls
            || (|r.calls| == |s.calls| + 1 && r.calls == s.calls + [r.calls[|s.calls|]] && !r.calls[|s.calls|].OnStart?)
  {}

  lemma {:induction false} RestoreCalls(s: State, ts: seq<Task>, now: int)
    ensures RestoreAll(s, ts, now).calls == s.calls
    decreases |ts|
  {
    if ts != [] { RestoreCalls(RestoreOne(s, ts[0], now), ts[1..], now); }
  }

  lemma {:induction false} RestoreUnknown(s: State, ts: seq<Task>, now: int, id: Id)
    requires id !in s.tasks && id !in Names(ts)
    ensures id !in RestoreAll(s, ts, now).tasks
    decreases |ts|
  {
    if ts != [] {
      NamesCons(ts);
      RestoreUnknown(RestoreOne(s, ts[0], now), ts[1..], now, id);
    }
  }

  lemma UnknownTasks(s: State, e: Event, id: Id)
    requires id !in s.tasks && !RestoresId(e.cmd, id)
    ensures var r := Handle(s, e).s;
            id in r.tasks ==> r.tasks[id].state.Pending? && r.tasks[id].attempts == 0 && !r.tasks[id].resume
  {
    hide RestoreAll, Names;
    if e.cmd.Restore? {
      RestoreUnknown(s, e.cmd.tasks, e.now, id);
    }
  }

  lemma {:induction false} UnknownStaysUnstarted(s: State, now: int, id: Id)
    requires Core(s) && id !in s.tasks
    ensures var r := Dispatch(s, now); id !in r.tasks && StartsOf(r.calls, id) == StartsOf(s.calls, id)
    decreases |s.queue|
  {
    hide Core, DispatchOne;
    if s.running < s.slots && s.queue != [] {
      var key := s.queue[Top(s.queue)];
      assert Core(DispatchOne(s, now)) by { DispatchOneKeepsCore(s, now); }
      if Stale(s, key) {
        TurnSkips(s, now);
      } else {
        TurnStarts(s, now);
        CoreIds(s, key.id);
        StartsOfSnoc(s.calls, StartCall(s.tasks[key.id], now), id);
      }
      UnknownStaysUnstarted(DispatchOne(s, now), now, id);
    }
  }

  lemma FreshIsCapped(s: State, id: Id)
    requires StartsOf(s.calls, id) == 0
    requires id in s.tasks ==> s.tasks[id].state.Pending? && s.tasks[id].attempts == 0 && !s.tasks[id].resume
    ensures Capped(s, id)
  {}

  lemma SpendingIsCapped(s: State, s': State, id: Id)
    requires id in s.tasks && Capped(s, id) && Spends(s, s', id)
    ensures Capped(s', id)
  {}

  lemma StepCapped(s: State, e: Event, id: Id)
    requires Valid(s) && Capped(s, id) && !RestoresId(e.cmd, id)
    requires id in s.tasks ==> s.tasks[id].maxAttempts > 0
    ensures Capped(Step(s, e), id)
  {
    hide Core, Idle, Handle, Dispatch, RestoresId, Spends;
    if id in s.tasks {
      StepSpends(s, e, id);
      SpendingIsCapped(s, Step(s, e), id);
    } else {
      UnknownUnstarted(s, e, id);
      HandleKeepsCore(s, e);
      var r := Handle(s, e).s;
      FreshIsCapped(r, id);
      if id in r.tasks && r.tasks[id].maxAttempts > 0 {
        DispatchSpends(r, id, e.now);
        SpendingIsCapped(r, Dispatch(r, e.now), id);
      } else if id !in r.tasks {
        UnknownStaysUnstarted(r, e.now, id);
      } else {
        UncappedStays(r, id, e.now);
      }
    }
  }

  lemma UncappedStays(s: State, id: Id, now: int)
    requires Core(s) && id in s.tasks && s.tasks[id].maxAttempts == 0
    ensures Capped(Dispatch(s, now), id)
  {
    hide Core, Dispatch, Dispatched;
    DispatchTasks(s, now);
  }

  lemma KnownStaysKnown(s: State, events: seq<Event>, id: Id)
    requires Valid(s) && id in s.tasks
    ensures id in Run(s, events).tasks
  {
    hide Run, OrdersDistinct, NoLostWork, Drift, Idle;
    RunKeepsValid(s, events);
    RowsNeverMove(s, events);
    var i := s.index[id];
    assert Run(s, events).orderIds[i] == id;
  }

  /** A task nobody registered was never started. */
  lemma {:induction false} UnknownNeverStarted(s: State, events: seq<Event>, id: Id)
    requires Valid(s) && StartsOf(s.calls, id) == 0 && id !in s.tasks && id !in Run(s, events).tasks
    ensures StartsOf(Run(s, events).calls, id) == 0
    decreases |events|
  {
    hide Valid, Step;
    if events != [] {
      var s' := Step(s, events[0]);
      StepKeepsValid(s, events[0]);
      if id in s'.tasks {
        KnownStaysKnown(s', events[1..], id);
      } else {
        StepUnknown(s, events[0], id);
        UnknownNeverStarted(s', events[1..], id);
      }
    }
  }

  lemma StepUnknown(s: State, e: Event, id: Id)
    requires Valid(s) && StartsOf(s.calls, id) == 0 && id !in s.tasks && id !in Step(s, e).tasks
    ensures StartsOf(Step(s, e).calls, id) == 0
  {
    hide Core, Handle, Dispatch, Idle, Dispatched;
    HandleKeepsCore(s, e);
    var r := Handle(s, e).s;
    UnknownCalls(s, e);
    if r.calls != s.calls {
      StartsOfSnoc(s.calls, r.calls[|s.calls|], id);
    }
    DispatchTasks(r, e.now);
    UnknownStaysUnstarted(r, e.now, id);
  }

  /** After its start a capped task has no more starts, past and future, than its cap. */
  lemma {:induction false} CapIsBudget(slots: nat, before: seq<Event>, start: Event, after: seq<Event>, id: Id, m: nat,
                                       s: State)
    requires id !in Run(Init(slots), before).tasks
    requires start.cmd.Start? && start.cmd.id == id && start.cmd.maxAttempts == m > 0
    requires NeverRestores(after, id)
    requires s == Run(Step(Run(Init(slots), before), start), after)
    ensures Valid(s) && id in s.tasks && s.tasks[id].maxAttempts == m
    ensures Total(s, id) <= m && WithinCap(s.tasks[id])
  {
    hide Valid, Step, Run, RestoresId, Spends;
    var s0 := Run(Init(slots), before);
    InitValid(slots);
    RunKeepsValid(Init(slots), before);
    UnknownNeverStarted(Init(slots), before, id);
    StepKeepsValid(s0, start);
    var s1 := Step(s0, start);
    assert !RestoresId(start.cmd, id) by { NotARestore(start.cmd, id); }
    StepCapped(s0, start, id);
    StartRegisters(s0, start);
    RunSpends(s1, after, id);
    RunKeepsValid(s1, after);
    SpendsMeans(s1, s, id);
  }

  /** The retry cap.  A task started with cap m > 0, after anything at all, is
      started at most m times whatever follows (pauses, resumes, retries, kills,
      ticks, other tasks), as long as no restore overwrites it; and until it is
      killed its attempts stay within the cap. */
  lemma {:induction false} RetryCap(slots: nat, before: seq<Event>, start: Event, after: seq<Event>, id: Id, m: nat,
                                    s: State)
    requires id !in Run(Init(slots), before).tasks
    requires start.cmd.Start? && start.cmd.id == id && start.cmd.maxAttempts == m > 0
    requires NeverRestores(after, id)
    requires s == Run(Step(Run(Init(slots), before), start), after)
    ensures id in s.tasks && s.tasks[id].maxAttempts == m
    ensures StartsOf(s.calls, id) <= m
    ensures s.tasks[id].state.Killed? || s.tasks[id].attempts <= m
  {
    CapIsBudget(slots, before, start, after, id, m, s);
    hide Run, Step;
  }

  lemma NotARestore(cmd: Command, id: Id)
    requires !cmd.Restore?
    ensures !RestoresId(cmd, id)
  {}

  lemma SpendsMeans(s: State, s': State, id: Id)
    requires id in s.tasks && Spends(s, s', id) && Capped(s, id) && s.tasks[id].maxAttempts > 0
    ensures id in s'.tasks && s'.tasks[id].maxAttempts == s.tasks[id].maxAttempts
    ensures Total(s', id) <= s.tasks[id].maxAttempts && WithinCap(s'.tasks[id])
  {}

  lemma StartRegisters(s: State, e: Event)
    requires Valid(s) && e.cmd.Start? && e.cmd.id !in s.tasks
    ensures var r := Step(s, e); e.cmd.id in r.tasks && r.tasks[e.cmd.id].maxAttempts == e.cmd.maxAttempts
  {
    hide Core, Dispatch, Dispatched;
    HandleKeepsCore(s, e);
    DispatchTasks(Handle(s, e).s, e.now);
  }

  // ----- the cap is reached, and zero is no cap --------------------------------------

  /** One registered task, running with attempt n, and nothing waiting. */
  ghost predicate Busy(s: State, id: Id, n: nat, m: nat) {
    && s.tasks.Keys == {id} && s.queue == [] && s.delayed == [] && s.slots >= 1 == s.running
    && s.tasks[id].id == id && s.tasks[id].state.Running? && s.tasks[id].attempts == n && s.tasks[id].maxAttempts == m
    && StartsOf(s.calls, id) == n
  }

  function Failures(id: Id, n: nat): seq<Event> {
    if n == 0 then [] else [Event(Command.Reschedule(id, "timeout", 0), 0)] + Failures(id, n - 1)
  }

  /** One pending task, its entry, and a free slot. */
  ghost predicate Waiting(s: State, id: Id, n: nat, m: nat) {
    && s.tasks.Keys == {id} && |s.queue| == 1 && s.queue[0].id == id && s.delayed == []
    && s.slots >= 1 && s.running == 0
    && s.tasks[id].id == id && s.tasks[id].state.Pending? && !s.tasks[id].resume
    && Max(s.tasks[id].attempts, 1) == n && s.tasks[id].maxAttempts == m && StartsOf(s.calls, id) == n - 1
  }

  lemma WaitingStarts(s: State, id: Id, n: nat, m: nat)
    requires Waiting(s, id, n, m)
    ensures Busy(Dispatch(s, 0), id, n, m)
  {
    var d := DispatchOne(s, 0);
    assert d.queue == [] && Dispatch(s, 0) == Dispatch(d, 0) == d;
    StartsOfSnoc(s.calls, StartCall(s.tasks[id], 0), id);
  }

  lemma FailureRestarts(s: State, id: Id, n: nat, m: nat)
    requires Busy(s, id, n, m) && n > 0 && (m == 0 || n < m)
    ensures Busy(Step(s, Event(Command.Reschedule(id, "timeout", 0), 0)), id, n + 1, m)
  {
    hide Dispatch;
    var e := Event(Command.Reschedule(id, "timeout", 0), 0);
    var r := Handle(s, e).s;
    StartsOfSnoc(s.calls, r.calls[|s.calls|], id);
    WaitingStarts(r, id, n + 1, m);
  }

  lemma {:induction false} FailuresRestart(s: State, id: Id, n: nat, k: nat, m: nat)
    requires Busy(s, id, n, m) && n > 0 && (m == 0 || n + k <= m)
    ensures Busy(Run(s, Failures(id, k)), id, n + k, m)
    decreases k
  {
    hide Busy, Step;
    if k > 0 {
      FailureRestarts(s, id, n, m);
      assert Failures(id, k)[1..] == Failures(id, k - 1);
      FailuresRestart(Step(s, Failures(id, k)[0]), id, n + 1, k - 1, m);
    }
  }

  lemma StartIsBusy(slots: nat, id: Id, priority: nat, info: Payload, m: nat)
    ensures Busy(Step(Init(slots), Event(Command.Start(id, priority, info, m), 0)), id, 1, m)
  {
    hide Dispatch;
    WaitingStarts(Handle(Init(slots), Event(Command.Start(id, priority, info, m), 0)).s, id, 1, m);
  }

  /** The bound of RetryCap is tight, and a cap of zero is none: there are runs
      with exactly k starts for every k up to the cap, and for every k when it is zero. */
  lemma CapIsReached(id: Id, m: nat, k: nat)
    requires k > 0 && (m == 0 || k <= m)
    ensures StartsOf(Run(Init(1), [Event(Command.Start(id, 0, "", m), 0)] + Failures(id, k - 1)).calls, id) == k
  {
    hide Step;
    var start := Event(Command.Start(id, 0, "", m), 0);
    var events := [start] + Failures(id, k - 1);
    StartIsBusy(1, id, 0, "", m);
    FailuresRestart(Step(Init(1), start), id, 1, k - 1, m);
    assert events[1..] == Failures(id, k - 1);
  }
}
