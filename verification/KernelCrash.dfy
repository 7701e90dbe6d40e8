/** The retry cap across a crash: the saved rows are restored into a new actor. */
module KernelCrash {
  import opened Wrappers
  import opened Kernel
  import opened KernelInvariants
  import opened KernelRuns
  import opened KernelPriority
  import opened KernelRetry
  import opened KernelRecovery

  /** A row whose resume flag a restore forgets: it will be started once more
      instead of being resumed. */
  predicate CrashAdds(t: Task) { t.state.Pending? && t.resume && t.attempts >= 1 }

  /** What reloading a capped row does to the starts it has left. */
  lemma ReloadedBudget(ts: seq<Task>, i: nat, now: int)
    requires i < |ts| && ts[i].maxAttempts > 0 && WithinCap(ts[i])
    ensures Budget(Reloaded(ts, i, now)) == Budget(ts[i]) + (if CrashAdds(ts[i]) then 1 else 0)
    ensures Reloaded(ts, i, now).maxAttempts == ts[i].maxAttempts
    ensures CrashAdds(ts[i]) ==> Unresumed(Reloaded(ts, i, now))
  {
    hide LiveCount;
  }

  // ----- dispatch keeps the starts of a task that is not to be resumed ------------------------------

  predicate Unresumed(t: Task) { !(t.state.Pending? && t.resume) }

  /** No start of the task is lost. */
  ghost predicate Holds(s: State, r: State, id: Id)
    requires id in s.tasks
  {
    && id in r.tasks && r.tasks[id].maxAttempts == s.tasks[id].maxAttempts && Unresumed(r.tasks[id])
    && Total(r, id) == Total(s, id)
  }

  lemma TurnHolds(s: State, id: Id, now: int)
    requires Core(s) && s.queue != [] && id in s.tasks && Unresumed(s.tasks[id])
    ensures Holds(s, DispatchOne(s, now), id)
  {
    hide Core, DispatchOne;
    var key := s.queue[Top(s.queue)];
    if Stale(s, key) {
      TurnSkips(s, now);
    } else {
      TurnStarts(s, now);
      CoreIds(s, key.id);
      StartsOfSnoc(s.calls, StartCall(s.tasks[key.id], now), id);
    }
  }

  lemma {:induction false} DispatchHolds(s: State, id: Id, now: int)
    requires Core(s) && id in s.tasks && Unresumed(s.tasks[id])
    ensures Holds(s, Dispatch(s, now), id)
    decreases |s.queue|
  {
    hide Core, DispatchOne, Total, Unresumed;
    if s.running < s.slots && s.queue != [] {
      assert Core(DispatchOne(s, now)) by { DispatchOneKeepsCore(s, now); }
      TurnHolds(s, id, now);
      DispatchHolds(DispatchOne(s, now), id, now);
    }
  }

  lemma TurnCounts(s: State, now: int)
    requires s.queue != []
    ensures var r := DispatchOne(s, now);
            && |r.queue| == |s.queue| - 1 && r.slots == s.slots && r.delayed == s.delayed
            && r.running <= s.running + 1
  {}

  /** With slots for all of it a dispatch empties the queue. */
  lemma {:induction false} DispatchDrains(s: State, now: int)
    requires s.running + |s.queue| < s.slots
    ensures var r := Dispatch(s, now);
            r.queue == [] && r.slots == s.slots && r.delayed == s.delayed && r.running <= s.running + |s.queue|
    decreases |s.queue|
  {
    hide DispatchOne;
    if s.queue != [] {
      TurnCounts(s, now);
      DispatchDrains(DispatchOne(s, now), now);
    }
  }

  // ----- every start that is left can be had ------------------------------------------------------------

  /** Nothing waits, and two slots are free. */
  ghost predicate AtEase(s: State) { Valid(s) && s.queue == [] && s.delayed == [] && s.running + 2 <= s.slots }

  lemma {:induction false} ReadyCounts(d: seq<Delayed>, now: int)
    ensures |Ready(d, now)| + |NotReady(d, now)| == |d|
  {
    if d != [] { ReadyCounts(d[1..], now); }
  }

  lemma {:induction false} Latest(d: seq<Delayed>) returns (now: int)
    ensures forall i :: 0 <= i < |d| ==> d[i].at <= now
  {
    if d == [] {
      now := 0;
    } else {
      var later := Latest(d[1..]);
      now := if later < d[0].at then d[0].at else later;
      forall i | 0 < i < |d| ensures d[i].at <= now { assert d[i] == d[1..][i - 1]; }
    }
  }

  lemma {:induction false} AllDue(d: seq<Delayed>, now: int)
    requires forall i :: 0 <= i < |d| ==> d[i].at <= now
    ensures NotReady(d, now) == []
  {
    if d != [] { AllDue(d[1..], now); }
  }

  lemma RunTwo(s: State, a: Event, b: Event)
    ensures Run(s, [a, b]) == Step(Step(s, a), b)
  {
    hide Step;
    assert [a, b][1..] == [b];
    assert Run(s, [a, b]) == Run(Step(s, a), [b]);
    RunOne(Step(s, a), b);
  }

  /** More slots than there is work start all of it. */
  lemma WidenHolds(s: State, id: Id, n: nat)
    requires Valid(s) && id in s.tasks && Unresumed(s.tasks[id])
    requires n == s.running + |s.queue| + |s.delayed| + 2
    ensures var r := Step(s, Event(Command.SetSlots(n), 0));
            && Valid(r) && Holds(s, r, id) && r.queue == [] && r.slots == n
            && r.running + |r.delayed| + 2 <= n
  {
    hide Core, Dispatch, Total, Unresumed;
    var e := Event(Command.SetSlots(n), 0);
    StepKeepsValid(s, e);
    HandleKeepsCore(s, e);
    var f := s.(slots := n);
    assert Handle(s, e) == ThenDispatch(f);
    DispatchHolds(f, id, 0);
    DispatchDrains(f, 0);
    SameTotal(s, f, id);
  }

  lemma SameTotal(s: State, f: State, id: Id)
    requires id in s.tasks && f.tasks == s.tasks && f.calls == s.calls
    ensures Total(f, id) == Total(s, id)
  {}

  /** A late enough tick brings in all that was delayed. */
  lemma TickHolds(s: State, id: Id, now: int)
    requires Valid(s) && id in s.tasks && Unresumed(s.tasks[id])
    requires s.queue == [] && s.running + |s.delayed| + 2 <= s.slots && NotReady(s.delayed, now) == []
    ensures var r := Step(s, Event(Command.Tick, now)); AtEase(r) && Holds(s, r, id)
  {
    hide Core, Dispatch, Total, Unresumed;
    var e := Event(Command.Tick, now);
    StepKeepsValid(s, e);
    HandleKeepsCore(s, e);
    var f := MoveDelayed(s, now);
    ReadyCounts(s.delayed, now);
    DispatchHolds(f, id, now);
    DispatchDrains(f, now);
    SameTotal(s, f, id);
  }

  lemma NothingPending(s: State, id: Id)
    requires Valid(s) && s.queue == [] && s.delayed == [] && id in s.tasks
    ensures !s.tasks[id].state.Pending?
  {
    hide SnapshotAgrees, OrdersDistinct, Drift;
    assert Keys(s) == multiset{};
  }

  /** At ease, or with the task running and a slot free beside it. */
  ghost predicate CanRetry(s: State, id: Id) {
    && Valid(s) && s.queue == [] && s.delayed == [] && id in s.tasks && !s.tasks[id].state.Pending? && s.slots >= 2
    && s.running + (if s.tasks[id].state.Running? then 1 else 2) <= s.slots
  }

  lemma RetryIs(s: State, id: Id, t: Task)
    requires id in s.tasks
    ensures var r := Retry(s, id, s.tasks[id], t, "timeout", 0, 0);
            && r.queue == s.queue + [HeapKey(id, t.priority, s.order)] && r.delayed == s.delayed && r.slots == s.slots
            && r.running == Released(s.tasks[id], s.running) && id in r.tasks
            && r.tasks[id] == t.(state := Pending, resume := false)
            && r.calls == s.calls + [OnReschedule(t.(state := Pending, resume := false), "timeout")]
  {}

  function TimedOut(s: State, id: Id): State
    requires id in s.tasks
  {
    Retry(s, id, s.tasks[id], Tried(s.tasks[id], "timeout"), "timeout", 0, 0)
  }

  /** Below its cap a reported failure is a retry, and then a dispatch. */
  lemma FailureIsRetry(s: State, id: Id)
    requires Valid(s) && id in s.tasks && s.tasks[id].attempts < s.tasks[id].maxAttempts
    ensures var r := Step(s, Event(Command.Reschedule(id, "timeout", 0), 0));
            Valid(r) && Core(TimedOut(s, id)) && r == Dispatch(TimedOut(s, id), 0)
  {
    hide Core, Retry, GiveUp, Dispatch, Idle;
    var e := Event(Command.Reschedule(id, "timeout", 0), 0);
    StepKeepsValid(s, e);
    HandleKeepsCore(s, e);
  }

  lemma RetryCanRetry(s: State, id: Id)
    requires CanRetry(s, id) && s.tasks[id].attempts < s.tasks[id].maxAttempts
    ensures var r := Step(s, Event(Command.Reschedule(id, "timeout", 0), 0));
            && CanRetry(r, id) && r.tasks[id].maxAttempts == s.tasks[id].maxAttempts
            && r.tasks[id].attempts == s.tasks[id].attempts + 1
            && StartsOf(r.calls, id) == StartsOf(s.calls, id) + 1
  {
    hide Valid, Retry, Step, Dispatch, StartsOf;
    FailureIsRetry(s, id);
    var t := Tried(s.tasks[id], "timeout");
    RetryIs(s, id, t);
    StartsOfSnoc(s.calls, OnReschedule(t.(state := Pending, resume := false), "timeout"), id);
    OneEntryStarts(TimedOut(s, id), id);
  }

  lemma OneEntryStarts(f: State, id: Id)
    requires Core(f) && f.running < f.slots && |f.queue| == 1 && f.queue[0].id == id && id in f.tasks
    requires f.tasks[id].state.Pending? && !f.tasks[id].resume
    ensures var r := Dispatch(f, 0);
            && r.queue == [] && r.delayed == f.delayed && r.slots == f.slots && r.running == f.running + 1
            && r.tasks == f.tasks[id := Started(f.tasks[id], 0)]
            && r.calls == f.calls + [StartCall(f.tasks[id], 0)] && f.tasks[id].id == id
            && StartsOf(r.calls, id) == StartsOf(f.calls, id) + 1
  {
    hide Core, DispatchOne;
    assert Top(f.queue) == 0;
    var d := DispatchOne(f, 0);
    TurnStarts(f, 0);
    TurnCounts(f, 0);
    CoreIds(f, id);
    StartsOfSnoc(f.calls, StartCall(f.tasks[id], 0), id);
    assert Dispatch(f, 0) == Dispatch(d, 0) == d;
  }

  lemma {:induction false} RetriesReach(s: State, id: Id, k: nat)
    requires CanRetry(s, id) && s.tasks[id].attempts + k <= s.tasks[id].maxAttempts
    ensures StartsOf(Run(s, Failures(id, k)).calls, id) == StartsOf(s.calls, id) + k
    ensures NeverRestores(Failures(id, k), id)
    decreases k
  {
    hide CanRetry, Step;
    if k > 0 {
      RetryCanRetry(s, id);
      var es := Failures(id, k);
      assert es[1..] == Failures(id, k - 1);
      RetriesReach(Step(s, es[0]), id, k - 1);
    }
  }

  lemma NoRestores(a: seq<Event>, b: seq<Event>, id: Id)
    requires NeverRestores(a, id) && NeverRestores(b, id)
    ensures NeverRestores(a + b, id)
  {
    hide RestoresId;
  }

  /** From any valid state a capped task that is not to be resumed can be
      started as often as its budget says. */
  lemma UnresumedReaches(s: State, id: Id) returns (events: seq<Event>)
    requires Valid(s) && id in s.tasks && s.tasks[id].maxAttempts > 0 && Unresumed(s.tasks[id])
    ensures NeverRestores(events, id) && StartsOf(Run(s, events).calls, id) == Total(s, id)
  {
    hide Valid, Step, Run;
    var n := s.running + |s.queue| + |s.delayed| + 2;
    WidenHolds(s, id, n);
    var a := Event(Command.SetSlots(n), 0);
    var s1 := Step(s, a);
    var now := Latest(s1.delayed);
    AllDue(s1.delayed, now);
    TickHolds(s1, id, now);
    var b := Event(Command.Tick, now);
    var s2 := Step(s1, b);
    NothingPending(s2, id);
    var t := s2.tasks[id];
    var k := Sub(t.maxAttempts, t.attempts);
    if k == 0 {
      events := [a, b];
    } else {
      RetriesReach(s2, id, k);
      NoRestores([a, b], Failures(id, k), id);
      events := [a, b] + Failures(id, k);
      RunAppend(s, [a, b], Failures(id, k));
    }
    RunTwo(s, a, b);
  }

  /** A task that is to be resumed is made a retry first, which costs nothing. */
  lemma RetryHolds(s: State, id: Id)
    requires Valid(s) && id in s.tasks && s.tasks[id].state.Pending? && s.tasks[id].resume
    requires s.tasks[id].attempts < s.tasks[id].maxAttempts
    ensures var r := Step(s, Event(Command.Reschedule(id, "timeout", 0), 0)); Valid(r) && Holds(s, r, id)
  {
    hide Valid, Core, Retry, Step, Dispatch, StartsOf;
    FailureIsRetry(s, id);
    var t := Tried(s.tasks[id], "timeout");
    RetryIs(s, id, t);
    StartsOfSnoc(s.calls, OnReschedule(t.(state := Pending, resume := false), "timeout"), id);
    DispatchHolds(TimedOut(s, id), id, 0);
  }

  /** Every start a capped task has left can be had. */
  lemma BudgetIsReached(s: State, id: Id) returns (events: seq<Event>)
    requires Valid(s) && id in s.tasks && s.tasks[id].maxAttempts > 0
    ensures NeverRestores(events, id) && StartsOf(Run(s, events).calls, id) == Total(s, id)
  {
    hide Valid, Step;
    var t := s.tasks[id];
    if Unresumed(t) {
      events := UnresumedReaches(s, id);
    } else if t.attempts < t.maxAttempts {
      var e := Event(Command.Reschedule(id, "timeout", 0), 0);
      RetryHolds(s, id);
      var more := UnresumedReaches(Step(s, e), id);
      NoRestores([e], more, id);
      events := [e] + more;
      assert events[0] == e && events[1..] == more;
    } else {
      events := [];
    }
  }

  // ----- the cap across a crash ------------------------------------------------------------------------------

  /** The restored row, before and after the dispatch of the restore. */
  lemma RestoredTotal(slots: nat, ts: seq<Task>, now: int, i: nat, r: State)
    requires DistinctRows(ts) && i < |ts| && ts[i].maxAttempts > 0 && WithinCap(ts[i])
    requires r == Step(Init(slots), Event(Command.Restore(ts), now))
    ensures Valid(r) && ts[i].id in r.tasks && r.tasks[ts[i].id].maxAttempts == ts[i].maxAttempts
    ensures Total(r, ts[i].id) <= Budget(ts[i]) + (if CrashAdds(ts[i]) then 1 else 0)
    ensures CrashAdds(ts[i]) ==> Total(r, ts[i].id) == Budget(ts[i]) + 1
  {
    hide RestoreAll, Dispatch, DistinctIds, Installed, LiveKeys, IdsOfRows, NoneStale, Reloaded, Budget, CrashAdds,
      Unresumed, Core;
    var e := Event(Command.Restore(ts), now);
    InitValid(slots);
    StepKeepsValid(Init(slots), e);
    var s := RestoreAll(Init(slots), ts, now);
    RestoredIsRefilled(slots, ts, now);
    RowTask(s, ts, now, i);
    ReloadedBudget(ts, i, now);
    ReloadedIs(ts, i, now);
    DispatchSpends(s, ts[i].id, now);
    if CrashAdds(ts[i]) { DispatchHolds(s, ts[i].id, now); }
  }

  lemma ReloadedIs(ts: seq<Task>, i: nat, now: int)
    requires i < |ts|
    ensures Reloaded(ts, i, now) == if Live(ts[i]) then Requeued(ts[i], LiveCount(ts[..i]), now) else ts[i]
  {}

  /** Starts before a crash and after it. */
  ghost predicate StaysCapped(s: State, r: State, id: Id, m: nat) {
    forall after :: NeverRestores(after, id) ==> StartsOf(s.calls, id) + StartsOf(Run(r, after).calls, id) <= m
  }

  /** The saved row of a registered task. */
  lemma RowOf(s: State, id: Id) returns (i: nat)
    requires Valid(s) && id in s.tasks
    ensures i < |s.snapshot| && s.snapshot[i].id == id && s.snapshot[i] == s.tasks[id]
  {
    hide OrdersDistinct, NoLostWork, Drift;
    i := s.index[id];
  }

  /** The cap across a crash.  A task is started with cap m > 0 and not restored
      until the actor's rows are saved; they are restored into a new actor.
      Starts before and after stay within m, whatever follows, exactly when the
      saved row is not one whose resume flag the restore forgets, or a start was
      lost before; and at most one start is ever added. */
  lemma CapSurvivesCrashIff(slots: nat, before: seq<Event>, start: Event, mid: seq<Event>, id: Id, m: nat, s: State,
                            slots2: nat, now: int, r: State)
    requires id !in Run(Init(slots), before).tasks
    requires start.cmd.Start? && start.cmd.id == id && start.cmd.maxAttempts == m > 0
    requires NeverRestores(mid, id) && s == Run(Step(Run(Init(slots), before), start), mid)
    requires r == Step(Init(slots2), Event(Command.Restore(s.snapshot), now))
    ensures id in s.tasks && StaysCapped(s, r, id, m + 1)
    ensures StaysCapped(s, r, id, m) <==> !(CrashAdds(s.tasks[id]) && Total(s, id) == m)
  {
    hide Valid, Step, Run, WithinCap, CrashAdds, Budget, Spends, DistinctRows;
    CapIsBudget(slots, before, start, mid, id, m, s);
    var i := RowOf(s, id);
    SavedIsDistinct(slots, before, start, mid, s);
    RestoredTotal(slots2, s.snapshot, now, i, r);
    forall after | NeverRestores(after, id) ensures StartsOf(Run(r, after).calls, id) <= Total(r, id) {
      RunSpends(r, after, id);
      SpentWithin(r, Run(r, after), id);
    }
    if CrashAdds(s.tasks[id]) && Total(s, id) == m {
      var events := BudgetIsReached(r, id);
      assert StartsOf(s.calls, id) + StartsOf(Run(r, events).calls, id) > m;
    }
  }

  lemma SpentWithin(s: State, s': State, id: Id)
    requires id in s.tasks && Spends(s, s', id)
    ensures StartsOf(s'.calls, id) <= Total(s, id)
  {}

  lemma SavedIsDistinct(slots: nat, before: seq<Event>, start: Event, mid: seq<Event>, s: State)
    requires s == Run(Step(Run(Init(slots), before), start), mid)
    ensures DistinctRows(s.snapshot)
  {
    hide Step, DistinctRows;
    RunAppend(Init(slots), before, [start] + mid);
    var rest := [start] + mid;
    assert rest[0] == start && rest[1..] == mid;
    ReachableIsRecoverable(slots, before + rest);
  }

  // ----- a run that is started twice -----------------------------------------------------------------------------

  /** In one slot: `a` runs with cap 1, `b` waits; `a` is paused, so `b` runs;
      `a` is resumed, and waits. */
  function PausedRun(): seq<Event> {
    [Event(Command.Start("b", 0, "", 0), 0), Event(Command.Pause("a", None), 0), Event(Command.Resume("a", None), 0)]
  }

  function StartOfA(): Event { Event(Command.Start("a", 0, "", 1), 0) }

  lemma StartBehind(s: State, id: Id)
    requires Valid(s) && id !in s.tasks && s.running >= s.slots
    ensures var r := Step(s, Event(Command.Start(id, 0, "", 0), 0));
            && Valid(r) && r.slots == s.slots && r.running == s.running && r.calls == s.calls && r.delayed == s.delayed
            && r.queue == s.queue + [HeapKey(id, 0, s.order)] && r.tasks == s.tasks[id := Fresh(id, 0, s.order)]
  {
    StepKeepsValid(s, Event(Command.Start(id, 0, "", 0), 0));
    hide OrdersDistinct, NoLostWork, Drift;
    assert id !in s.index;
    hide Core;
  }

  lemma PauseIs(s: State, id: Id)
    requires id in s.tasks && s.tasks[id].state.Running?
    ensures var f, p := Handle(s, Event(Command.Pause(id, None), 0)).s, s.tasks[id].(state := Paused);
            && Handle(s, Event(Command.Pause(id, None), 0)).ThenDispatch?
            && f.tasks == s.tasks[id := p] && f.running == SaturatingDec(s.running) && f.slots == s.slots
            && f.queue == s.queue && f.delayed == s.delayed && f.calls == s.calls + [OnPause(p, p.checkpoint)]
  {}

  function PausedState(s: State, id: Id): State { Handle(s, Event(Command.Pause(id, None), 0)).s }

  lemma PauseDispatches(s: State, id: Id)
    requires Valid(s) && id in s.tasks && s.tasks[id].state.Running?
    ensures var r := Step(s, Event(Command.Pause(id, None), 0));
            Valid(r) && Core(PausedState(s, id)) && r == Dispatch(PausedState(s, id), 0)
  {
    hide Core, Dispatch, Idle;
    var e := Event(Command.Pause(id, None), 0);
    StepKeepsValid(s, e);
    HandleKeepsCore(s, e);
  }

  /** Pausing the running task gives its slot to the one that waits. */
  lemma PauseHandsOver(s: State, id: Id, other: Id)
    requires Valid(s) && id in s.tasks && s.tasks[id].state.Running? && s.running == s.slots == 1 && id != other
    requires |s.queue| == 1 && s.queue[0].id == other && other in s.tasks && s.tasks[other].state.Pending?
    requires !s.tasks[other].resume
    ensures var r := Step(s, Event(Command.Pause(id, None), 0));
            && Valid(r) && r.slots == 1 == r.running && r.queue == [] && id in r.tasks
            && r.tasks[id] == s.tasks[id].(state := Paused) && StartsOf(r.calls, id) == StartsOf(s.calls, id)
  {
    hide Valid, Step, Core, Handle, Dispatch, Started, StartsOf;
    PauseDispatches(s, id);
    PauseIs(s, id);
    var f := PausedState(s, id);
    OneEntryStarts(f, other);
    var p := s.tasks[id].(state := Paused);
    StartsOfSnoc(s.calls, OnPause(p, p.checkpoint), id);
    StartsOfSnoc(f.calls, StartCall(f.tasks[other], 0), id);
    StartedId(f.tasks[other]);
  }

  lemma StartedId(t: Task)
    ensures StartCall(t, 0).task.id == t.id
  {}

  /** Resuming a paused task while the slots are full leaves it waiting. */
  lemma ResumeWaits(s: State, id: Id)
    requires Valid(s) && id in s.tasks && s.tasks[id].state.Paused? && s.running >= s.slots
    ensures var r := Step(s, Event(Command.Resume(id, None), 0));
            && id in r.tasks && r.tasks[id] == s.tasks[id].(state := Pending, resume := true) && r.calls == s.calls
  {
    hide Core;
  }

  /** A task of cap 1 that is started before the crash and once more after it. */
  lemma PausedRunBreaksCap(slots2: nat, now: int)
    ensures var s := Run(Step(Run(Init(1), []), StartOfA()), PausedRun());
            var r := Step(Init(slots2), Event(Command.Restore(s.snapshot), now));
            && "a" in s.tasks && CrashAdds(s.tasks["a"]) && StartsOf(s.calls, "a") == 1
            && !StaysCapped(s, r, "a", 1)
  {
    hide Step, StartsOf, Busy, Valid, StaysCapped, NeverRestores;
    var s1 := Step(Init(1), StartOfA());
    var es := PausedRun();
    StartIsBusy(1, "a", 0, "", 1);
    InitValid(1);
    StepKeepsValid(Init(1), StartOfA());
    OneSlot(s1);
    StartBehind(s1, "b");
    var s2 := Step(s1, es[0]);
    PauseHandsOver(s2, "a", "b");
    var s3 := Step(s2, es[1]);
    ResumeWaits(s3, "a");
    var s4 := Step(s3, es[2]);
    assert es[..3] == es;
    RunThree(s1, es);
    OneLeft(s4);
    NothingRestored();
    var restore := Event(Command.Restore(s4.snapshot), now);
    CapSurvivesCrashIff(1, [], StartOfA(), es, "a", 1, s4, slots2, now, Step(Init(slots2), restore));
  }

  lemma OneSlot(s: State)
    requires s == Step(Init(1), StartOfA()) && Busy(s, "a", 1, 1)
    ensures s.tasks.Keys == {"a"} && s.slots == 1 == s.running && s.queue == []
    ensures s.tasks["a"].state.Running? && s.tasks["a"].attempts == 1 && s.tasks["a"].maxAttempts == 1
    ensures StartsOf(s.calls, "a") == 1
  {
    hide Step;
    InitValid(1);
    StepKeepsRows(Init(1), StartOfA());
  }

  lemma OneLeft(s: State)
    requires "a" in s.tasks && s.tasks["a"].attempts == 1 == s.tasks["a"].maxAttempts
    requires s.tasks["a"].state.Pending? && s.tasks["a"].resume && StartsOf(s.calls, "a") == 1
    ensures CrashAdds(s.tasks["a"]) && Total(s, "a") == 1
  {}

  lemma NothingRestored()
    ensures NeverRestores(PausedRun(), "a")
  {}
}
