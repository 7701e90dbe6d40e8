/** Whole runs of the kernel: any sequence of messages, from the initial state. */
module KernelRuns {
  import opened Kernel
  import opened KernelInvariants

  ghost function LeakTotal(s: State, events: seq<Event>): nat
    decreases |events|
  {
    if events == [] then 0
    else |Leaked(s, events[0].cmd)| + LeakTotal(Step(s, events[0]), events[1..])
  }

  lemma InitValid(slots: nat)
    ensures Valid(Init(slots)) && Drift(Init(slots)) == 0
  {
    var s := Init(slots);
    assert Keys(s) == multiset{};
    assert RunningIds(s.tasks) == {};
  }

  lemma {:induction false} RunKeepsValid(s: State, events: seq<Event>)
    requires Valid(s)
    ensures Valid(Run(s, events)) && Drift(Run(s, events)) == Drift(s) + LeakTotal(s, events)
    decreases |events|
  {
    hide Valid, Drift, Step, Leaked;
    if events != [] {
      StepKeepsValid(s, events[0]);
      RunKeepsValid(Step(s, events[0]), events[1..]);
    }
  }

  lemma {:induction false} RunAppend(s: State, a: seq<Event>, b: seq<Event>)
    ensures Run(s, a + b) == Run(Run(s, a), b)
    decreases |a|
  {
    hide Step;
    if a == [] {
      assert a + b == b;
    } else {
      assert (a + b)[1..] == a[1..] + b;
      RunAppend(Step(s, a[0]), a[1..], b);
    }
  }

  /** At no point of the run does a restore name a task that is running then. */
  ghost predicate NeverRestoresRunning(s: State, events: seq<Event>) {
    forall i :: 0 <= i < |events| ==> Leaked(Run(s, events[..i]), events[i].cmd) == {}
  }

  lemma {:induction false} LeakFree(s: State, events: seq<Event>)
    ensures LeakTotal(s, events) == 0 <==> NeverRestoresRunning(s, events)
    decreases |events|
  {
    hide Step, Leaked;
    if events != [] {
      var s', rest := Step(s, events[0]), events[1..];
      LeakFree(s', rest);
      assert Run(s, events[..0]) == s;
      forall i | 0 <= i < |rest| ensures Run(s', rest[..i]) == Run(s, events[..i + 1]) {
        assert events[..i + 1][1..] == rest[..i];
      }
      if NeverRestoresRunning(s', rest) && Leaked(s, events[0].cmd) == {} {
        forall i | 0 <= i < |events| ensures Leaked(Run(s, events[..i]), events[i].cmd) == {} {
          if i > 0 { assert Leaked(Run(s', rest[..i - 1]), rest[i - 1].cmd) == {}; }
        }
      }
      if NeverRestoresRunning(s, events) {
        forall i | 0 <= i < |rest| ensures Leaked(Run(s', rest[..i]), rest[i].cmd) == {} {
          assert Leaked(Run(s, events[..i + 1]), events[i + 1].cmd) == {};
        }
      }
    }
  }

  /** Every reachable state: snapshot, entries, work and slots are in order, and
      the slot counter is the number of running tasks plus every slot a restore
      leaked; so the counter is exact if and only if no restore ever named a
      running task. */
  lemma SlotAccounting(slots: nat, events: seq<Event>)
    ensures var s := Run(Init(slots), events);
            && Valid(s)
            && s.running == |RunningIds(s.tasks)| + LeakTotal(Init(slots), events)
            && (s.running == |RunningIds(s.tasks)| <==> NeverRestoresRunning(Init(slots), events))
  {
    InitValid(slots);
    RunKeepsValid(Init(slots), events);
    LeakFree(Init(slots), events);
  }

  /** With a free slot and nothing delayed, no task is pending. */
  lemma FreeSlotMeansNoPending(slots: nat, events: seq<Event>)
    ensures var s := Run(Init(slots), events);
            s.running < s.slots && s.delayed == [] ==>
              forall id :: id in s.tasks ==> !s.tasks[id].state.Pending?
  {
    SlotAccounting(slots, events);
    var s := Run(Init(slots), events);
    if s.running < s.slots && s.delayed == [] {
      assert Keys(s) == multiset{};
    }
  }

  // ----- rows never move -------------------------------------------------------

  lemma {:induction false} DispatchKeepsRows(s: State, now: int)
    ensures Dispatch(s, now).orderIds == s.orderIds && Dispatch(s, now).slots == s.slots
    ensures Dispatch(s, now).running <= s.running || Dispatch(s, now).running <= s.slots
    decreases |s.queue|
  {
    if s.running < s.slots && s.queue != [] {
      DispatchKeepsRows(DispatchOne(s, now), now);
    }
  }

  lemma {:induction false} RestoreAllKeepsRows(s: State, ts: seq<Task>, now: int)
    ensures s.orderIds <= RestoreAll(s, ts, now).orderIds
    ensures RestoreAll(s, ts, now).running == s.running && RestoreAll(s, ts, now).slots == s.slots
    decreases |ts|
  {
    if ts != [] {
      RestoreAllKeepsRows(RestoreOne(s, ts[0], now), ts[1..], now);
    }
  }

  lemma HandleKeepsRows(s: State, e: Event)
    ensures s.orderIds <= Handle(s, e).s.orderIds && Handle(s, e).s.running <= s.running
    ensures !e.cmd.SetSlots? ==> Handle(s, e).s.slots == s.slots
  {
    hide RestoreAll;
    if e.cmd.Restore? {
      RestoreAllKeepsRows(s, e.cmd.tasks, e.now);
    }
  }

  /** The id index only grows by appending, so a task's row keeps its position;
      and the slot counter never rises while it is at or above the limit. */
  lemma StepKeepsRows(s: State, e: Event)
    ensures s.orderIds <= Step(s, e).orderIds
    ensures Step(s, e).running <= s.running || Step(s, e).running <= Step(s, e).slots
    ensures !e.cmd.SetSlots? ==> Step(s, e).slots == s.slots
  {
    hide Handle, Dispatch;
    HandleKeepsRows(s, e);
    DispatchKeepsRows(Handle(s, e).s, e.now);
  }

  lemma {:induction false} RowsNeverMove(s: State, events: seq<Event>)
    ensures s.orderIds <= Run(s, events).orderIds
    decreases |events|
  {
    hide Step;
    if events != [] {
      StepKeepsRows(s, events[0]);
      RowsNeverMove(Step(s, events[0]), events[1..]);
    }
  }

  /** While the limit is not changed, at most `slots` tasks are ever counted as
      running, whatever is started, retried, resumed or restored. */
  lemma {:induction false} NeverOverSlots(s: State, events: seq<Event>)
    requires s.running <= s.slots && forall i :: 0 <= i < |events| ==> !events[i].cmd.SetSlots?
    ensures Run(s, events).running <= Run(s, events).slots == s.slots
    decreases |events|
  {
    hide Step;
    if events != [] {
      StepKeepsRows(s, events[0]);
      NeverOverSlots(Step(s, events[0]), events[1..]);
    }
  }

  /** The last limit set, of at least one slot. */
  function LastLimit(first: nat, events: seq<Event>): nat {
    if events == [] then first
    else
      var cmd := events[|events| - 1].cmd;
      if cmd.SetSlots? then (if cmd.slots == 0 then 1 else cmd.slots) else LastLimit(first, events[..|events| - 1])
  }

  lemma StepLimit(s: State, e: Event)
    ensures Step(s, e).slots == if !e.cmd.SetSlots? then s.slots else if e.cmd.slots == 0 then 1 else e.cmd.slots
  {
    hide Dispatch, RestoreAll;
    StepKeepsRows(s, e);
    if e.cmd.SetSlots? { DispatchKeepsRows(s.(slots := Max(e.cmd.slots, 1)), e.now); }
  }

  /** The limit is the last one set. */
  lemma {:induction false} LimitIsLastSet(slots: nat, events: seq<Event>)
    ensures Run(Init(slots), events).slots == LastLimit(if slots == 0 then 1 else slots, events)
    decreases |events|
  {
    hide Step;
    if events != [] {
      var n := |events| - 1;
      LimitIsLastSet(slots, events[..n]);
      assert events == events[..n] + [events[n]];
      RunAppend(Init(slots), events[..n], [events[n]]);
      StepLimit(Run(Init(slots), events[..n]), events[n]);
      RunOne(Run(Init(slots), events[..n]), events[n]);
    }
  }

  lemma RunOne(s: State, e: Event)
    ensures Run(s, [e]) == Step(s, e)
  {
    hide Step;
    assert [e][1..] == [];
  }

  // ----- per-state counts --------------------------------------------------------

  function CountRows(rows: seq<Task>, st: TaskState): nat {
    if rows == [] then 0
    else CountRows(rows[..|rows| - 1], st) + (if rows[|rows| - 1].state == st then 1 else 0)
  }

  ghost function IdsIn(tasks: map<Id, Task>, st: TaskState): set<Id> {
    set id | id in tasks && tasks[id].state == st
  }

  ghost function RowIds(ids: seq<Id>, rows: seq<Task>, st: TaskState): set<Id>
    requires |ids| == |rows|
  {
    set i | 0 <= i < |ids| && rows[i].state == st :: ids[i]
  }

  lemma RowIdsSnoc(ids: seq<Id>, rows: seq<Task>, st: TaskState)
    requires |ids| == |rows| > 0
    ensures var n := |ids| - 1;
            RowIds(ids, rows, st) == RowIds(ids[..n], rows[..n], st) + (if rows[n].state == st then {ids[n]} else {})
  {
    var n := |ids| - 1;
    var before := RowIds(ids[..n], rows[..n], st);
    forall x | x in before ensures x in RowIds(ids, rows, st) {
      var i :| 0 <= i < n && rows[..n][i].state == st && ids[..n][i] == x;
      assert rows[i].state == st && ids[i] == x;
    }
    forall x | x in RowIds(ids, rows, st) ensures x in before || (rows[n].state == st && x == ids[n]) {
      var i :| 0 <= i < n + 1 && rows[i].state == st && ids[i] == x;
      if i < n { assert rows[..n][i].state == st && ids[..n][i] == x; }
    }
  }

  lemma {:induction false} CountDistinct(ids: seq<Id>, rows: seq<Task>, st: TaskState)
    requires |ids| == |rows| && forall i, j :: 0 <= i < j < |ids| ==> ids[i] != ids[j]
    ensures CountRows(rows, st) == |RowIds(ids, rows, st)|
  {
    if rows == [] {
      assert RowIds(ids, rows, st) == {};
    } else {
      var n := |rows| - 1;
      CountDistinct(ids[..n], rows[..n], st);
      RowIdsSnoc(ids, rows, st);
      NewRowId(ids, rows[..n], st);
      hide RowIds;
    }
  }

  lemma NewRowId(ids: seq<Id>, rows: seq<Task>, st: TaskState)
    requires |ids| == |rows| + 1 && forall i, j :: 0 <= i < j < |ids| ==> ids[i] != ids[j]
    ensures ids[|rows|] !in RowIds(ids[..|rows|], rows, st)
  {}

  /** Counting snapshot rows counts the registry: each task is seen exactly once. */
  lemma CountsAgree(s: State, st: TaskState)
    requires SnapshotAgrees(s)
    ensures CountRows(s.snapshot, st) == |IdsIn(s.tasks, st)|
  {
    CountDistinct(s.orderIds, s.snapshot, st);
    forall id | id in IdsIn(s.tasks, st) ensures id in RowIds(s.orderIds, s.snapshot, st) {
      assert s.orderIds[s.index[id]] == id;
    }
    assert RowIds(s.orderIds, s.snapshot, st) == IdsIn(s.tasks, st);
  }
}
