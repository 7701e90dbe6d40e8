/** The order of dispatch: highest priority first, then first in, first out. */
module KernelPriority {
  import opened Wrappers
  import opened Kernel
  import opened KernelInvariants
  import opened KernelRuns

  /** The entries a dispatch turns into running tasks, in that order. */
  function Dispatched(s: State, now: int): seq<HeapKey>
    decreases |s.queue|
  {
    if s.running >= s.slots || s.queue == [] then []
    else
      var key, rest := s.queue[Top(s.queue)], Dispatched(DispatchOne(s, now), now);
      if Stale(s, key) then rest else [key] + rest
  }

  ghost function IdsOf(keys: seq<HeapKey>): set<Id> { set k | k in keys :: k.id }

  // ----- what one turn does ------------------------------------------------------

  lemma TurnSkips(s: State, now: int)
    requires s.queue != [] && Stale(s, s.queue[Top(s.queue)])
    ensures var r := DispatchOne(s, now); r == s.(queue := r.queue)
  {}

  lemma TurnStarts(s: State, now: int)
    requires Core(s) && s.queue != [] && !Stale(s, s.queue[Top(s.queue)])
    ensures var r, id := DispatchOne(s, now), s.queue[Top(s.queue)].id;
            && r.tasks == s.tasks[id := Started(s.tasks[id], now)] && r.tasks[id].state.Running?
            && r.calls == s.calls + [StartCall(s.tasks[id], now)]
            && r.running == s.running + 1
  {}

  lemma TurnQueue(s: State, now: int)
    requires s.queue != []
    ensures var key, r := s.queue[Top(s.queue)], DispatchOne(s, now);
            && multiset(s.queue) == multiset(r.queue) + multiset{key}
            && (forall k :: k in r.queue ==> k in s.queue)
            && (OrdersDistinct(s) ==> forall k :: k in r.queue ==> Before(key, k))
  {
    var i := Top(s.queue);
    var key, r := s.queue[i], DispatchOne(s, now);
    forall k | k in r.queue ensures k in s.queue {
      assert k in multiset(r.queue);
      assert k in multiset(s.queue);
    }
    if OrdersDistinct(s) {
      DispatchOnePops(s, now);
      PopKeepsOrders(s, r, key);
      hide DispatchOne, Top, Before;
      forall k | k in r.queue ensures Before(key, k) {
        assert k in multiset(r.queue);
        assert k in Keys(r);
        assert k in multiset(s.queue);
        assert key in Keys(s) && k in Keys(s);
        var j :| 0 <= j < |s.queue| && s.queue[j] == k;
        TopIsBefore(s, key, s.queue[j]);
      }
    }
  }

  lemma TopIsBefore(s: State, key: HeapKey, k: HeapKey)
    requires OrdersDistinct(s) && key in Keys(s) && k in Keys(s) && k != key && !Before(k, key)
    ensures Before(key, k)
  {
    hide Keys;
  }

  // ----- what a whole dispatch does ----------------------------------------------

  predicate DistinctIds(keys: seq<HeapKey>) {
    forall i, j :: 0 <= i < j < |keys| ==> keys[i].id != keys[j].id
  }

  predicate InOrder(keys: seq<HeapKey>) {
    forall i, j :: 0 <= i < j < |keys| ==> Before(keys[i], keys[j])
  }

  lemma ConsDistinct(key: HeapKey, rest: seq<HeapKey>)
    requires DistinctIds(rest) && forall k :: k in rest ==> k.id != key.id
    ensures DistinctIds([key] + rest)
  {
    var all := [key] + rest;
    forall i, j | 0 <= i < j < |all| ensures all[i].id != all[j].id {
      assert all[j] == rest[j - 1];
      if i > 0 { assert all[i] == rest[i - 1]; }
    }
  }

  lemma ConsInOrder(key: HeapKey, rest: seq<HeapKey>)
    requires InOrder(rest) && forall k :: k in rest ==> Before(key, k)
    ensures InOrder([key] + rest)
  {
    var all := [key] + rest;
    forall i, j | 0 <= i < j < |all| ensures Before(all[i], all[j]) {
      assert all[j] == rest[j - 1];
      if i > 0 { assert all[i] == rest[i - 1]; }
    }
  }

  lemma IdsOfCons(key: HeapKey, rest: seq<HeapKey>)
    ensures IdsOf([key] + rest) == {key.id} + IdsOf(rest)
  {
    forall k | k in rest ensures k in [key] + rest {}
    assert key in [key] + rest;
  }

  /** Dispatched entries were waiting in the queue, for pending tasks, one entry
      a task. */
  lemma {:induction false} DispatchedPending(s: State, now: int)
    requires Core(s)
    ensures forall k :: k in Dispatched(s, now) ==> k in s.queue && !Stale(s, k)
    ensures DistinctIds(Dispatched(s, now))
    decreases |s.queue|
  {
    hide Core, DispatchOne, DistinctIds;
    if s.running < s.slots && s.queue != [] {
      var key, r := s.queue[Top(s.queue)], DispatchOne(s, now);
      assert s.slots >= 1 && Core(r) by { DispatchOneKeepsCore(s, now); }
      TurnQueue(s, now);
      DispatchedPending(r, now);
      var rest := Dispatched(r, now);
      if Stale(s, key) {
        TurnSkips(s, now);
      } else {
        TurnStarts(s, now);
        forall k | k in rest ensures k.id != key.id {
          assert !Stale(r, k);
        }
        ConsDistinct(key, rest);
      }
    } else {
      NoneDistinct();
    }
  }

  lemma NoneDistinct()
    ensures DistinctIds([]) && InOrder([])
  {}

  /** Registry: the dispatched tasks start, the others are untouched. */
  lemma {:induction false} DispatchTasks(s: State, now: int)
    requires Core(s)
    ensures var r, ids := Dispatch(s, now), IdsOf(Dispatched(s, now));
            && r.tasks.Keys == s.tasks.Keys
            && forall id :: id in s.tasks ==>
                 r.tasks[id] == if id in ids then Started(s.tasks[id], now) else s.tasks[id]
    decreases |s.queue|
  {
    hide Core, DispatchOne, Started, IdsOf;
    if s.running < s.slots && s.queue != [] {
      var key, r := s.queue[Top(s.queue)], DispatchOne(s, now);
      assert Core(r) by { DispatchOneKeepsCore(s, now); }
      DispatchTasks(r, now);
      var rest := Dispatched(r, now);
      if Stale(s, key) {
        TurnSkips(s, now);
      } else {
        TurnStarts(s, now);
        IdsOfCons(key, rest);
        DispatchedAreNot(r, now, key.id);
      }
    } else {
      IdsOfNone();
    }
  }

  lemma IdsOfNone()
    ensures IdsOf([]) == {}
  {}

  lemma DispatchedAreNot(s: State, now: int, id: Id)
    requires Core(s) && (id !in s.tasks || !s.tasks[id].state.Pending?)
    ensures id !in IdsOf(Dispatched(s, now))
  {
    hide Core, Dispatched;
    DispatchedPending(s, now);
  }

  function StartCalls(tasks: map<Id, Task>, keys: seq<HeapKey>, now: int): seq<HookCall>
    requires forall k :: k in keys ==> k.id in tasks
  {
    if keys == [] then [] else [StartCall(tasks[keys[0].id], now)] + StartCalls(tasks, keys[1..], now)
  }

  lemma {:induction false} StartCallsSame(a: map<Id, Task>, b: map<Id, Task>, keys: seq<HeapKey>, now: int)
    requires forall k :: k in keys ==> k.id in a && k.id in b && a[k.id] == b[k.id]
    ensures StartCalls(a, keys, now) == StartCalls(b, keys, now)
  {
    if keys != [] {
      assert keys[0] in keys;
      StartCallsSame(a, b, keys[1..], now);
    }
  }

  lemma StartCallsCons(tasks: map<Id, Task>, key: HeapKey, rest: seq<HeapKey>, now: int)
    requires key.id in tasks && forall k :: k in rest ==> k.id in tasks
    ensures StartCalls(tasks, [key] + rest, now) == [StartCall(tasks[key.id], now)] + StartCalls(tasks, rest, now)
  {
    assert ([key] + rest)[1..] == rest;
  }

  lemma DispatchedRegistered(s: State, now: int)
    requires Core(s)
    ensures forall k :: k in Dispatched(s, now) ==> k.id in s.tasks
  {
    hide Core, Dispatched, DistinctIds;
    DispatchedPending(s, now);
  }

  /** The tasks a dispatch starts after its first turn are unchanged by that turn. */
  lemma LaterStartsUnchanged(s: State, now: int)
    requires Core(s) && s.running < s.slots && s.queue != [] && !Stale(s, s.queue[Top(s.queue)])
    ensures var r := DispatchOne(s, now);
            forall k :: k in Dispatched(r, now) ==> k.id in s.tasks && k.id in r.tasks && s.tasks[k.id] == r.tasks[k.id]
  {
    hide Core, DispatchOne, DistinctIds, Dispatched;
    var r := DispatchOne(s, now);
    DispatchOneKeepsCore(s, now);
    TurnStarts(s, now);
    DispatchedPending(r, now);
    forall k | k in Dispatched(r, now)
      ensures k.id in s.tasks && k.id in r.tasks && s.tasks[k.id] == r.tasks[k.id] {
      assert !Stale(r, k);
    }
  }

  /** Hooks and slots: one call and one slot for each dispatched entry, in order. */
  lemma NoStartCalls(tasks: map<Id, Task>, now: int)
    ensures StartCalls(tasks, [], now) == []
  {}

  lemma {:induction false} DispatchCalls(s: State, now: int)
    requires Core(s)
    ensures forall k :: k in Dispatched(s, now) ==> k.id in s.tasks
    ensures Dispatch(s, now).calls == s.calls + StartCalls(s.tasks, Dispatched(s, now), now)
    ensures Dispatch(s, now).running == s.running + |Dispatched(s, now)|
    decreases |s.queue|
  {
    hide Core, DispatchOne, StartCall, Stale, StartCalls, Top;
    DispatchedRegistered(s, now);
    NoStartCalls(s.tasks, now);
    if s.running < s.slots && s.queue != [] {
      var key, r := s.queue[Top(s.queue)], DispatchOne(s, now);
      assert Core(r) by { DispatchOneKeepsCore(s, now); }
      DispatchCalls(r, now);
      var rest := Dispatched(r, now);
      if Stale(s, key) {
        TurnSkips(s, now);
      } else {
        TurnStarts(s, now);
        LaterStartsUnchanged(s, now);
        StartCallsSame(s.tasks, r.tasks, rest, now);
        assert key.id in s.tasks by { assert key in Dispatched(s, now); }
        StartCallsCons(s.tasks, key, rest, now);
      }
    }
  }

  /** Order: entries are dispatched highest priority first, ties first in first
      out, and every one of them comes before every entry left in the queue. */
  lemma {:induction false} DispatchOrder(s: State, now: int)
    requires Core(s)
    ensures InOrder(Dispatched(s, now))
    ensures forall d, k :: d in Dispatched(s, now) && k in Dispatch(s, now).queue ==> Before(d, k)
    ensures forall k :: k in Dispatch(s, now).queue ==> k in s.queue
    decreases |s.queue|
  {
    hide Core, DispatchOne, InOrder, Before;
    NoneDistinct();
    if s.running < s.slots && s.queue != [] {
      var key, r := s.queue[Top(s.queue)], DispatchOne(s, now);
      assert Core(r) by { DispatchOneKeepsCore(s, now); }
      assert OrdersDistinct(s) by { CoreOrders(s); }
      TurnQueue(s, now);
      DispatchOrder(r, now);
      var rest := Dispatched(r, now);
      if !Stale(s, key) {
        forall k | k in rest ensures Before(key, k) {
          DispatchedPending(r, now);
          assert k in r.queue;
        }
        ConsInOrder(key, rest);
      }
    }
  }

  lemma CoreOrders(s: State)
    requires Core(s)
    ensures OrdersDistinct(s)
  {}

  // ----- entries and task priorities ---------------------------------------------

  /** Every entry carries the priority its task has now. */
  ghost predicate KeysCurrent(s: State) {
    forall k :: k in Keys(s) ==> k.id in s.tasks && k.priority == s.tasks[k.id].priority
  }

  /** Priority, then FIFO, in terms of tasks: a task that was started outranks
      every pending task that was left waiting in the queue; at equal priority
      its entry is older than every queue entry of the other. */
  lemma PriorityThenFifo(s: State, now: int, d: HeapKey, k: HeapKey)
    requires Core(s) && KeysCurrent(s)
    requires d in Dispatched(s, now) && k in Dispatch(s, now).queue && k.id in s.tasks
    ensures d.id in s.tasks && s.tasks[d.id].state.Pending?
    ensures var p, q := s.tasks[d.id].priority, s.tasks[k.id].priority;
            p > q || (p == q && d.order < k.order)
  {
    hide Core, Dispatched, Dispatch;
    DispatchedPending(s, now);
    DispatchOrder(s, now);
    assert k in multiset(s.queue) && d in multiset(s.queue);
    assert k in Keys(s) && d in Keys(s);
  }

  /** A restore that gives each task it names one priority, and no known task a
      new one; every other message qualifies. */
  predicate KeepsPriorities(s: State, cmd: Command) {
    cmd.Restore? ==>
      && (forall i :: 0 <= i < |cmd.tasks| && cmd.tasks[i].id in s.tasks ==>
            cmd.tasks[i].priority == s.tasks[cmd.tasks[i].id].priority)
      && (forall i, j :: 0 <= i < j < |cmd.tasks| && cmd.tasks[i].id == cmd.tasks[j].id ==>
            cmd.tasks[i].priority == cmd.tasks[j].priority)
  }

  /** An edit after which old entries still carry their task's priority, and the
      new entry, if any, carries its own. */
  ghost predicate CurrentEdit(s: State, s': State) {
    && (forall id :: id in s.tasks ==> id in s'.tasks && s'.tasks[id].priority == s.tasks[id].priority)
    && (forall k :: k in Keys(s') ==> k in Keys(s) || (k.id in s'.tasks && k.priority == s'.tasks[k.id].priority))
  }

  lemma OldEntriesCurrent(s: State, s': State)
    requires Keys(s') == Keys(s)
    requires forall id :: id in s.tasks ==> id in s'.tasks && s'.tasks[id].priority == s.tasks[id].priority
    ensures CurrentEdit(s, s')
  {}

  lemma NewEntryCurrent(s: State, s': State, key: HeapKey)
    requires Keys(s') == Keys(s) + multiset{key}
    requires key.id in s'.tasks && key.priority == s'.tasks[key.id].priority
    requires forall id :: id in s.tasks ==> id in s'.tasks && s'.tasks[id].priority == s.tasks[id].priority
    ensures CurrentEdit(s, s')
  {}

  lemma RetryKeysCurrent(s: State, id: Id, t: Task, error: string, delayMs: nat, now: int)
    requires id in s.tasks && t.id == id && t.priority == s.tasks[id].priority
    ensures CurrentEdit(s, Retry(s, id, s.tasks[id], t, error, delayMs, now))
  {
    hide Keys, CurrentEdit;
    var r := Retry(s, id, s.tasks[id], t, error, delayMs, now);
    var key := HeapKey(id, t.priority, s.order);
    if delayMs > 0 { PushDelayedKeys(s, r, now + delayMs, key); } else { PushQueueKeys(s, r, key); }
    NewEntryCurrent(s, r, key);
  }

  lemma StartKeysCurrent(s: State, id: Id, priority: nat, info: Payload, maxAttempts: nat, now: int)
    ensures CurrentEdit(s, HandleStart(s, id, priority, info, maxAttempts, now).s)
  {
    hide Keys, CurrentEdit;
    var r := HandleStart(s, id, priority, info, maxAttempts, now).s;
    if id !in s.tasks {
      PushQueueKeys(s, r, HeapKey(id, priority, s.order));
      NewEntryCurrent(s, r, HeapKey(id, priority, s.order));
    } else { OldEntriesCurrent(s, r); }
  }

  lemma ResumeKeysCurrent(s: State, id: Id, checkpoint: Option<Payload>)
    requires Core(s)
    ensures CurrentEdit(s, HandleResume(s, id, checkpoint).s)
  {
    hide Core, Keys, CurrentEdit;
    var r := HandleResume(s, id, checkpoint).s;
    if id in s.tasks && s.tasks[id].state.Paused? {
      CoreIds(s, id);
      PushQueueKeys(s, r, HeapKey(id, s.tasks[id].priority, s.order));
      NewEntryCurrent(s, r, HeapKey(id, s.tasks[id].priority, s.order));
    } else { OldEntriesCurrent(s, r); }
  }

  lemma RescheduleKeysCurrent(s: State, id: Id, error: string, delayMs: nat, now: int)
    requires Core(s)
    ensures CurrentEdit(s, HandleReschedule(s, id, error, delayMs, now).s)
  {
    hide Core, Keys, CurrentEdit, Retry;
    var r := HandleReschedule(s, id, error, delayMs, now).s;
    if id in s.tasks {
      CoreIds(s, id);
      var t := s.tasks[id].(attempts := s.tasks[id].attempts + 1, error := Some(error));
      if !Exhausted(t) {
        RetryKeysCurrent(s, id, t, error, delayMs, now);
        return;
      }
    }
    SameEntriesSameKeys(s, r);
    OldEntriesCurrent(s, r);
  }

  lemma HandleKeysCurrent(s: State, e: Event)
    requires Core(s) && !e.cmd.Restore?
    ensures CurrentEdit(s, Handle(s, e).s)
  {
    hide Core, Keys, MoveDelayed, CurrentEdit, HandleStart, HandleResume, HandleReschedule;
    var r := Handle(s, e).s;
    match e.cmd
    case Start(id, priority, info, maxAttempts) => StartKeysCurrent(s, id, priority, info, maxAttempts, e.now);
    case Resume(id, checkpoint) => ResumeKeysCurrent(s, id, checkpoint);
    case Reschedule(id, error, delayMs) => RescheduleKeysCurrent(s, id, error, delayMs, e.now);
    case Tick =>
      MoveDelayedKeepsKeys(s, e.now);
      MoveDelayedTasks(s, e.now);
      OldEntriesCurrent(s, r);
    case _ =>
      SameEntriesSameKeys(s, r);
      OldEntriesCurrent(s, r);
  }

  lemma MoveDelayedTasks(s: State, now: int)
    ensures MoveDelayed(s, now).tasks == s.tasks
  {}

  // ----- restores that leave every entry current ---------------------------------------------

  /** No later row names the same task. */
  predicate LastRow(ts: seq<Task>, i: nat) {
    i < |ts| && forall j :: i < j < |ts| ==> ts[j].id != ts[i].id
  }

  /** Row `j` requeues its task under an entry like `k`. */
  predicate Pushes(ts: seq<Task>, j: nat, k: HeapKey) {
    j < |ts| && !ts[j].state.Terminal() && k.id == ts[j].id && k.priority == ts[j].priority
  }

  /** The row that settles a task's priority agrees with the entries the task
      already owns, and with the earlier rows that requeue it. */
  ghost predicate RowKeeps(s: State, ts: seq<Task>, i: nat)
    requires i < |ts|
  {
    && (forall k :: k in Keys(s) && k.id == ts[i].id ==> k.priority == ts[i].priority)
    && (forall j :: 0 <= j < i && ts[j].id == ts[i].id && !ts[j].state.Terminal() ==> ts[j].priority == ts[i].priority)
  }

  ghost predicate KeepsOrder(s: State, cmd: Command) {
    cmd.Restore? ==> forall i :: 0 <= i < |cmd.tasks| && LastRow(cmd.tasks, i) ==> RowKeeps(s, cmd.tasks, i)
  }

  /** What a restore makes of the registry. */
  ghost predicate RestoresRows(s: State, ts: seq<Task>, r: State) {
    && r.tasks.Keys == s.tasks.Keys + Names(ts)
    && (forall id :: id in s.tasks && id !in Names(ts) ==> r.tasks[id] == s.tasks[id])
    && (forall i :: 0 <= i < |ts| && LastRow(ts, i) ==>
          ts[i].id in r.tasks && r.tasks[ts[i].id].priority == ts[i].priority)
  }

  /** What a restore makes of the entries. */
  ghost predicate RestoresEntries(s: State, ts: seq<Task>, r: State) {
    && (forall k :: k in Keys(s) ==> k in Keys(r))
    && (forall k :: k in Keys(r) ==> k in Keys(s) || exists j :: Pushes(ts, j, k))
    && (forall j :: 0 <= j < |ts| && !ts[j].state.Terminal() ==> exists k :: k in Keys(r) && Pushes(ts, j, k))
  }

  ghost predicate RestoresTo(s: State, ts: seq<Task>, r: State) { RestoresRows(s, ts, r) && RestoresEntries(s, ts, r) }

  lemma RestoreOneTasks(s: State, t: Task, now: int)
    ensures var r := RestoreOne(s, t, now);
            r.tasks.Keys == s.tasks.Keys + {t.id} && r.tasks[t.id].priority == t.priority
            && forall id :: id in s.tasks && id != t.id ==> r.tasks[id] == s.tasks[id]
  {}

  lemma LastRowTail(ts: seq<Task>, i: nat)
    requires LastRow(ts, i)
    ensures i > 0 ==> LastRow(ts[1..], i - 1) && ts[1..][i - 1] == ts[i]
    ensures i == 0 ==> ts[0].id !in Names(ts[1..])
  {}

  lemma PushesTail(ts: seq<Task>, j: nat, k: HeapKey)
    requires ts != [] && Pushes(ts[1..], j, k)
    ensures Pushes(ts, j + 1, k)
  {}

  lemma RestoresConsRows(s: State, s1: State, ts: seq<Task>, r: State)
    requires ts != [] && RestoresRows(s1, ts[1..], r)
    requires s1.tasks.Keys == s.tasks.Keys + {ts[0].id} && s1.tasks[ts[0].id].priority == ts[0].priority
    requires forall id :: id in s.tasks && id != ts[0].id ==> s1.tasks[id] == s.tasks[id]
    ensures RestoresRows(s, ts, r)
  {
    NamesCons(ts);
    hide Keys, Names, LastRow, Pushes;
    forall i | 0 <= i < |ts| && LastRow(ts, i)
      ensures ts[i].id in r.tasks && r.tasks[ts[i].id].priority == ts[i].priority {
      LastRowTail(ts, i);
    }
  }

  lemma RestoresConsEntries(s: State, s1: State, ts: seq<Task>, r: State)
    requires ts != [] && RestoresEntries(s1, ts[1..], r)
    requires Keys(s1) == Keys(s) + (if ts[0].state.Terminal() then multiset{}
                                    else multiset{HeapKey(ts[0].id, ts[0].priority, s.order)})
    ensures RestoresEntries(s, ts, r)
  {
    hide Keys, Names, LastRow;
    var rest, first := ts[1..], HeapKey(ts[0].id, ts[0].priority, s.order);
    forall k | k in Keys(r) ensures k in Keys(s) || exists j :: Pushes(ts, j, k) {
      if k !in Keys(s1) {
        var j :| Pushes(rest, j, k);
        PushesTail(ts, j, k);
      } else if k !in Keys(s) {
        assert Pushes(ts, 0, k);
      }
    }
    forall j | 0 <= j < |ts| && !ts[j].state.Terminal() ensures exists k :: k in Keys(r) && Pushes(ts, j, k) {
      if j == 0 {
        assert first in Keys(s1) && Pushes(ts, 0, first);
      } else {
        assert rest[j - 1] == ts[j];
        var k :| k in Keys(r) && Pushes(rest, j - 1, k);
        PushesTail(ts, j - 1, k);
      }
    }
  }

  lemma RestoresCons(s: State, ts: seq<Task>, now: int, r: State)
    requires ts != [] && RestoresTo(RestoreOne(s, ts[0], now), ts[1..], r)
    ensures RestoresTo(s, ts, r)
  {
    var s1 := RestoreOne(s, ts[0], now);
    RestoreOneTasks(s, ts[0], now);
    RestoreOneKeys(s, ts[0], now);
    hide RestoreOne, Keys, Names, LastRow, Pushes, RestoresRows, RestoresEntries;
    RestoresConsRows(s, s1, ts, r);
    RestoresConsEntries(s, s1, ts, r);
  }

  lemma RestoresNothing(s: State)
    ensures RestoresTo(s, [], s)
  {
    hide Keys;
    assert Names([]) == {};
  }

  lemma {:induction false} RestoreAllRestores(s: State, ts: seq<Task>, now: int)
    ensures RestoresTo(s, ts, RestoreAll(s, ts, now))
    decreases |ts|
  {
    hide RestoreOne, Keys, RestoresTo;
    if ts == [] {
      RestoresNothing(s);
    } else {
      RestoreAllRestores(RestoreOne(s, ts[0], now), ts[1..], now);
      RestoresCons(s, ts, now, RestoreAll(s, ts, now));
    }
  }

  lemma {:induction false} HasLastRow(ts: seq<Task>, j: nat) returns (i: nat)
    requires j < |ts|
    ensures LastRow(ts, i) && j <= i < |ts| && ts[i].id == ts[j].id
    decreases |ts| - j
  {
    if LastRow(ts, j) {
      i := j;
    } else {
      var l :| j < l < |ts| && ts[l].id == ts[j].id;
      i := HasLastRow(ts, l);
    }
  }

  lemma PushedIsNamed(ts: seq<Task>, j: nat, k: HeapKey)
    requires Pushes(ts, j, k)
    ensures k.id in Names(ts)
  {}

  /** An entry of a task the restore names. */
  lemma NamedEntryIsCurrent(s: State, ts: seq<Task>, r: State, k: HeapKey)
    requires RestoresRows(s, ts, r) && KeepsOrder(s, Command.Restore(ts)) && k.id in Names(ts)
    requires k in Keys(s) || exists j :: Pushes(ts, j, k)
    ensures k.id in r.tasks && k.priority == r.tasks[k.id].priority
  {
    hide Keys, LastRow;
    var n :| 0 <= n < |ts| && ts[n].id == k.id;
    var i := HasLastRow(ts, n);
    assert RowKeeps(s, ts, i);
    if k !in Keys(s) {
      var j :| Pushes(ts, j, k);
      PushedBefore(ts, j, i);
    }
  }

  lemma RestoreKeepsIf(s: State, ts: seq<Task>, r: State)
    requires KeysCurrent(s) && RestoresTo(s, ts, r) && KeepsOrder(s, Command.Restore(ts))
    ensures KeysCurrent(r)
  {
    hide Keys, LastRow, KeepsOrder, Names, Pushes;
    forall k | k in Keys(r) ensures k.id in r.tasks && k.priority == r.tasks[k.id].priority {
      if k !in Keys(s) {
        var j :| Pushes(ts, j, k);
        PushedIsNamed(ts, j, k);
      }
      if k.id in Names(ts) { NamedEntryIsCurrent(s, ts, r, k); }
    }
  }

  lemma PushedBefore(ts: seq<Task>, j: nat, i: nat)
    requires j < |ts| && LastRow(ts, i) && ts[j].id == ts[i].id
    ensures j <= i
  {}

  lemma RestoreKeepsOnlyIf(s: State, ts: seq<Task>, r: State)
    requires RestoresTo(s, ts, r) && KeysCurrent(r)
    ensures KeepsOrder(s, Command.Restore(ts))
  {
    hide Keys, LastRow;
    forall i | 0 <= i < |ts| && LastRow(ts, i) ensures RowKeeps(s, ts, i) {
      forall j | 0 <= j < i && ts[j].id == ts[i].id && !ts[j].state.Terminal()
        ensures ts[j].priority == ts[i].priority {
        var k :| k in Keys(r) && Pushes(ts, j, k);
      }
    }
  }

  /** A restore leaves every entry with its task's priority exactly when each
      task's last row agrees with the entries the task owns and with its
      earlier live rows. */
  lemma RestoreKeepsIff(s: State, ts: seq<Task>, now: int)
    requires KeysCurrent(s)
    ensures KeysCurrent(RestoreAll(s, ts, now)) <==> KeepsOrder(s, Command.Restore(ts))
  {
    hide KeysCurrent, RestoresTo, KeepsOrder, RestoreAll;
    RestoreAllRestores(s, ts, now);
    var r := RestoreAll(s, ts, now);
    if KeepsOrder(s, Command.Restore(ts)) { RestoreKeepsIf(s, ts, r); }
    if KeysCurrent(r) { RestoreKeepsOnlyIf(s, ts, r); }
  }

  /** While entries are current, keeping the registered priorities is enough. */
  lemma PrioritiesAreEnough(s: State, cmd: Command)
    requires KeysCurrent(s) && KeepsPriorities(s, cmd)
    ensures KeepsOrder(s, cmd)
  {
    hide Keys, LastRow;
  }

  lemma CurrentEditKeeps(s: State, s': State)
    requires KeysCurrent(s) && CurrentEdit(s, s')
    ensures KeysCurrent(s')
  {}

  lemma DispatchKeysCurrent(s: State, now: int)
    requires Core(s) && KeysCurrent(s)
    ensures KeysCurrent(Dispatch(s, now))
  {
    hide Core, Dispatch, Dispatched;
    DispatchTasks(s, now);
    DispatchKeepsEntries(s, now);
  }

  lemma {:induction false} DispatchKeepsEntries(s: State, now: int)
    ensures forall k :: k in Keys(Dispatch(s, now)) ==> k in Keys(s)
    decreases |s.queue|
  {
    hide Keys, DispatchOne;
    if s.running < s.slots && s.queue != [] {
      DispatchOnePops(s, now);
      DispatchKeepsEntries(DispatchOne(s, now), now);
    }
  }

  lemma EditKeysCurrent(s: State, e: Event)
    requires Core(s) && KeysCurrent(s) && KeepsOrder(s, e.cmd)
    ensures KeysCurrent(Handle(s, e).s)
  {
    hide Core, KeysCurrent, CurrentEdit, KeepsOrder, HandleStart, RestoreAll;
    if e.cmd.Restore? {
      RestoreKeepsIff(s, e.cmd.tasks, e.now);
    } else {
      HandleKeysCurrent(s, e);
      CurrentEditKeeps(s, Handle(s, e).s);
    }
  }

  /** Every restore of the run keeps the order. */
  ghost predicate OrderKept(s: State, events: seq<Event>)
    decreases |events|
  {
    events == [] || (KeepsOrder(s, events[0].cmd) && OrderKept(Step(s, events[0]), events[1..]))
  }

  lemma StepKeysCurrent(s: State, e: Event)
    requires Valid(s) && KeysCurrent(s) && KeepsOrder(s, e.cmd)
    ensures Valid(Step(s, e)) && KeysCurrent(Step(s, e))
  {
    hide KeysCurrent, KeepsOrder, Handle, Core;
    EditKeysCurrent(s, e);
    HandleKeepsCore(s, e);
    if Handle(s, e).ThenDispatch? { DispatchKeysCurrent(Handle(s, e).s, e.now); }
    StepKeepsValid(s, e);
  }

  lemma {:induction false} RunKeysCurrent(s: State, events: seq<Event>)
    requires Valid(s) && KeysCurrent(s) && OrderKept(s, events)
    ensures Valid(Run(s, events)) && KeysCurrent(Run(s, events))
    decreases |events|
  {
    hide KeysCurrent, KeepsOrder, Valid, Step;
    if events != [] {
      StepKeysCurrent(s, events[0]);
      RunKeysCurrent(Step(s, events[0]), events[1..]);
    }
  }

  /** `d` outranks `k`: its task has the higher priority, or the same and `d` is older. */
  predicate Outranks(s: State, d: HeapKey, k: HeapKey)
    requires d.id in s.tasks && k.id in s.tasks
  {
    var p, q := s.tasks[d.id].priority, s.tasks[k.id].priority;
    p > q || (p == q && d.order < k.order)
  }

  /** Over whole runs in which restores keep the order: whenever a message makes
      the actor dispatch, each task it starts outranks each task that it leaves
      in the queue. */
  lemma {:induction false} EveryDispatchInOrder(
      slots: nat, events: seq<Event>, e: Event, edited: State, d: HeapKey, k: HeapKey)
    requires OrderKept(Init(slots), events) && KeepsOrder(Run(Init(slots), events), e.cmd)
    requires edited == Handle(Run(Init(slots), events), e).s
    requires d in Dispatched(edited, e.now) && k in Dispatch(edited, e.now).queue && k.id in edited.tasks
    ensures d.id in edited.tasks && edited.tasks[d.id].state.Pending? && Outranks(edited, d, k)
  {
    hide Core, KeysCurrent, KeepsOrder, Handle, Dispatched, Dispatch;
    InitValid(slots);
    InitKeysCurrent(slots);
    RunKeysCurrent(Init(slots), events);
    var s := Run(Init(slots), events);
    EditKeysCurrent(s, e);
    HandleKeepsCore(s, e);
    PriorityThenFifo(edited, e.now, d, k);
  }

  lemma InitKeysCurrent(slots: nat)
    ensures KeysCurrent(Init(slots))
  {
    assert Keys(Init(slots)) == multiset{};
  }

  // ----- the restore that breaks the order ----------------------------------------------------

  function Fresh(id: Id, priority: nat, order: nat): Task {
    Task(id, priority, "", Pending, None, None, None, 0, 0, 0, None, None, order, false)
  }

  /** A full kernel: `a` holds the one slot, `b` was queued with priority 9 and
      restored with priority 1, and `c` waits with priority 2. */
  function Overtaken(): State {
    var a := Started(Fresh("a", 0, 0), 0);
    var b := Fresh("b", 1, 3);
    var c := Fresh("c", 2, 2);
    State(map["a" := a, "b" := b, "c" := c],
          [HeapKey("b", 9, 1), HeapKey("c", 2, 2), HeapKey("b", 1, 3)], [],
          1, 1, 4, ["a", "b", "c"], map["a" := 0, "b" := 1, "c" := 2], [a, b, c], [OnStart(a)])
  }

  lemma StartA()
    ensures Step(Init(1), Event(Command.Start("a", 0, "", 0), 0))
         == State(map["a" := Started(Fresh("a", 0, 0), 0)], [], [], 1, 1, 1, ["a"], map["a" := 0],
                  [Started(Fresh("a", 0, 0), 0)], [OnStart(Started(Fresh("a", 0, 0), 0))])
  {
    hide Dispatch;
    var s := Handle(Init(1), Event(Command.Start("a", 0, "", 0), 0)).s;
    assert s.queue == [HeapKey("a", 0, 0)] && s.tasks["a"] == Fresh("a", 0, 0);
    DispatchSolo(s);
    assert Top(s.queue) == 0 && Without(s.queue, 0) == [];
  }

  lemma DispatchSolo(s: State)
    requires s.slots == 1 && s.running == 0 && |s.queue| == 1
    requires s.queue[0].id in s.tasks && s.tasks[s.queue[0].id].state.Pending?
    ensures Dispatch(s, 0) == DispatchOne(s, 0)
  {
    var t := DispatchOne(s, 0);
    assert t.queue == [];
    assert Dispatch(t, 0) == t;
  }

  lemma StartWhenFull(s: State, id: Id, priority: nat)
    requires id !in s.tasks && id !in s.index && s.running >= s.slots
    ensures Step(s, Event(Command.Start(id, priority, "", 0), 0))
         == s.(order := s.order + 1, tasks := s.tasks[id := Fresh(id, priority, s.order)],
               orderIds := s.orderIds + [id], index := s.index[id := |s.orderIds|],
               snapshot := s.snapshot + [Fresh(id, priority, s.order)],
               queue := s.queue + [HeapKey(id, priority, s.order)])
  {}

  lemma RestoreWhenFull(s: State, t: Task)
    requires t == Fresh(t.id, t.priority, t.order) && t.id in s.tasks && t.id in s.index && s.index[t.id] < |s.snapshot|
    requires s.running >= s.slots
    ensures var t' := Fresh(t.id, t.priority, s.order);
            Step(s, Event(Command.Restore([t]), 0))
            == s.(order := s.order + 1, tasks := s.tasks[t.id := t'], snapshot := s.snapshot[s.index[t.id] := t'],
                  queue := s.queue + [HeapKey(t.id, t.priority, s.order)])
  {
    assert [t][1..] == [];
    assert RestoreAll(s, [t], 0) == RestoreAll(RestoreOne(s, t, 0), [], 0);
  }

  function OvertakingRun(): seq<Event> {
    [Event(Command.Start("a", 0, "", 0), 0), Event(Command.Start("b", 9, "", 0), 0),
        Event(Command.Start("c", 2, "", 0), 0),
     Event(Command.Restore([Fresh("b", 1, 0)]), 0)]
  }

  lemma OvertakingRunEnds()
    ensures Run(Init(1), OvertakingRun()) == Overtaken()
    ensures var s := Run(Init(1), OvertakingRun()[..3]);
            HeapKey("b", 9, 1) in Keys(s)
  {
    hide Step, Started;
    var es := OvertakingRun();
    var s1 := Step(Init(1), es[0]);
    StartA();
    StartWhenFull(s1, "b", 9);
    var s2 := Step(s1, es[1]);
    StartWhenFull(s2, "c", 2);
    var s3 := Step(s2, es[2]);
    RestoreWhenFull(s3, Fresh("b", 1, 0));
    var s4 := Step(s3, es[3]);
    assert s4 == Overtaken();
    RunThree(Init(1), es);
    assert HeapKey("b", 9, 1) in s3.queue by { assert s3.queue[0] == HeapKey("b", 9, 1); }
    RunOne(s3, es[3]);
    RunAppend(Init(1), es[..3], es[3..]);
    assert es == es[..3] + es[3..];
  }

  lemma RunThree(s: State, es: seq<Event>)
    requires |es| >= 3
    ensures Run(s, es[..3]) == Step(Step(Step(s, es[0]), es[1]), es[2])
  {
    hide Step;
    var a := es[..3];
    assert a[1..][1..] == [es[2]];
    RunOne(Step(Step(s, es[0]), es[1]), es[2]);
  }

  /** Dispatch starts the pending task of `d` and leaves that of `k`, which `d` does
      not outrank. */
  predicate Overtakes(s: State, now: int, d: HeapKey, k: HeapKey) {
    && d in Dispatched(s, now) && k in Dispatch(s, now).queue
    && d.id in s.tasks && k.id in s.tasks && s.tasks[d.id].state.Pending? && s.tasks[k.id].state.Pending?
    && !Outranks(s, d, k)
  }

  lemma TopOfThree(q: seq<HeapKey>)
    requires |q| == 3 && Before(q[0], q[1]) && Before(q[0], q[2])
    ensures Top(q) == 0
  {
    var i := Top(q);
    assert !Before(q[0], q[i]);
  }

  lemma FirstWins(s: State)
    requires s.slots == 1 && s.running == 0 && |s.queue| == 3
    requires Before(s.queue[0], s.queue[1]) && Before(s.queue[0], s.queue[2])
    requires s.queue[0].id in s.tasks && s.tasks[s.queue[0].id].state.Pending?
    ensures s.queue[0] in Dispatched(s, 0) && s.queue[1] in Dispatch(s, 0).queue
  {
    TopOfThree(s.queue);
    hide Before, Top;
    var t := DispatchOne(s, 0);
    assert t.queue == s.queue[1..];
    assert t.queue[0] == s.queue[1];
    assert t.running == 1 && t.slots == 1;
    assert Dispatch(t, 0) == t;
  }

  lemma OvertakenOvertakes(edited: State)
    requires edited == Handle(Overtaken(), Event(Command.Finish("a", None, None), 0)).s
    ensures Overtakes(edited, 0, HeapKey("b", 9, 1), HeapKey("c", 2, 2))
  {
    hide Dispatched, Dispatch;
    var o := Overtaken();
    assert edited.queue == o.queue && edited.slots == 1 && edited.running == 0;
    assert edited.tasks["b"] == Fresh("b", 1, 3) && edited.tasks["c"] == Fresh("c", 2, 2);
    FirstWins(edited);
  }

  lemma NotKept(s: State)
    requires HeapKey("b", 9, 1) in Keys(s)
    ensures !KeepsOrder(s, Command.Restore([Fresh("b", 1, 0)]))
  {
    hide Keys;
    var ts := [Fresh("b", 1, 0)];
    assert LastRow(ts, 0) && !RowKeeps(s, ts, 0);
  }

  /** Restoring a known task with another priority leaves its old entry behind,
      and that entry can start it before a task that now outranks it. */
  lemma RestoreCanOvertake()
    ensures !KeepsOrder(Run(Init(1), OvertakingRun()[..3]), OvertakingRun()[3].cmd)
    ensures Overtakes(Handle(Run(Init(1), OvertakingRun()), Event(Command.Finish("a", None, None), 0)).s, 0,
                      HeapKey("b", 9, 1), HeapKey("c", 2, 2))
  {
    hide Run, Overtakes, Handle, KeepsOrder, Keys;
    OvertakingRunEnds();
    NotKept(Run(Init(1), OvertakingRun()[..3]));
    OvertakenOvertakes(Handle(Overtaken(), Event(Command.Finish("a", None, None), 0)).s);
  }
}
