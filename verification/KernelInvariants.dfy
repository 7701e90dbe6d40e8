/** What every step of the kernel keeps, and so what holds in every run. */
module KernelInvariants {
  import opened Wrappers
  import opened Kernel

  // ----- the invariants ------------------------------------------------------

  /** The snapshot is what a rebuild from the registry would give: one row per
      registered id, in submission order, each row the registry's own task, and
      `index` the exact inverse of `orderIds`. */
  ghost predicate SnapshotAgrees(s: State) {
    && |s.snapshot| == |s.orderIds|
    && s.index.Keys == s.tasks.Keys
    && (forall i :: 0 <= i < |s.orderIds| ==>
          s.orderIds[i] in s.index && s.index[s.orderIds[i]] == i && s.snapshot[i] == s.tasks[s.orderIds[i]])
    && (forall id :: id in s.index ==> s.index[id] < |s.orderIds| && s.orderIds[s.index[id]] == id)
    && (forall id :: id in s.tasks ==> s.tasks[id].id == id)
  }

  function DelayedKeys(d: seq<Delayed>): seq<HeapKey> {
    if d == [] then [] else [d[0].key] + DelayedKeys(d[1..])
  }

  ghost function Keys(s: State): multiset<HeapKey> {
    multiset(s.queue) + multiset(DelayedKeys(s.delayed))
  }

  /** No two live entries share an order, and every order was issued already. */
  ghost predicate OrdersDistinct(s: State) {
    && (forall k :: k in Keys(s) ==> Keys(s)[k] == 1 && k.order < s.order)
    && (forall k, k' :: k in Keys(s) && k' in Keys(s) && k.order == k'.order ==> k == k')
  }

  ghost predicate OwnsKey(s: State, id: Id) {
    exists k :: k in Keys(s) && k.id == id
  }

  /** No pending task is lost: it owns an entry that will bring it back. */
  ghost predicate NoLostWork(s: State) {
    forall id :: id in s.tasks && s.tasks[id].state.Pending? ==> OwnsKey(s, id)
  }

  ghost function RunningIds(tasks: map<Id, Task>): set<Id> {
    set id | id in tasks && tasks[id].state.Running?
  }

  /** Slots counted as taken, less tasks that are running. */
  ghost function Drift(s: State): int { s.running - |RunningIds(s.tasks)| }

  /** Everything but work conservation; it also holds between a handler's edit
      and the dispatch that ends it. */
  ghost predicate Core(s: State) {
    SnapshotAgrees(s) && OrdersDistinct(s) && NoLostWork(s) && Drift(s) >= 0 && s.slots >= 1
  }

  /** Work conservation: no free slot while an entry waits in the queue. */
  predicate Idle(s: State) { s.running >= s.slots || s.queue == [] }

  ghost predicate Valid(s: State) { Core(s) && Idle(s) }

  // ----- registry edits ------------------------------------------------------

  lemma RunningIdsUpdate(tasks: map<Id, Task>, id: Id, t: Task)
    ensures RunningIds(tasks[id := t]) ==
            if t.state.Running? then RunningIds(tasks) + {id} else RunningIds(tasks) - {id}
    ensures |RunningIds(tasks[id := t])| ==
            |RunningIds(tasks)| - (if id in RunningIds(tasks) then 1 else 0) + (if t.state.Running? then 1 else 0)
  {
    var before, after := RunningIds(tasks), RunningIds(tasks[id := t]);
    assert after == if t.state.Running? then before + {id} else before - {id};
    hide RunningIds;
    SetSizes(before, id);
  }

  lemma SetSizes(s: set<Id>, id: Id)
    ensures |s + {id}| == |s| + (if id in s then 0 else 1)
    ensures |s - {id}| == |s| - (if id in s then 1 else 0)
  {
    if id in s {
      assert s == (s - {id}) + {id} && s + {id} == s;
    } else {
      assert s - {id} == s;
    }
  }

  /** `s'` is `s` with the registered task `id` replaced by `t`. */
  ghost predicate Edits(s: State, s': State, id: Id, t: Task) {
    && id in s.tasks && t.id == id
    && s'.tasks == s.tasks[id := t]
    && s'.orderIds == s.orderIds && s'.index == s.index
    && id in s.index && s.index[id] < |s.snapshot|
    && s'.snapshot == s.snapshot[s.index[id] := t]
    && s'.slots == s.slots
  }

  /** What `Put` does to a registered task, other fields being free to differ. */
  lemma PutEdits(s: State, s0: State, id: Id, t: Task)
    requires SnapshotAgrees(s) && id in s.tasks && t.id == id
    requires s0.tasks == s.tasks && s0.orderIds == s.orderIds && s0.index == s.index
    requires s0.snapshot == s.snapshot && s0.slots == s.slots
    ensures var r := Put(s0, id, t);
            && Edits(s, r, id, t)
            && r.queue == s0.queue && r.delayed == s0.delayed && r.running == s0.running
            && r.order == s0.order && r.calls == s0.calls
  {}

  lemma EditKeepsSnapshot(s: State, s': State, id: Id, t: Task)
    requires SnapshotAgrees(s) && Edits(s, s', id, t)
    ensures SnapshotAgrees(s')
  {}

  lemma PushKeepsOrders(s: State, s': State, key: HeapKey)
    requires OrdersDistinct(s)
    requires key.order == s.order && s'.order == s.order + 1
    requires Keys(s') == Keys(s) + multiset{key}
    ensures OrdersDistinct(s')
  {}

  lemma OwnedStaysOwned(s: State, s': State, id: Id)
    requires OwnsKey(s, id) && Keys(s) <= Keys(s')
    ensures OwnsKey(s', id)
  {
    var k :| k in Keys(s) && k.id == id;
    assert k in Keys(s');
  }

  lemma EditKeepsWork(s: State, s': State, id: Id, t: Task)
    requires NoLostWork(s) && s'.tasks == s.tasks[id := t] && Keys(s) <= Keys(s')
    requires t.state.Pending? ==> OwnsKey(s', id)
    ensures NoLostWork(s')
  {
    forall i | i in s'.tasks && s'.tasks[i].state.Pending? ensures OwnsKey(s', i) {
      if i != id {
        OwnedStaysOwned(s, s', i);
      }
    }
  }

  lemma EditKeepsDrift(s: State, s': State, id: Id, t: Task)
    requires id in s.tasks && s'.tasks == s.tasks[id := t] && Drift(s) >= 0
    requires !t.state.Running? || s.tasks[id].state.Running?
    requires s'.running == if t.state.Running? then s.running else Released(s.tasks[id], s.running)
    ensures Drift(s') == Drift(s)
  {
    RunningIdsUpdate(s.tasks, id, t);
  }

  /** A handler's edit that leaves the entries alone keeps Core. */
  lemma EditKeepsCore(s: State, s': State, id: Id, t: Task)
    requires Core(s) && Edits(s, s', id, t)
    requires Keys(s') == Keys(s) && s'.order == s.order
    requires t.state.Pending? ==> s.tasks[id].state.Pending?
    requires !t.state.Running? || s.tasks[id].state.Running?
    requires s'.running == if t.state.Running? then s.running else Released(s.tasks[id], s.running)
    ensures Core(s') && Drift(s') == Drift(s)
  {
    EditKeepsSnapshot(s, s', id, t);
    EditKeepsDrift(s, s', id, t);
    if t.state.Pending? {
      OwnedStaysOwned(s, s', id);
    }
    EditKeepsWork(s, s', id, t);
  }

  /** So does one that makes the task pending and gives it a fresh entry. */
  lemma RequeueKeepsCore(s: State, s': State, id: Id, t: Task)
    requires Core(s) && Edits(s, s', id, t)
    requires Keys(s') == Keys(s) + multiset{HeapKey(id, t.priority, s.order)} && s'.order == s.order + 1
    requires t.state.Pending?
    requires s'.running == Released(s.tasks[id], s.running)
    ensures Core(s') && Drift(s') == Drift(s)
  {
    var key := HeapKey(id, t.priority, s.order);
    EditKeepsSnapshot(s, s', id, t);
    EditKeepsDrift(s, s', id, t);
    PushKeepsOrders(s, s', key);
    assert key in Keys(s');
    EditKeepsWork(s, s', id, t);
  }

  // ----- dispatch ------------------------------------------------------------

  lemma PopKeepsOrders(s: State, r: State, key: HeapKey)
    requires OrdersDistinct(s) && Keys(s) == Keys(r) + multiset{key} && r.order == s.order
    ensures OrdersDistinct(r) && key !in Keys(r)
  {
    assert key in Keys(s);
    forall k | k in Keys(r) ensures k in Keys(s) && Keys(r)[k] == 1 && k != key {}
  }

  lemma PopKeepsWork(s: State, r: State, key: HeapKey)
    requires NoLostWork(s) && Keys(s) == Keys(r) + multiset{key}
    requires key.id in s.tasks && s.tasks[key.id].state.Pending? ==>
               key.id in r.tasks && r.tasks == s.tasks[key.id := r.tasks[key.id]] && !r.tasks[key.id].state.Pending?
    requires !(key.id in s.tasks && s.tasks[key.id].state.Pending?) ==> r.tasks == s.tasks
    ensures NoLostWork(r)
  {
    forall id | id in r.tasks && r.tasks[id].state.Pending? ensures OwnsKey(r, id) {
      assert OwnsKey(s, id);
      var k :| k in Keys(s) && k.id == id;
      assert k in Keys(r);
    }
  }

  lemma DispatchOnePops(s: State, now: int)
    requires s.queue != []
    ensures Keys(s) == Keys(DispatchOne(s, now)) + multiset{s.queue[Top(s.queue)]}
  {}

  predicate Stale(s: State, key: HeapKey) {
    key.id !in s.tasks || !s.tasks[key.id].state.Pending?
  }

  lemma DispatchOneStarts(s: State, now: int)
    requires SnapshotAgrees(s) && s.queue != [] && !Stale(s, s.queue[Top(s.queue)])
    ensures var r, id := DispatchOne(s, now), s.queue[Top(s.queue)].id;
            && id in r.tasks && Edits(s, r, id, r.tasks[id]) && r.tasks[id].state.Running?
            && r.running == s.running + 1 && r.order == s.order && r.delayed == s.delayed
  {}

  lemma StartKeepsCore(s: State, r: State, key: HeapKey)
    requires Core(s) && !Stale(s, key)
    requires key.id in r.tasks && Edits(s, r, key.id, r.tasks[key.id]) && r.tasks[key.id].state.Running?
    requires r.running == s.running + 1 && r.order == s.order && Keys(s) == Keys(r) + multiset{key}
    ensures Core(r) && Drift(r) == Drift(s)
  {
    RunningIdsUpdate(s.tasks, key.id, r.tasks[key.id]);
    EditKeepsSnapshot(s, r, key.id, r.tasks[key.id]);
    PopKeepsOrders(s, r, key);
    PopKeepsWork(s, r, key);
  }

  lemma SkipKeepsCore(s: State, r: State, key: HeapKey)
    requires Core(s) && Stale(s, key)
    requires r == s.(queue := r.queue) && Keys(s) == Keys(r) + multiset{key}
    ensures Core(r) && Drift(r) == Drift(s)
  {
    PopKeepsOrders(s, r, key);
    PopKeepsWork(s, r, key);
  }

  lemma DispatchOneKeepsCore(s: State, now: int)
    requires Core(s) && s.queue != []
    requires s.running < s.slots
    ensures var r := DispatchOne(s, now);
            Core(r) && Drift(r) == Drift(s) && s.running <= r.running <= r.slots == s.slots && r.orderIds == s.orderIds
  {
    var key := s.queue[Top(s.queue)];
    var r := DispatchOne(s, now);
    DispatchOnePops(s, now);
    if Stale(s, key) {
      SkipKeepsCore(s, r, key);
    } else {
      DispatchOneStarts(s, now);
      StartKeepsCore(s, r, key);
    }
  }

  lemma {:induction false} DispatchKeepsCore(s: State, now: int)
    requires Core(s)
    ensures var r := Dispatch(s, now);
            && Valid(r) && Drift(r) == Drift(s) && r.orderIds == s.orderIds && r.slots == s.slots
            && s.running <= r.running && (r.running == s.running || r.running <= r.slots)
    decreases |s.queue|
  {
    if s.running < s.slots && s.queue != [] {
      DispatchOneKeepsCore(s, now);
      DispatchKeepsCore(DispatchOne(s, now), now);
    }
  }

  // ----- one step ------------------------------------------------------------

  /** Flushing the delayed list moves entries; it makes and loses none. */
  lemma {:induction false} DelayedSplit(d: seq<Delayed>, now: int)
    ensures multiset(DelayedKeys(d)) == multiset(Ready(d, now)) + multiset(DelayedKeys(NotReady(d, now)))
    decreases |d|
  {
    if d != [] {
      DelayedSplit(d[1..], now);
      var key, ready, rest := d[0].key, Ready(d[1..], now), NotReady(d[1..], now);
      assert multiset([key] + DelayedKeys(d[1..])) == multiset{key} + multiset(DelayedKeys(d[1..]));
      if d[0].at <= now {
        assert multiset([key] + ready) == multiset{key} + multiset(ready);
        assert NotReady(d, now) == rest;
      } else {
        assert ([d[0]] + rest)[1..] == rest;
        assert multiset([key] + DelayedKeys(rest)) == multiset{key} + multiset(DelayedKeys(rest));
        assert Ready(d, now) == ready;
      }
    }
  }

  lemma {:induction false} DelayedKeysAppend(d: seq<Delayed>, x: Delayed)
    ensures DelayedKeys(d + [x]) == DelayedKeys(d) + [x.key]
  {
    if d != [] {
      DelayedKeysAppend(d[1..], x);
      assert (d + [x])[1..] == d[1..] + [x];
    }
  }

  lemma MoveDelayedKeepsKeys(s: State, now: int)
    ensures Keys(MoveDelayed(s, now)) == Keys(s)
  {
    DelayedSplit(s.delayed, now);
    var ready := Ready(s.delayed, now);
    assert multiset(s.queue + ready) == multiset(s.queue) + multiset(ready);
  }

  lemma PushQueueKeys(s: State, s': State, key: HeapKey)
    requires s'.queue == s.queue + [key] && s'.delayed == s.delayed
    ensures Keys(s') == Keys(s) + multiset{key}
  {}

  lemma PushDelayedKeys(s: State, s': State, at: int, key: HeapKey)
    requires s'.queue == s.queue && s'.delayed == s.delayed + [Delayed(at, key)]
    ensures Keys(s') == Keys(s) + multiset{key}
  {
    DelayedKeysAppend(s.delayed, Delayed(at, key));
  }

  lemma SameKeysKeepCore(s: State, r: State)
    requires Core(s) && Keys(r) == Keys(s) && r.order == s.order && r.tasks == s.tasks && r.running == s.running
    requires r.orderIds == s.orderIds && r.index == s.index && r.snapshot == s.snapshot && r.slots >= 1
    ensures Core(r) && Drift(r) == Drift(s)
  {
    hide Keys;
    forall id | id in r.tasks && r.tasks[id].state.Pending? ensures OwnsKey(r, id) {
      OwnedStaysOwned(s, r, id);
    }
  }

  lemma MoveDelayedKeepsCore(s: State, now: int)
    requires Core(s)
    ensures Core(MoveDelayed(s, now)) && Drift(MoveDelayed(s, now)) == Drift(s)
  {
    MoveDelayedKeepsKeys(s, now);
    SameKeysKeepCore(s, MoveDelayed(s, now));
  }

  lemma UpsertNewId(s: State, t: Task)
    requires SnapshotAgrees(s) && t.id !in s.tasks
    ensures var s1 := s.(tasks := s.tasks[t.id := t]);
            && Upsert(s1, t.id) == s1.(orderIds := s.orderIds + [t.id], index := s.index[t.id := |s.orderIds|],
                                       snapshot := s.snapshot + [t])
            && SnapshotAgrees(Upsert(s1, t.id))
  {}

  /** Registering a fresh pending task, with its entry, keeps Core. */
  lemma AddPendingKeepsCore(s: State, r: State, t: Task)
    requires Core(s) && t.id !in s.tasks && t.state.Pending?
    requires r.tasks == s.tasks[t.id := t] && SnapshotAgrees(r) && r.running == s.running && r.slots == s.slots
    requires Keys(r) == Keys(s) + multiset{HeapKey(t.id, t.priority, s.order)} && r.order == s.order + 1
    ensures Core(r) && Drift(r) == Drift(s)
  {
    var key := HeapKey(t.id, t.priority, s.order);
    RunningIdsUpdate(s.tasks, t.id, t);
    PushKeepsOrders(s, r, key);
    assert key in Keys(r);
    EditKeepsWork(s, r, t.id, t);
  }

  lemma CoreIds(s: State, id: Id)
    requires Core(s) && id in s.tasks
    ensures s.tasks[id].id == id
  {}

  lemma SameEntriesSameKeys(s: State, s': State)
    requires s'.queue == s.queue && s'.delayed == s.delayed
    ensures Keys(s') == Keys(s)
  {}

  /** What a handler's edit must show for `StepKeepsValid`. */
  ghost predicate GoodEdit(s: State, e: Edit) {
    && Core(e.s) && Drift(e.s) == Drift(s)
    && (e.Quiet? ==> e.s.running == s.running && e.s.slots == s.slots && e.s.queue == s.queue)
  }

  lemma StartEdit(s: State, id: Id, priority: nat, info: Payload, maxAttempts: nat, now: int)
    requires Core(s)
    ensures GoodEdit(s, HandleStart(s, id, priority, info, maxAttempts, now))
  {
    if id !in s.tasks {
      var t := Task(id, priority, info, Pending, None, None, None, 0, maxAttempts, now, None, None, s.order, false);
      var s0 := s.(order := s.order + 1);
      UpsertNewId(s0, t);
      var s1 := Upsert(s0.(tasks := s.tasks[id := t]), id);
      var key := HeapKey(id, priority, s.order);
      AddPendingKeepsCore(s, s1.(queue := s1.queue + [key]), t);
    }
  }

  /** An edit that replaces a task and leaves every entry where it is. */
  lemma QuietTaskEdit(s: State, s0: State, id: Id, t: Task)
    requires Core(s) && id in s.tasks && t.id == id
    requires s0 == s.(running := s0.running, calls := s0.calls)
    requires t.state.Pending? ==> s.tasks[id].state.Pending?
    requires !t.state.Running? || s.tasks[id].state.Running?
    requires s0.running == if t.state.Running? then s.running else Released(s.tasks[id], s.running)
    ensures var r := Put(s0, id, t);
            Core(r) && Drift(r) == Drift(s) && r.running == s0.running && r.slots == s.slots && r.queue == s.queue
  {
    hide SnapshotAgrees, Keys, OrdersDistinct, NoLostWork, Drift, Edits, Put;
    PutEdits(s, s0, id, t);
    var r := Put(s0, id, t);
    assert r.slots == s.slots by { EditsSlots(s, r, id, t); }
    SameEntriesSameKeys(s, r);
    EditKeepsCore(s, r, id, t);
  }

  lemma EditsSlots(s: State, r: State, id: Id, t: Task)
    requires Edits(s, r, id, t)
    ensures r.slots == s.slots
  {}

  lemma PauseEdit(s: State, id: Id, checkpoint: Option<Payload>)
    requires Core(s)
    ensures GoodEdit(s, HandlePause(s, id, checkpoint))
  {
    hide Core, Put, Drift;
    if id in s.tasks && (s.tasks[id].state.Running? || s.tasks[id].state.Pending?) {
      CoreIds(s, id);
      var t := s.tasks[id];
      var t' := t.(state := Paused, checkpoint := OrElse(checkpoint, t.checkpoint));
      if t.state.Running? {
        QuietTaskEdit(s, s.(running := SaturatingDec(s.running), calls := s.calls + [OnPause(t', t'.checkpoint)]), id,
            t');
      } else {
        QuietTaskEdit(s, s, id, t');
      }
    }
  }

  lemma ResumeEdit(s: State, id: Id, checkpoint: Option<Payload>)
    requires Core(s)
    ensures GoodEdit(s, HandleResume(s, id, checkpoint))
  {
    hide SnapshotAgrees, Keys, OrdersDistinct, NoLostWork, Drift, Edits, Put;
    if id in s.tasks && s.tasks[id].state.Paused? {
      CoreIds(s, id);
      var t := s.tasks[id];
      var t' := t.(state := Pending, resume := true, checkpoint := OrElse(checkpoint, t.checkpoint));
      var s0 := s.(order := s.order + 1, queue := s.queue + [HeapKey(t.id, t.priority, s.order)]);
      PutEdits(s, s0, id, t');
      PushQueueKeys(s, Put(s0, id, t'), HeapKey(id, t.priority, s.order));
      RequeueKeepsCore(s, Put(s0, id, t'), id, t');
    }
  }

  lemma FinishEdit(s: State, id: Id, result: Option<Payload>, checkpoint: Option<Payload>, now: int)
    requires Core(s)
    ensures GoodEdit(s, HandleFinish(s, id, result, checkpoint, now))
  {
    hide Core, Put, Drift;
    if id in s.tasks && s.tasks[id].state.Running? {
      CoreIds(s, id);
      var t := s.tasks[id];
      var t' := t.(state := Finished, finishedMs := Some(now),
                   result := OrElse(result, t.result), checkpoint := OrElse(checkpoint, t.checkpoint));
      QuietTaskEdit(s, s.(running := SaturatingDec(s.running), calls := s.calls + [OnFinish(t')]), id, t');
    }
  }

  lemma KillEdit(s: State, id: Id, reason: Option<string>, now: int)
    requires Core(s)
    ensures GoodEdit(s, HandleKill(s, id, reason, now))
  {
    hide Core, Put, Drift;
    if id in s.tasks && !s.tasks[id].state.Terminal() {
      CoreIds(s, id);
      var t := s.tasks[id];
      var t' := t.(state := Killed, error := reason, finishedMs := Some(now));
      QuietTaskEdit(s, s.(running := Released(t, s.running), calls := s.calls + [OnKill(t', reason)]), id, t');
    }
  }

  lemma RetryKeepsCore(s: State, id: Id, t: Task, error: string, delayMs: nat, now: int)
    requires Core(s) && id in s.tasks && t.id == id
    ensures var r := Retry(s, id, s.tasks[id], t, error, delayMs, now);
            Core(r) && Drift(r) == Drift(s)
  {
    hide SnapshotAgrees, Keys, OrdersDistinct, NoLostWork, Drift, Edits, Put;
    var t' := t.(state := Pending, resume := false);
    var key := HeapKey(id, t.priority, s.order);
    var s0 := s.(running := Released(s.tasks[id], s.running), order := s.order + 1,
                 queue := if delayMs > 0 then s.queue else s.queue + [key],
                 delayed := if delayMs > 0 then s.delayed + [Delayed(now + delayMs, key)] else s.delayed,
                 calls := s.calls + [OnReschedule(t', error)]);
    var r := Put(s0, id, t');
    PutEdits(s, s0, id, t');
    if delayMs > 0 { PushDelayedKeys(s, r, now + delayMs, key); } else { PushQueueKeys(s, r, key); }
    RequeueKeepsCore(s, r, id, t');
  }

  lemma RescheduleEdit(s: State, id: Id, error: string, delayMs: nat, now: int)
    requires Core(s)
    ensures GoodEdit(s, HandleReschedule(s, id, error, delayMs, now))
  {
    hide Core, Put, Drift, Retry;
    if id in s.tasks {
      CoreIds(s, id);
      var t0 := s.tasks[id];
      var t := t0.(attempts := t0.attempts + 1, error := Some(error));
      if Exhausted(t) {
        var t' := t.(state := Killed, finishedMs := Some(now));
        QuietTaskEdit(s, s.(running := Released(t0, s.running), calls := s.calls + [OnKill(t', Some(error))]), id, t');
      } else {
        RetryKeepsCore(s, id, t, error, delayMs, now);
      }
    }
  }

  lemma CheckpointEdit(s: State, id: Id, value: Payload)
    requires Core(s)
    ensures GoodEdit(s, HandleCheckpoint(s, id, value))
  {
    hide Core, Put, Drift;
    if id in s.tasks {
      CoreIds(s, id);
      QuietTaskEdit(s, s, id, s.tasks[id].(checkpoint := Some(value)));
    }
  }

  lemma UpdateEdit(s: State, id: Id, info: Payload)
    requires Core(s)
    ensures GoodEdit(s, HandleUpdate(s, id, info))
  {
    hide Core, Put, Drift;
    if id in s.tasks {
      CoreIds(s, id);
      QuietTaskEdit(s, s, id, s.tasks[id].(info := info));
    }
  }

  // ----- restore, and the slots it leaks ---------------------------------------

  ghost function Names(ts: seq<Task>): set<Id> { set i | 0 <= i < |ts| :: ts[i].id }

  /** The tasks a message takes out of Running without giving their slot back:
      those a restore overwrites. */
  ghost function Leaked(s: State, cmd: Command): set<Id> {
    if cmd.Restore? then Names(cmd.tasks) * RunningIds(s.tasks) else {}
  }

  lemma RestoreOneRow(s: State, t: Task, now: int)
    requires SnapshotAgrees(s)
    ensures var r := RestoreOne(s, t, now);
            && SnapshotAgrees(r) && s.orderIds <= r.orderIds
            && r.tasks == s.tasks[t.id := if t.state.Terminal() then t else Requeued(t, s.order, now)]
  {
    var t' := if t.state.Terminal() then t else Requeued(t, s.order, now);
    var s0 := if t.state.Terminal() then s else s.(order := s.order + 1);
    hide SnapshotAgrees, Upsert;
    SameRows(s, s0);
    if t.id !in s.tasks { UpsertNewId(s0, t'); } else { UpsertKnownId(s0, t'); }
    SameRows(Upsert(s0.(tasks := s.tasks[t.id := t']), t.id), RestoreOne(s, t, now));
  }

  lemma SameRows(s: State, r: State)
    requires SnapshotAgrees(s)
    requires r.tasks == s.tasks && r.orderIds == s.orderIds && r.index == s.index && r.snapshot == s.snapshot
    ensures SnapshotAgrees(r)
  {}

  lemma UpsertKnownId(s: State, t: Task)
    requires SnapshotAgrees(s) && t.id in s.tasks
    ensures var r := Upsert(s.(tasks := s.tasks[t.id := t]), t.id);
            SnapshotAgrees(r) && r.orderIds == s.orderIds && r.tasks == s.tasks[t.id := t]
  {
    EditKeepsSnapshot(s, Upsert(s.(tasks := s.tasks[t.id := t]), t.id), t.id, t);
  }

  lemma RestoreOneKeys(s: State, t: Task, now: int)
    ensures var r := RestoreOne(s, t, now);
            && r.running == s.running && r.slots == s.slots && r.delayed == s.delayed
            && if t.state.Terminal() then Keys(r) == Keys(s) && r.order == s.order
               else Keys(r) == Keys(s) + multiset{HeapKey(t.id, t.priority, s.order)} && r.order == s.order + 1
  {
    var r := RestoreOne(s, t, now);
    if !t.state.Terminal() {
      PushQueueKeys(s, r, HeapKey(t.id, t.priority, s.order));
    }
  }

  lemma RestoreOneKeepsCore(s: State, t: Task, now: int)
    requires Core(s)
    ensures var r := RestoreOne(s, t, now);
            && Core(r) && RunningIds(r.tasks) == RunningIds(s.tasks) - {t.id}
            && r.running == s.running && r.slots == s.slots && s.orderIds <= r.orderIds
  {
    var r := RestoreOne(s, t, now);
    RestoreOneRow(s, t, now);
    RestoreOneKeys(s, t, now);
    hide Keys, SnapshotAgrees, RestoreOne;
    RunningIdsUpdate(s.tasks, t.id, r.tasks[t.id]);
    if !t.state.Terminal() {
      var key := HeapKey(t.id, t.priority, s.order);
      PushKeepsOrders(s, r, key);
      assert key in Keys(r);
    }
    EditKeepsWork(s, r, t.id, r.tasks[t.id]);
  }

  lemma NamesOfNone()
    ensures Names([]) == {}
  {}

  lemma NamesCons(ts: seq<Task>)
    requires ts != []
    ensures Names(ts) == {ts[0].id} + Names(ts[1..])
  {
    forall id | id in Names(ts) ensures id in {ts[0].id} + Names(ts[1..]) {
      var i :| 0 <= i < |ts| && ts[i].id == id;
      if i > 0 { assert ts[1..][i - 1].id == id; }
    }
    forall id | id in Names(ts[1..]) ensures id in Names(ts) {
      var i :| 0 <= i < |ts[1..]| && ts[1..][i].id == id;
      assert ts[i + 1].id == id;
    }
  }

  lemma {:induction false} RestoreAllKeepsCore(s: State, ts: seq<Task>, now: int)
    requires Core(s)
    ensures var r := RestoreAll(s, ts, now);
            && Core(r) && RunningIds(r.tasks) == RunningIds(s.tasks) - Names(ts)
            && r.running == s.running && r.slots == s.slots && s.orderIds <= r.orderIds
    decreases |ts|
  {
    hide Core, RestoreOne, Names, RunningIds;
    if ts == [] {
      NamesOfNone();
    } else {
      RestoreOneKeepsCore(s, ts[0], now);
      NamesCons(ts);
      RestoreAllKeepsCore(RestoreOne(s, ts[0], now), ts[1..], now);
    }
  }

  lemma RestoreEdit(s: State, ts: seq<Task>, now: int)
    requires Core(s)
    ensures Core(RestoreAll(s, ts, now))
    ensures Drift(RestoreAll(s, ts, now)) == Drift(s) + |Names(ts) * RunningIds(s.tasks)|
  {
    hide Core, RestoreAll, Names, RunningIds;
    RestoreAllKeepsCore(s, ts, now);
    var before := RunningIds(s.tasks);
    assert before == (before - Names(ts)) + (Names(ts) * before);
  }

  /** The edit of any message keeps Core, and drifts by what a restore leaks. */
  lemma HandleKeepsCore(s: State, e: Event)
    requires Core(s)
    ensures Core(Handle(s, e).s) && Drift(Handle(s, e).s) == Drift(s) + |Leaked(s, e.cmd)|
    ensures !e.cmd.Restore? ==> Handle(s, e).ThenDispatch? || GoodEdit(s, Handle(s, e))
  {
    hide Core, Put, Drift, RestoreAll, MoveDelayed;
    match e.cmd
    case Start(id, priority, info, maxAttempts) => StartEdit(s, id, priority, info, maxAttempts, e.now);
    case Pause(id, checkpoint) => PauseEdit(s, id, checkpoint);
    case Resume(id, checkpoint) => ResumeEdit(s, id, checkpoint);
    case Kill(id, reason) => KillEdit(s, id, reason, e.now);
    case Finish(id, result, checkpoint) => FinishEdit(s, id, result, checkpoint, e.now);
    case Reschedule(id, error, delayMs) => RescheduleEdit(s, id, error, delayMs, e.now);
    case Checkpoint(id, value) => CheckpointEdit(s, id, value);
    case Update(id, info) => UpdateEdit(s, id, info);
    case Restore(ts) => RestoreEdit(s, ts, e.now);
    case SetSlots(slots) => SetSlotsEdit(s, slots);
    case Tick => MoveDelayedKeepsCore(s, e.now);
  }

  lemma SetSlotsEdit(s: State, slots: nat)
    requires Core(s)
    ensures Core(s.(slots := Max(slots, 1))) && Drift(s.(slots := Max(slots, 1))) == Drift(s)
  {
    SameKeysKeepCore(s, s.(slots := Max(slots, 1)));
  }

  /** The central step lemma: whatever the message, the snapshot still agrees
      with the registry, no pending task is lost, no slot idles beside a waiting
      entry, and the slot counter drifts by exactly what a restore leaks. */
  lemma StepKeepsValid(s: State, e: Event)
    requires Valid(s)
    ensures Valid(Step(s, e)) && Drift(Step(s, e)) == Drift(s) + |Leaked(s, e.cmd)|
  {
    hide Core, Drift, Handle, Dispatch, Leaked;
    HandleKeepsCore(s, e);
    var edit := Handle(s, e);
    if edit.ThenDispatch? {
      DispatchKeepsCore(edit.s, e.now);
    } else {
      QuietIsNotRestore(s, e);
    }
  }

  lemma QuietIsNotRestore(s: State, e: Event)
    requires Handle(s, e).Quiet?
    ensures !e.cmd.Restore?
  {}

  lemma RescheduleForms(s: State, id: Id, error: string, delayMs: nat, now: int)
    ensures var e := Event(Command.Reschedule(id, error, delayMs), now);
            if id !in s.tasks then Step(s, e) == s
            else
              var t0 := s.tasks[id];
              var t := Tried(t0, error);
              Step(s, e) == Dispatch(if Exhausted(t) then GiveUp(s, id, t0, t, error, now)
                                     else Retry(s, id, t0, t, error, delayMs, now), now)
  {
    hide Dispatch, GiveUp, Retry, RestoreAll, MoveDelayed;
  }
}
