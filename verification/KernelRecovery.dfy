/** Crash recovery: a saved snapshot restored into a fresh actor. */
module KernelRecovery {
  import opened Wrappers
  import opened Kernel
  import opened KernelInvariants
  import opened KernelRuns
  import opened KernelPriority

  predicate Live(t: Task) { !t.state.Terminal() }

  /** The rows a restore installs; live ones are requeued under orders from `o` on. */
  function Installed(ts: seq<Task>, o: nat, now: int): seq<Task> {
    if ts == [] then []
    else if Live(ts[0]) then [Requeued(ts[0], o, now)] + Installed(ts[1..], o + 1, now)
    else [ts[0]] + Installed(ts[1..], o, now)
  }

  function LiveKeys(ts: seq<Task>, o: nat): seq<HeapKey> {
    if ts == [] then []
    else if Live(ts[0]) then [HeapKey(ts[0].id, ts[0].priority, o)] + LiveKeys(ts[1..], o + 1)
    else LiveKeys(ts[1..], o)
  }

  function LiveCount(ts: seq<Task>): nat {
    if ts == [] then 0 else (if Live(ts[0]) then 1 else 0) + LiveCount(ts[1..])
  }

  function IdsOfRows(ts: seq<Task>): seq<Id> { seq(|ts|, i requires 0 <= i < |ts| => ts[i].id) }

  predicate DistinctRows(ts: seq<Task>) { forall i, j :: 0 <= i < j < |ts| ==> ts[i].id != ts[j].id }

  // ----- the state before dispatch ---------------------------------------------------

  lemma RestoreFreshRow(s: State, t: Task, now: int)
    requires Core(s) && t.id !in s.tasks
    ensures var r := RestoreOne(s, t, now);
            && r.tasks.Keys == s.tasks.Keys + {t.id}
            && r.snapshot == s.snapshot + [if Live(t) then Requeued(t, s.order, now) else t]
            && r.orderIds == s.orderIds + [t.id]
            && r.queue == s.queue + (if Live(t) then [HeapKey(t.id, t.priority, s.order)] else [])
            && r.order == s.order + (if Live(t) then 1 else 0)
            && r.delayed == s.delayed && r.calls == s.calls && r.running == s.running && r.slots == s.slots
  {
    hide OrdersDistinct, NoLostWork, Drift, SnapshotAgrees, Upsert;
    var t' := if t.state.Terminal() then t else Requeued(t, s.order, now);
    var s0 := if t.state.Terminal() then s else s.(order := s.order + 1);
    SameSnapshot(s, s0);
    UpsertNewId(s0, t');
  }

  lemma SameSnapshot(s: State, s0: State)
    requires SnapshotAgrees(s) && s0 == s.(order := s0.order)
    ensures SnapshotAgrees(s0)
  {}

  /** A fresh row, reduced to what the induction below needs. */
  lemma FreshStep(s: State, ts: seq<Task>, now: int)
    requires Core(s) && ts != [] && DistinctRows(ts) && forall i :: 0 <= i < |ts| ==> ts[i].id !in s.tasks
    ensures var r := RestoreOne(s, ts[0], now);
            && Core(r) && DistinctRows(ts[1..]) && (forall i :: 0 <= i < |ts[1..]| ==> ts[1..][i].id !in r.tasks)
            && r.snapshot + Installed(ts[1..], r.order, now) == s.snapshot + Installed(ts, s.order, now)
            && r.orderIds + IdsOfRows(ts[1..]) == s.orderIds + IdsOfRows(ts)
            && r.queue + LiveKeys(ts[1..], r.order) == s.queue + LiveKeys(ts, s.order)
            && r.delayed == s.delayed && r.calls == s.calls && r.running == s.running && r.slots == s.slots
  {
    hide Core, RestoreOne, Requeued, Installed, LiveKeys, Live;
    var r := RestoreOne(s, ts[0], now);
    RestoreFreshRow(s, ts[0], now);
    RestoreOneKeepsCore(s, ts[0], now);
    assert IdsOfRows(ts) == [ts[0].id] + IdsOfRows(ts[1..]);
    assert forall i :: 0 <= i < |ts[1..]| ==> ts[1..][i] == ts[i + 1];
    hide IdsOfRows;
    FreshParts(ts, s.order, now);
  }

  lemma FreshParts(ts: seq<Task>, o: nat, now: int)
    requires ts != []
    ensures Installed(ts, o, now)
         == [if Live(ts[0]) then Requeued(ts[0], o, now) else ts[0]]
            + Installed(ts[1..], o + (if Live(ts[0]) then 1 else 0), now)
    ensures LiveKeys(ts, o)
         == (if Live(ts[0]) then [HeapKey(ts[0].id, ts[0].priority, o)] else [])
            + LiveKeys(ts[1..], o + (if Live(ts[0]) then 1 else 0))
  {
    hide Requeued, Live;
  }

  lemma {:induction false} RestoreFresh(s: State, ts: seq<Task>, now: int)
    requires Core(s) && DistinctRows(ts) && forall i :: 0 <= i < |ts| ==> ts[i].id !in s.tasks
    ensures var r := RestoreAll(s, ts, now);
            && Core(r)
            && r.snapshot == s.snapshot + Installed(ts, s.order, now)
            && r.orderIds == s.orderIds + IdsOfRows(ts)
            && r.queue == s.queue + LiveKeys(ts, s.order)
            && r.delayed == s.delayed && r.calls == s.calls && r.running == s.running && r.slots == s.slots
    decreases |ts|
  {
    hide Core, RestoreOne, DistinctRows;
    if ts != [] {
      FreshStep(s, ts, now);
      RestoreFresh(RestoreOne(s, ts[0], now), ts[1..], now);
    }
  }

  lemma {:induction false} InstalledAt(ts: seq<Task>, o: nat, now: int, i: nat)
    requires i < |ts|
    ensures |Installed(ts, o, now)| == |ts|
    ensures Installed(ts, o, now)[i] ==
            if Live(ts[i]) then Requeued(ts[i], o + LiveCount(ts[..i]), now) else ts[i]
    decreases |ts|
  {
    if |ts| > 1 {
      InstalledAt(ts[1..], if Live(ts[0]) then o + 1 else o, now, if i == 0 then 0 else i - 1);
    }
    if i > 0 {
      assert ts[..i][1..] == ts[1..][..i - 1];
    }
  }

  /** A live row's entry: orders follow row positions. */
  function EntryOf(ts: seq<Task>, o: nat, i: nat): HeapKey
    requires i < |ts|
  {
    HeapKey(ts[i].id, ts[i].priority, o + LiveCount(ts[..i]))
  }

  lemma {:induction false} EntriesAreLiveRows(ts: seq<Task>, o: nat)
    ensures forall i :: 0 <= i < |ts| && Live(ts[i]) ==> EntryOf(ts, o, i) in LiveKeys(ts, o)
    ensures forall k :: k in LiveKeys(ts, o) ==> exists i :: 0 <= i < |ts| && Live(ts[i]) && k == EntryOf(ts, o, i)
    ensures |LiveKeys(ts, o)| == LiveCount(ts)
    decreases |ts|
  {
    if ts != [] {
      var o' := if Live(ts[0]) then o + 1 else o;
      EntriesAreLiveRows(ts[1..], o');
      forall i | 0 < i < |ts| ensures EntryOf(ts, o, i) == EntryOf(ts[1..], o', i - 1) {
        assert ts[..i][1..] == ts[1..][..i - 1];
      }
      forall i | 0 <= i < |ts| && Live(ts[i]) ensures EntryOf(ts, o, i) in LiveKeys(ts, o) {
        if i > 0 { assert EntryOf(ts[1..], o', i - 1) in LiveKeys(ts[1..], o'); }
      }
      forall k | k in LiveKeys(ts, o)
        ensures exists i :: 0 <= i < |ts| && Live(ts[i]) && k == EntryOf(ts, o, i) {
        if k in LiveKeys(ts[1..], o') {
          var i :| 0 <= i < |ts[1..]| && Live(ts[1..][i]) && k == EntryOf(ts[1..], o', i);
          assert k == EntryOf(ts, o, i + 1);
        } else {
          assert k == EntryOf(ts, o, 0);
        }
      }
    }
  }

  lemma {:induction false} LiveCountMonotone(ts: seq<Task>, j: nat, i: nat)
    requires j < i <= |ts| && Live(ts[j])
    ensures LiveCount(ts[..j]) < LiveCount(ts[..i])
    decreases |ts|
  {
    assert ts[..i][1..] == ts[1..][..i - 1];
    if j > 0 {
      assert ts[..j][1..] == ts[1..][..j - 1];
      LiveCountMonotone(ts[1..], j - 1, i - 1);
    }
  }

  // ----- who is dispatched -----------------------------------------------------------

  /** Live row j goes before live row i: higher priority, then the earlier row. */
  predicate Outranks(ts: seq<Task>, j: nat, i: nat)
    requires j < |ts| && i < |ts|
  {
    Live(ts[j]) && (ts[j].priority > ts[i].priority || (ts[j].priority == ts[i].priority && j < i))
  }

  /** The live tasks that go before row i. */
  ghost function Outranking(ts: seq<Task>, i: nat): set<Id>
    requires i < |ts|
  {
    set j | 0 <= j < |ts| && Outranks(ts, j, i) :: ts[j].id
  }

  lemma RankIsOrder(ts: seq<Task>, o: nat, j: nat, i: nat)
    requires j < |ts| && i < |ts| && i != j && Live(ts[i]) && Live(ts[j])
    ensures Outranks(ts, j, i) <==> Before(EntryOf(ts, o, j), EntryOf(ts, o, i))
  {
    if j < i { LiveCountMonotone(ts, j, i); } else { LiveCountMonotone(ts, i, j); }
  }

  ghost predicate NoneStale(s: State) {
    (forall k :: k in s.queue ==> !Stale(s, k)) && DistinctIds(s.queue)
  }

  lemma WithoutKeepsDistinct(q: seq<HeapKey>, i: nat)
    requires i < |q| && DistinctIds(q)
    ensures DistinctIds(Without(q, i)) && forall k :: k in Without(q, i) ==> k in q && k.id != q[i].id
  {
    var r := Without(q, i);
    forall a | 0 <= a < |r| ensures r[a] == q[if a < i then a else a + 1] {}
  }

  lemma TurnQueueIs(s: State, now: int)
    requires s.queue != []
    ensures DispatchOne(s, now).queue == Without(s.queue, Top(s.queue))
  {}

  /** With no stale entry, each entry is dispatched or still waiting. */
  lemma {:induction false} DispatchedOrWaiting(s: State, now: int)
    requires Core(s) && NoneStale(s)
    ensures forall k :: k in s.queue ==> k in Dispatched(s, now) || k in Dispatch(s, now).queue
    decreases |s.queue|
  {
    hide Core, DispatchOne, DistinctIds;
    if s.running < s.slots && s.queue != [] {
      var i := Top(s.queue);
      var key, r := s.queue[i], DispatchOne(s, now);
      assert Core(r) by { DispatchOneKeepsCore(s, now); }
      TurnStarts(s, now);
      TurnQueueIs(s, now);
      WithoutKeepsDistinct(s.queue, i);
      DispatchedOrWaiting(r, now);
      forall k | k in s.queue && k != key ensures k in r.queue {
        assert k in multiset(s.queue);
        assert k in multiset(r.queue);
      }
    }
  }

  lemma {:induction false} IdsCount(keys: seq<HeapKey>)
    requires DistinctIds(keys)
    ensures |IdsOf(keys)| == |keys|
    decreases |keys|
  {
    if keys == [] {
      assert IdsOf(keys) == {};
    } else {
      var key, rest := keys[0], keys[1..];
      assert keys == [key] + rest;
      IdsCount(rest);
      IdsOfCons(key, rest);
      assert key.id !in IdsOf(rest);
    }
  }

  // ----- the recovered state -----------------------------------------------------------

  /** The state a fresh actor is in when it dispatches after a restore. */
  ghost predicate Refilled(s: State, slots: nat, ts: seq<Task>, now: int) {
    && Core(s) && NoneStale(s)
    && s.snapshot == Installed(ts, 0, now) && s.orderIds == IdsOfRows(ts) && s.queue == LiveKeys(ts, 0)
    && s.calls == [] && s.running == 0 && s.slots == Max(slots, 1)
  }

  lemma LiveKeysDistinct(ts: seq<Task>)
    requires DistinctRows(ts)
    ensures DistinctIds(LiveKeys(ts, 0))
  {
    LiveKeysDistinctFrom(ts, 0);
  }

  lemma {:induction false} LiveKeysDistinctFrom(ts: seq<Task>, o: nat)
    requires DistinctRows(ts)
    ensures DistinctIds(LiveKeys(ts, o))
    decreases |ts|
  {
    if ts != [] {
      var o' := if Live(ts[0]) then o + 1 else o;
      LiveKeysDistinctFrom(ts[1..], o');
      EntriesAreLiveRows(ts[1..], o');
      if Live(ts[0]) {
        ConsDistinct(HeapKey(ts[0].id, ts[0].priority, o), LiveKeys(ts[1..], o'));
      }
    }
  }

  lemma RestoredIsRefilled(slots: nat, ts: seq<Task>, now: int)
    requires DistinctRows(ts)
    ensures Refilled(RestoreAll(Init(slots), ts, now), slots, ts, now)
  {
    hide Core, RestoreAll, DistinctIds, LiveKeys, Installed, IdsOfRows;
    InitValid(slots);
    RestoreFresh(Init(slots), ts, now);
    var s := RestoreAll(Init(slots), ts, now);
    assert s.queue == LiveKeys(ts, 0);
    LiveKeysDistinct(ts);
    EntriesAreLiveRows(ts, 0);
    forall k | k in s.queue ensures !Stale(s, k) {
      var i :| 0 <= i < |ts| && Live(ts[i]) && k == EntryOf(ts, 0, i);
      RowTask(s, ts, now, i);
    }
  }

  lemma RowTask(s: State, ts: seq<Task>, now: int, i: nat)
    requires Core(s) && s.snapshot == Installed(ts, 0, now) && s.orderIds == IdsOfRows(ts) && i < |ts|
    ensures ts[i].id in s.tasks && ts[i].id in s.index && s.index[ts[i].id] == i
    ensures s.tasks[ts[i].id] == if Live(ts[i]) then Requeued(ts[i], LiveCount(ts[..i]), now) else ts[i]
  {
    hide OrdersDistinct, NoLostWork, Drift;
    InstalledAt(ts, 0, now, i);
    assert s.orderIds[i] == ts[i].id;
  }

  /** Row i is dispatched if and only if fewer live tasks than slots outrank it. */
  lemma DispatchedByRank(s: State, slots: nat, ts: seq<Task>, now: int, i: nat)
    requires Refilled(s, slots, ts, now) && DistinctRows(ts) && i < |ts| && Live(ts[i])
    ensures EntryOf(ts, 0, i) in Dispatched(s, now) <==> |Outranking(ts, i)| < s.slots
  {
    hide Core, DistinctIds, LiveKeys, Installed, IdsOfRows, Outranks, Before, EntryOf;
    var d, r, ids := Dispatched(s, now), Dispatch(s, now), IdsOf(Dispatched(s, now));
    DispatchedPending(s, now);
    DispatchOrder(s, now);
    DispatchCalls(s, now);
    DispatchKeepsCore(s, now);
    DispatchedOrWaiting(s, now);
    IdsCount(d);
    EntriesAreLiveRows(ts, 0);
    if EntryOf(ts, 0, i) in d {
      RankBelow(s, ts, now, i, d);
    } else {
      RankAbove(s, ts, now, i, d);
    }
  }

  lemma RankBelow(s: State, ts: seq<Task>, now: int, i: nat, d: seq<HeapKey>)
    requires DistinctRows(ts) && i < |ts| && Live(ts[i]) && EntryOf(ts, 0, i) in d
    requires d == Dispatched(s, now) && |IdsOf(d)| == |d| <= s.slots
    requires forall j :: 0 <= j < |ts| && Live(ts[j]) ==>
        EntryOf(ts, 0, j) in d || EntryOf(ts, 0, j) in Dispatch(s, now).queue
    requires forall x, k :: x in d && k in Dispatch(s, now).queue ==> Before(x, k)
    ensures |Outranking(ts, i)| < s.slots
  {
    hide Dispatched, Dispatch, LiveCount;
    forall id | id in Outranking(ts, i) ensures id in IdsOf(d) - {ts[i].id} {
      var j :| 0 <= j < |ts| && Outranks(ts, j, i) && ts[j].id == id;
      RankIsOrder(ts, 0, j, i);
      assert EntryOf(ts, 0, j) in d;
    }
    SubsetSize(Outranking(ts, i), IdsOf(d) - {ts[i].id});
    assert IdsOf(d) == (IdsOf(d) - {ts[i].id}) + {ts[i].id};
  }

  lemma RankAbove(s: State, ts: seq<Task>, now: int, i: nat, d: seq<HeapKey>)
    requires DistinctRows(ts) && i < |ts| && Live(ts[i]) && EntryOf(ts, 0, i) in Dispatch(s, now).queue
    requires d == Dispatched(s, now) && |IdsOf(d)| == |d| >= s.slots
    requires forall k :: k in d ==> exists j :: 0 <= j < |ts| && Live(ts[j]) && k == EntryOf(ts, 0, j)
    requires forall x, k :: x in d && k in Dispatch(s, now).queue ==> Before(x, k)
    ensures |Outranking(ts, i)| >= s.slots
  {
    hide Dispatched, Dispatch, LiveCount;
    forall id | id in IdsOf(d) ensures id in Outranking(ts, i) {
      var k :| k in d && k.id == id;
      var j :| 0 <= j < |ts| && Live(ts[j]) && k == EntryOf(ts, 0, j);
      assert Before(k, EntryOf(ts, 0, i));
      RankIsOrder(ts, 0, j, i);
      assert ts[j].id == id;
    }
    SubsetSize(IdsOf(d), Outranking(ts, i));
  }

  lemma SubsetSize<T>(a: set<T>, b: set<T>)
    requires a <= b
    ensures |a| <= |b|
  {
    assert b == a + (b - a);
  }

  lemma DispatchedId(s: State, slots: nat, ts: seq<Task>, now: int, i: nat)
    requires Refilled(s, slots, ts, now) && DistinctRows(ts) && i < |ts|
    ensures ts[i].id in IdsOf(Dispatched(s, now)) <==> Live(ts[i]) && EntryOf(ts, 0, i) in Dispatched(s, now)
  {
    hide Core, DistinctIds, Installed, IdsOfRows, Dispatched, LiveKeys, LiveCount;
    var d := Dispatched(s, now);
    DispatchedPending(s, now);
    EntriesAreLiveRows(ts, 0);
    if ts[i].id in IdsOf(d) {
      var k :| k in d && k.id == ts[i].id;
      var j :| 0 <= j < |ts| && Live(ts[j]) && k == EntryOf(ts, 0, j);
      assert j == i;
    }
  }

  /** Is row i among the first `slots` live tasks, by priority and then by row? */
  ghost predicate FirstToRun(slots: nat, ts: seq<Task>, i: nat)
    requires i < |ts|
  {
    Live(ts[i]) && |Outranking(ts, i)| < Max(slots, 1)
  }

  /** Row i as the fresh actor first registers it. */
  function Reloaded(ts: seq<Task>, i: nat, now: int): Task
    requires i < |ts|
  {
    if Live(ts[i]) then Requeued(ts[i], LiveCount(ts[..i]), now) else ts[i]
  }

  /** Crash recovery, row by row: same rows in the same order; terminal rows as
      they were; a live row runs at once if and only if it is among the first
      `slots` live tasks by priority and then by row, and waits otherwise. */
  lemma {:induction false} RecoveredRow(slots: nat, ts: seq<Task>, now: int, i: nat, r: State)
    requires DistinctRows(ts) && i < |ts|
    requires r == Step(Init(slots), Event(Command.Restore(ts), now))
    ensures |r.snapshot| == |r.orderIds| == |ts| && r.orderIds[i] == ts[i].id
    ensures r.snapshot[i] ==
        if FirstToRun(slots, ts, i) then Started(Reloaded(ts, i, now), now) else Reloaded(ts, i, now)
  {
    hide Core, RestoreAll, Dispatch, Dispatched, DistinctIds, Installed, LiveKeys, Outranking, Started, Requeued,
        NoneStale;
    var s := RestoreAll(Init(slots), ts, now);
    RestoredIsRefilled(slots, ts, now);
    RowTask(s, ts, now, i);
    DispatchTasks(s, now);
    DispatchKeepsCore(s, now);
    RowsAre(r);
    DispatchedId(s, slots, ts, now, i);
    if Live(ts[i]) { DispatchedByRank(s, slots, ts, now, i); }
  }

  lemma RowsAre(s: State)
    requires Core(s)
    ensures |s.snapshot| == |s.orderIds|
    ensures forall i :: 0 <= i < |s.orderIds| ==> s.orderIds[i] in s.tasks && s.snapshot[i] == s.tasks[s.orderIds[i]]
  {}

  /** The hook each recovered task gets: the resume hook exactly for those that
      were running or paused, each task once, and no other hook at all. */
  lemma {:induction false} RecoveredCalls(slots: nat, ts: seq<Task>, now: int, r: State)
    requires DistinctRows(ts)
    requires r == Step(Init(slots), Event(Command.Restore(ts), now))
    ensures forall i :: 0 <= i < |ts| && FirstToRun(slots, ts, i) ==>
              var c := StartCall(Reloaded(ts, i, now), now); c in r.calls && (c.OnResume? <==> Interrupted(ts[i]))
    ensures forall c :: c in r.calls ==>
              exists i :: 0 <= i < |ts| && FirstToRun(slots, ts, i) && c == StartCall(Reloaded(ts, i, now), now)
    ensures |r.calls| == r.running == if LiveCount(ts) < Max(slots, 1) then LiveCount(ts) else Max(slots, 1)
  {
    hide Core, RestoreAll, Dispatch, Dispatched, DistinctIds, Installed, LiveKeys, Outranking, FirstToRun, LiveCount,
        NoneStale, Requeued;
    var s := RestoreAll(Init(slots), ts, now);
    var d := Dispatched(s, now);
    RestoredIsRefilled(slots, ts, now);
    DispatchCalls(s, now);
    StartCallsAre(s.tasks, d, now);
    RecoveredCount(s, slots, ts, now);
    EntriesAreLiveRows(ts, 0);
    DispatchedPending(s, now);
    forall i | 0 <= i < |ts| && FirstToRun(slots, ts, i)
      ensures var c := StartCall(Reloaded(ts, i, now), now); c in r.calls && (c.OnResume? <==> Interrupted(ts[i])) {
      FirstRunsLive(slots, ts, i);
      DispatchedByRank(s, slots, ts, now, i);
      RowTask(s, ts, now, i);
      RequeuedResumes(ts[i], LiveCount(ts[..i]), now);
      assert EntryOf(ts, 0, i) in d;
    }
    forall c | c in r.calls
      ensures exists i :: 0 <= i < |ts| && FirstToRun(slots, ts, i) && c == StartCall(Reloaded(ts, i, now), now) {
      var k :| k in d && c == StartCall(s.tasks[k.id], now);
      var i :| 0 <= i < |ts| && Live(ts[i]) && k == EntryOf(ts, 0, i);
      DispatchedByRank(s, slots, ts, now, i);
      RowTask(s, ts, now, i);
      FirstRunsLive(slots, ts, i);
      assert FirstToRun(slots, ts, i) && c == StartCall(Reloaded(ts, i, now), now);
    }
  }

  lemma FirstRunsLive(slots: nat, ts: seq<Task>, i: nat)
    requires i < |ts|
    ensures FirstToRun(slots, ts, i) <==> Live(ts[i]) && |Outranking(ts, i)| < Max(slots, 1)
  {}

  lemma RequeuedResumes(t: Task, o: nat, now: int)
    ensures Requeued(t, o, now).resume <==> Interrupted(t)
  {}

  lemma {:induction false} StartCallsAre(tasks: map<Id, Task>, keys: seq<HeapKey>, now: int)
    requires forall k :: k in keys ==> k.id in tasks
    ensures |StartCalls(tasks, keys, now)| == |keys|
    ensures forall k :: k in keys ==> StartCall(tasks[k.id], now) in StartCalls(tasks, keys, now)
    ensures forall c :: c in StartCalls(tasks, keys, now) ==> exists k :: k in keys && c == StartCall(tasks[k.id], now)
    decreases |keys|
  {
    hide StartCall;
    if keys != [] {
      assert keys == [keys[0]] + keys[1..];
      StartCallsAre(tasks, keys[1..], now);
    }
  }

  /** A dispatch fills every slot it has work for. */
  lemma RecoveredCount(s: State, slots: nat, ts: seq<Task>, now: int)
    requires Refilled(s, slots, ts, now)
    ensures |Dispatched(s, now)| == if LiveCount(ts) < Max(slots, 1) then LiveCount(ts) else Max(slots, 1)
  {
    hide Core, Dispatch, Dispatched, DistinctIds, LiveKeys, Installed, IdsOfRows;
    EntriesAreLiveRows(ts, 0);
    DispatchCalls(s, now);
    DispatchKeepsCore(s, now);
    NothingSkipped(s, now);
  }

  lemma {:induction false} NothingSkipped(s: State, now: int)
    requires Core(s) && NoneStale(s)
    ensures |Dispatched(s, now)| + |Dispatch(s, now).queue| == |s.queue|
    decreases |s.queue|
  {
    hide Core, DispatchOne, DistinctIds;
    if s.running < s.slots && s.queue != [] {
      var i := Top(s.queue);
      var key, r := s.queue[i], DispatchOne(s, now);
      assert Core(r) by { DispatchOneKeepsCore(s, now); }
      TurnStarts(s, now);
      TurnQueueIs(s, now);
      WithoutKeepsDistinct(s.queue, i);
      NothingSkipped(r, now);
    }
  }

  /** Any state a scheduler can reach is recoverable: the snapshot it exposes has
      one row per task, so the two theorems above apply to it. */
  lemma {:induction false} ReachableIsRecoverable(slots: nat, events: seq<Event>)
    ensures DistinctRows(Run(Init(slots), events).snapshot)
  {
    hide Run, OrdersDistinct, NoLostWork, Drift;
    InitValid(slots);
    RunKeepsValid(Init(slots), events);
    var s := Run(Init(slots), events);
    forall i, j | 0 <= i < j < |s.snapshot| ensures s.snapshot[i].id != s.snapshot[j].id {
      assert s.index[s.orderIds[i]] == i && s.index[s.orderIds[j]] == j;
    }
  }

  /** A recovered row, field by field: a finished or killed task is untouched;
      any other one keeps its record but for the fields that say where it
      stands, and if it runs its hook is handed its saved checkpoint. */
  lemma RecoveredRecord(slots: nat, ts: seq<Task>, now: int, i: nat, r: State)
    requires DistinctRows(ts) && i < |ts|
    requires r == Step(Init(slots), Event(Command.Restore(ts), now))
    ensures |r.snapshot| == |ts|
    ensures var t, u, runs := ts[i], r.snapshot[i], FirstToRun(slots, ts, i);
            if t.state.Finished? || t.state.Killed? then u == t
            else
              && u == t.(state := u.state, attempts := u.attempts, resume := u.resume, order := u.order,
                         createdMs := u.createdMs, lastStartedMs := u.lastStartedMs)
              && u.createdMs == (if t.createdMs == 0 then now else t.createdMs) && u.order == LiveCount(ts[..i])
              && (runs ==> u.state == Running && u.lastStartedMs == Some(now) && !u.resume
                           && u.attempts == (if t.attempts == 0 then 1 else t.attempts))
              && (!runs ==> u.state == Pending && u.lastStartedMs == t.lastStartedMs && u.attempts == t.attempts
                            && (u.resume <==> t.state.Running? || t.state.Paused?))
    ensures var t := ts[i];
            FirstToRun(slots, ts, i) ==>
              if t.state.Running? || t.state.Paused? then OnResume(r.snapshot[i], t.checkpoint) in r.calls
              else OnStart(r.snapshot[i]) in r.calls
  {
    hide Step, DistinctRows, FirstToRun, LiveCount;
    RecoveredRow(slots, ts, now, i, r);
    RecoveredCalls(slots, ts, now, r);
    FirstRunsLive(slots, ts, i);
    var c := StartCall(Reloaded(ts, i, now), now);
    assert FirstToRun(slots, ts, i) ==> c in r.calls;
  }
}
