/** The staged driver and the kernel it drives, as one transition system.

    Commands travel to the actor through its mailbox, in order.  The driver sends
    the tasks of a stage one by one and then polls the snapshot.  Each first
    dispatch puts a worker to work, and each worker reports exactly once. */
module StagedRun {
  import opened Wrappers
  import opened Kernel
  import opened KernelInvariants
  import opened KernelRuns
  import opened KernelPriority
  import opened KernelRetry

  datatype TaskSpec = TaskSpec(id: Id, priority: nat, info: Payload)

  type Plan = seq<seq<TaskSpec>>

  datatype Sys = Sys(
    kernel: State, mailbox: seq<Command>, workers: multiset<Id>,
    stage: nat, sent: nat,                  // the driver's place in the plan
    kills: seq<(Id, Option<string>)>)       // kills seen by a poll

  // How a worker's job ended: done, worth a retry, or beyond one.
  datatype Outcome = Done(result: Payload) | Soft(error: string) | Hard(error: string)

  datatype Action =
    | Deliver(now: int)
    | Clock(now: int)
    | Report(id: Id, outcome: Outcome)
    | Send
    | Poll

  function InitSys(slots: nat): Sys { Sys(Init(slots), [], multiset{}, 0, 0, []) }

  predicate Ended(plan: Plan, s: Sys) { s.kills != [] || s.stage >= |plan| }

  predicate Enabled(plan: Plan, s: Sys, a: Action) {
    match a
    case Deliver(_) => s.mailbox != []
    case Clock(_) => true
    case Report(id, _) => id in s.workers
    case Send => !Ended(plan, s) && s.sent < |plan[s.stage]|
    case Poll => !Ended(plan, s) && s.sent >= |plan[s.stage]|
  }

  function ReportOf(id: Id, outcome: Outcome): Command {
    match outcome
    case Done(result) => Command.Finish(id, Some(result), None)
    case Soft(error) => Command.Reschedule(id, error, 0)
    case Hard(error) => Command.Kill(id, Some(error))
  }

  /** The tasks whose first-dispatch hook is among these calls. */
  function StartedIds(calls: seq<HookCall>): multiset<Id> {
    if calls == [] then multiset{}
    else (if calls[0].OnStart? then multiset{calls[0].task.id} else multiset{}) + StartedIds(calls[1..])
  }

  function Advance(s: Sys, e: Event): Sys {
    var k := Step(s.kernel, e);
    var spawned := if |s.kernel.calls| <= |k.calls| then k.calls[|s.kernel.calls|..] else [];
    s.(kernel := k, workers := s.workers + StartedIds(spawned))
  }

  function FindRow(rows: seq<Task>, id: Id): Option<Task> {
    if rows == [] then None
    else if rows[0].id == id then Some(rows[0])
    else FindRow(rows[1..], id)
  }

  /** Some task of the stage is not terminal yet, or not even registered. */
  predicate Active(stage: seq<TaskSpec>, rows: seq<Task>) {
    stage != [] &&
    (match FindRow(rows, stage[0].id)
     case None => true
     case Some(t) => !t.state.Terminal() || Active(stage[1..], rows))
  }

  function KillsIn(stage: seq<TaskSpec>, rows: seq<Task>): seq<(Id, Option<string>)> {
    if stage == [] then []
    else
      var rest := KillsIn(stage[1..], rows);
      match FindRow(rows, stage[0].id)
      case Some(t) => if t.state.Killed? then [(t.id, t.error)] + rest else rest
      case None => rest
  }

  function Next(plan: Plan, maxAttempts: nat, s: Sys, a: Action): Sys
    requires Enabled(plan, s, a)
  {
    match a
    case Deliver(now) => Advance(s, Event(s.mailbox[0], now)).(mailbox := s.mailbox[1..])
    case Clock(now) => Advance(s, Event(Command.Tick, now))
    case Report(id, outcome) => s.(workers := s.workers - multiset{id}, mailbox := s.mailbox + [ReportOf(id, outcome)])
    case Send =>
      var t := plan[s.stage][s.sent];
      s.(sent := s.sent + 1, mailbox := s.mailbox + [Command.Start(t.id, t.priority, t.info, maxAttempts)])
    case Poll =>
      var kills := KillsIn(plan[s.stage], s.kernel.snapshot);
      if kills != [] then s.(kills := kills)
      else if Active(plan[s.stage], s.kernel.snapshot) then s
      else s.(stage := s.stage + 1, sent := 0)
  }

  // ----- the invariant ---------------------------------------------------------------

  function Reports(mailbox: seq<Command>, id: Id): nat {
    if mailbox == [] then 0
    else (if IsReport(mailbox[0]) && mailbox[0].id == id then 1 else 0) + Reports(mailbox[1..], id)
  }

  predicate IsReport(cmd: Command) {
    cmd.Finish? || cmd.Kill? || (cmd.Reschedule? && cmd.delayMs == 0)
  }

  predicate Runs(k: State, id: Id) { id in k.tasks && k.tasks[id].state.Running? }

  predicate InStage(stage: seq<TaskSpec>, id: Id) { exists i :: 0 <= i < |stage| && stage[i].id == id }

  /** No id is planned in two stages. */
  ghost predicate StagesDisjoint(plan: Plan) {
    forall i, j, id :: 0 <= i < j < |plan| && InStage(plan[i], id) ==> !InStage(plan[j], id)
  }

  predicate IsFinished(k: State, id: Id) { id in k.tasks && k.tasks[id].state.Finished? }

  ghost predicate StageFinished(plan: Plan, j: nat, k: State)
    requires j < |plan|
  {
    forall i :: 0 <= i < |plan[j]| ==> IsFinished(k, plan[j][i].id)
  }

  /** Tasks of a staged run are never paused, never resumed, and carry one cap. */
  predicate PlainTask(t: Task, m: nat) {
    && !t.state.Paused? && !t.resume && t.maxAttempts == m
    && (m > 0 && !t.state.Killed? ==> t.attempts <= m)
    && (t.state.Running? ==> t.attempts >= 1)
  }

  /** The kernel's part of the invariant. */
  ghost predicate KernelOk(k: State, m: nat) {
    && Valid(k) && Drift(k) == 0 && k.delayed == []
    && forall id :: id in k.tasks ==> PlainTask(k.tasks[id], m)
  }

  /** Every running task has one worker, or one report under way; no other has any. */
  ghost predicate Tracked(s: Sys) {
    forall id :: s.workers[id] + Reports(s.mailbox, id) == if Runs(s.kernel, id) then 1 else 0
  }

  /** Planned for a stage the driver has reached. */
  predicate Planned(plan: Plan, stage: nat, id: Id) {
    exists j :: 0 <= j <= stage && j < |plan| && InStage(plan[j], id)
  }

  /** Mail is either a report, or the start of a task of a stage reached.  (An id
      listed twice in a stage is sent twice, and the second start can arrive late.) */
  ghost predicate MailOk(plan: Plan, m: nat, s: Sys) {
    forall i :: 0 <= i < |s.mailbox| ==>
      IsReport(s.mailbox[i]) ||
      (s.mailbox[i].Start? && s.mailbox[i].maxAttempts == m && Planned(plan, s.stage, s.mailbox[i].id))
  }

  predicate StartMailed(mailbox: seq<Command>, id: Id) {
    exists i :: 0 <= i < |mailbox| && mailbox[i].Start? && mailbox[i].id == id
  }

  /** Where the driver stands: earlier stages are finished, the tasks sent are
      registered or on their way, and no task of a later stage is known. */
  ghost predicate PlaceOk(plan: Plan, s: Sys) {
    && s.stage <= |plan| && (s.stage < |plan| ==> s.sent <= |plan[s.stage]|)
    && (forall j :: 0 <= j < s.stage ==> StageFinished(plan, j, s.kernel))
    && (s.stage < |plan| ==> forall i :: 0 <= i < s.sent ==>
          plan[s.stage][i].id in s.kernel.tasks || StartMailed(s.mailbox, plan[s.stage][i].id))
    && (forall id :: id in s.kernel.tasks ==> Planned(plan, s.stage, id))
  }

  ghost predicate KillsSeen(plan: Plan, s: Sys) {
    s.kills != [] ==>
      s.stage < |plan| && exists id ::
          InStage(plan[s.stage], id) && id in s.kernel.tasks && s.kernel.tasks[id].state.Killed?
  }

  ghost predicate SysOk(plan: Plan, m: nat, s: Sys) {
    KernelOk(s.kernel, m) && Tracked(s) && MailOk(plan, m, s) && PlaceOk(plan, s) && KillsSeen(plan, s)
  }

  lemma InitOk(plan: Plan, m: nat, slots: nat)
    ensures SysOk(plan, m, InitSys(slots))
  {
    InitValid(slots);
  }

  // ----- one kernel step, as the driver sees it ----------------------------------------

  /** The entries a message's dispatch turns into running tasks. */
  ghost function Begun(k: State, e: Event): seq<HeapKey> {
    if Handle(k, e).ThenDispatch? then Dispatched(Handle(k, e).s, e.now) else []
  }

  lemma StepTasks(k: State, e: Event)
    requires Valid(k)
    ensures var r, k', b := Handle(k, e).s, Step(k, e), Begun(k, e);
            && DistinctIds(b) && (forall x :: x in b ==> x.id in r.tasks && r.tasks[x.id].state.Pending?)
            && k'.tasks.Keys == r.tasks.Keys
            && (forall id :: id in r.tasks ==>
                  k'.tasks[id] == if id in IdsOf(b) then Started(r.tasks[id], e.now) else r.tasks[id])
            && k'.calls == r.calls + StartCalls(r.tasks, b, e.now)
            && k'.delayed == r.delayed
            && (forall id :: id in r.tasks ==> r.tasks[id].id == id)
  {
    hide Core, Handle, Dispatch, Dispatched, Idle;
    HandleKeepsCore(k, e);
    var r := Handle(k, e).s;
    DispatchedPending(r, e.now);
    DispatchTasks(r, e.now);
    DispatchCalls(r, e.now);
    DispatchDelayed(r, e.now);
    NoneDistinct();
    forall id | id in r.tasks ensures r.tasks[id].id == id { CoreIds(r, id); }
    assert IdsOf([]) == {};
  }

  lemma {:induction false} DispatchDelayed(k: State, now: int)
    ensures Dispatch(k, now).delayed == k.delayed
    decreases |k.queue|
  {
    if k.running < k.slots && k.queue != [] {
      DispatchDelayed(DispatchOne(k, now), now);
    }
  }

  /** A message of a staged run: a tick, a start, or a report on a running task. */
  predicate Expected(k: State, cmd: Command, m: nat) {
    cmd.Tick? || (cmd.Start? && cmd.maxAttempts == m) || (IsReport(cmd) && Runs(k, cmd.id))
  }

  /** What its edit does to the task it names. */
  ghost predicate NamedTask(k: State, r: State, cmd: Command, m: nat) {
    match cmd
    case Tick => true
    case Start(id, _, _, _) =>
      id in r.tasks && if id in k.tasks then r.tasks[id] == k.tasks[id]
                       else r.tasks[id].state.Pending? && r.tasks[id].attempts == 0 && PlainTask(r.tasks[id], m)
    case Finish(id, _, _) => id in r.tasks && r.tasks[id].state.Finished? && PlainTask(r.tasks[id], m)
    case Kill(id, _) => id in r.tasks && r.tasks[id].state.Killed? && PlainTask(r.tasks[id], m)
    case Reschedule(id, _, _) =>
      && id in k.tasks && id in r.tasks && PlainTask(r.tasks[id], m) && r.tasks[id].attempts == k.tasks[id].attempts + 1
      && if m > 0 && k.tasks[id].attempts >= m then r.tasks[id].state.Killed? else r.tasks[id].state.Pending?
    case _ => false
  }

  predicate Names1(cmd: Command, id: Id) {
    match cmd
    case Start(i, _, _, _) => i == id
    case Finish(i, _, _) => i == id
    case Kill(i, _) => i == id
    case Reschedule(i, _, _) => i == id
    case _ => false
  }

  lemma ReportEdit(k: State, e: Event, m: nat)
    requires IsReport(e.cmd) && Runs(k, e.cmd.id) && PlainTask(k.tasks[e.cmd.id], m)
    ensures var r := Handle(k, e).s;
            && NamedTask(k, r, e.cmd, m) && r.tasks.Keys == k.tasks.Keys
            && (forall id :: id in k.tasks && id != e.cmd.id ==> r.tasks[id] == k.tasks[id])
            && r.delayed == k.delayed
  {}

  lemma StartEditTasks(k: State, e: Event, m: nat)
    requires e.cmd.Start? && e.cmd.maxAttempts == m
    ensures var r := Handle(k, e).s;
            && NamedTask(k, r, e.cmd, m) && r.tasks.Keys == k.tasks.Keys + {e.cmd.id}
            && (forall id :: id in k.tasks && id != e.cmd.id ==> r.tasks[id] == k.tasks[id])
            && r.delayed == k.delayed
  {}

  /** The registry after the edit of an expected message, before the dispatch. */
  ghost predicate EditOk(k: State, r: State, cmd: Command, m: nat) {
    && NamedTask(k, r, cmd, m)
    && r.tasks.Keys == k.tasks.Keys + (if cmd.Start? then {cmd.id} else {})
    && (forall id :: id in k.tasks && !Names1(cmd, id) ==> r.tasks[id] == k.tasks[id])
    && r.delayed == []
  }

  lemma EditIsOk(k: State, e: Event, m: nat)
    requires k.delayed == [] && Expected(k, e.cmd, m)
    requires forall id :: id in k.tasks ==> PlainTask(k.tasks[id], m)
    ensures EditOk(k, Handle(k, e).s, e.cmd, m)
  {
    hide HandleStart, HandleFinish, HandleKill, HandleReschedule, NamedTask, PlainTask;
    match e.cmd
    case Tick => assert NamedTask(k, Handle(k, e).s, e.cmd, m) by { TickNames(k, Handle(k, e).s, m); }
    case Start(_, _, _, _) => StartEditTasks(k, e, m);
    case _ => ReportEdit(k, e, m);
  }

  lemma TickNames(k: State, r: State, m: nat)
    ensures NamedTask(k, r, Command.Tick, m)
  {}

  lemma EditPlain(k: State, r: State, cmd: Command, m: nat, id: Id)
    requires EditOk(k, r, cmd, m) && id in r.tasks
    requires forall i :: i in k.tasks ==> PlainTask(k.tasks[i], m)
    requires Expected(k, cmd, m)
    ensures PlainTask(r.tasks[id], m)
    ensures Runs(r, id) <==> Runs(k, id) && !(IsReport(cmd) && cmd.id == id)
  {
    hide PlainTask;
  }

  lemma StartedPlain(t: Task, m: nat, now: int)
    requires PlainTask(t, m) && t.state.Pending?
    ensures PlainTask(Started(t, now), m) && StartCall(t, now) == OnStart(Started(t, now))
    ensures Started(t, now).state.Running? && Started(t, now).id == t.id
  {}

  /** Each entry that began puts one worker to work. */
  lemma {:induction false} StartedIdsOf(tasks: map<Id, Task>, keys: seq<HeapKey>, now: int, m: nat)
    requires DistinctIds(keys)
    requires forall x :: x in keys ==>
        x.id in tasks && tasks[x.id].state.Pending? && tasks[x.id].id == x.id && PlainTask(tasks[x.id], m)
    ensures forall id :: StartedIds(StartCalls(tasks, keys, now))[id] == if id in IdsOf(keys) then 1 else 0
    ensures |StartedIds(StartCalls(tasks, keys, now))| == |keys|
    decreases |keys|
  {
    hide Started, StartCall, PlainTask;
    if keys != [] {
      var key, rest := keys[0], keys[1..];
      assert keys == [key] + rest && key in keys;
      StartedIdsOf(tasks, rest, now, m);
      StartedPlain(tasks[key.id], m, now);
      IdsOfCons(key, rest);
      var calls := StartCalls(tasks, rest, now);
      assert StartCalls(tasks, keys, now) == [StartCall(tasks[key.id], now)] + calls;
      assert ([StartCall(tasks[key.id], now)] + calls)[1..] == calls;
      assert key.id !in IdsOf(rest);
    }
  }

  /** The hook calls of a step are those of its edit, and then its starts. */
  lemma SpawnedAreStarts(k: State, e: Event)
    requires Valid(k)
    ensures forall x :: x in Begun(k, e) ==> x.id in Handle(k, e).s.tasks
    ensures |k.calls| <= |Step(k, e).calls|
    ensures StartedIds(Step(k, e).calls[|k.calls|..]) ==
        StartedIds(StartCalls(Handle(k, e).s.tasks, Begun(k, e), e.now))
  {
    hide Valid, Handle, Step, Started, Begun, DistinctIds, StartCall;
    StepTasks(k, e);
    UnknownCalls(k, e);
    var r := Handle(k, e).s;
    var starts := StartCalls(r.tasks, Begun(k, e), e.now);
    var spawned := Step(k, e).calls[|k.calls|..];
    if r.calls == k.calls {
      assert spawned == starts;
    } else {
      assert spawned == [r.calls[|k.calls|]] + starts;
      assert spawned[1..] == starts;
    }
  }

  lemma NewWorkers(s: Sys, e: Event, m: nat)
    requires KernelOk(s.kernel, m) && Expected(s.kernel, e.cmd, m)
    ensures forall id :: Advance(s, e).workers[id] ==
              s.workers[id] + if id in IdsOf(Begun(s.kernel, e)) then 1 else 0
    ensures |Advance(s, e).workers| == |s.workers| + |Begun(s.kernel, e)|
  {
    hide Valid, Handle, Step, PlainTask, Started, Begun, DistinctIds, StartCall, StartCalls, Expected;
    var k, r, b := s.kernel, Handle(s.kernel, e).s, Begun(s.kernel, e);
    EditIsOk(k, e, m);
    StepTasks(k, e);
    forall x | x in b ensures PlainTask(r.tasks[x.id], m) { EditPlain(k, r, e.cmd, m, x.id); }
    StartedIdsOf(r.tasks, b, e.now, m);
    SpawnedAreStarts(k, e);
  }

  /** The kernel's part is kept; and a task runs after the step if it ran before
      and this was not its report, or if it began in this step. */
  lemma KernelStep(k: State, e: Event, m: nat)
    requires KernelOk(k, m) && Expected(k, e.cmd, m)
    ensures KernelOk(Step(k, e), m)
    ensures forall id :: Runs(Step(k, e), id) <==>
              (Runs(k, id) && !(IsReport(e.cmd) && e.cmd.id == id)) || id in IdsOf(Begun(k, e))
    ensures forall id :: id in IdsOf(Begun(k, e)) ==> !(Runs(k, id) && !(IsReport(e.cmd) && e.cmd.id == id))
    ensures Step(k, e).tasks.Keys == k.tasks.Keys + (if e.cmd.Start? then {e.cmd.id} else {})
  {
    hide Valid, Handle, Step, PlainTask, Started, Begun, DistinctIds, Drift;
    var r, k', b := Handle(k, e).s, Step(k, e), Begun(k, e);
    EditIsOk(k, e, m);
    StepTasks(k, e);
    StepKeepsValid(k, e);
    NotRestoreLeaks(k, e.cmd);
    forall id | id in r.tasks ensures PlainTask(r.tasks[id], m)
                              ensures Runs(r, id) <==> Runs(k, id) && !(IsReport(e.cmd) && e.cmd.id == id) {
      EditPlain(k, r, e.cmd, m, id);
    }
    forall id | id in k'.tasks ensures PlainTask(k'.tasks[id], m)
                               ensures Runs(k', id) <==> Runs(r, id) || id in IdsOf(b) {
      if id in IdsOf(b) { StartedPlain(r.tasks[id], m, e.now); }
    }
  }

  /** Terminal tasks stay as they are. */
  lemma TerminalStays(k: State, e: Event, m: nat, id: Id)
    requires KernelOk(k, m) && Expected(k, e.cmd, m) && id in k.tasks && k.tasks[id].state.Terminal()
    ensures id in Step(k, e).tasks && Step(k, e).tasks[id] == k.tasks[id]
  {
    hide Valid, Handle, Step, PlainTask, Started, Begun, DistinctIds, Drift;
    EditIsOk(k, e, m);
    StepTasks(k, e);
  }

  lemma NotRestoreLeaks(k: State, cmd: Command)
    requires !cmd.Restore?
    ensures |Leaked(k, cmd)| == 0
  {}

  // ----- every action keeps the invariant ------------------------------------------------

  lemma MailIsExpected(plan: Plan, m: nat, s: Sys)
    requires Tracked(s) && MailOk(plan, m, s) && s.mailbox != []
    ensures Expected(s.kernel, s.mailbox[0], m)
  {
    if IsReport(s.mailbox[0]) {
      assert Reports(s.mailbox, s.mailbox[0].id) >= 1;
    }
  }

  lemma AdvanceTracked(s: Sys, e: Event, m: nat, s': Sys)
    requires KernelOk(s.kernel, m) && Expected(s.kernel, e.cmd, m) && Tracked(s)
    requires s'.kernel == Step(s.kernel, e) && s'.workers == Advance(s, e).workers
    requires forall id :: Reports(s.mailbox, id) ==
               Reports(s'.mailbox, id) + if IsReport(e.cmd) && e.cmd.id == id then 1 else 0
    ensures Tracked(s')
  {
    hide KernelOk, Step, Advance, Runs, Begun, IdsOf, Reports;
    KernelStep(s.kernel, e, m);
    NewWorkers(s, e, m);
    forall id ensures s'.workers[id] + Reports(s'.mailbox, id) == if Runs(s'.kernel, id) then 1 else 0 {
      assert s.workers[id] + Reports(s.mailbox, id) == if Runs(s.kernel, id) then 1 else 0;
    }
  }

  lemma AdvancePlace(plan: Plan, s: Sys, e: Event, m: nat, s': Sys)
    requires KernelOk(s.kernel, m) && Expected(s.kernel, e.cmd, m) && PlaceOk(plan, s)
    requires s'.kernel == Step(s.kernel, e) && s'.stage == s.stage && s'.sent == s.sent
    requires e.cmd.Start? ==> Planned(plan, s.stage, e.cmd.id)
    requires forall id :: StartMailed(s.mailbox, id) ==> StartMailed(s'.mailbox, id) || (e.cmd.Start? && e.cmd.id == id)
    ensures PlaceOk(plan, s')
  {
    hide KernelOk, Step, StartMailed, Planned, Expected;
    KernelStep(s.kernel, e, m);
    forall j | 0 <= j < s.stage ensures StageFinished(plan, j, s'.kernel) {
      assert StageFinished(plan, j, s.kernel);
      forall i | 0 <= i < |plan[j]| ensures IsFinished(s'.kernel, plan[j][i].id) {
        assert IsFinished(s.kernel, plan[j][i].id);
        TerminalStays(s.kernel, e, m, plan[j][i].id);
      }
    }
  }

  lemma AdvanceKills(plan: Plan, s: Sys, e: Event, m: nat, s': Sys)
    requires KernelOk(s.kernel, m) && Expected(s.kernel, e.cmd, m) && KillsSeen(plan, s)
    requires s'.kernel == Step(s.kernel, e) && s'.stage == s.stage && s'.kills == s.kills
    ensures KillsSeen(plan, s')
  {
    hide KernelOk, Step, Expected;
    if s.kills != [] {
      var id :| InStage(plan[s.stage], id) && id in s.kernel.tasks && s.kernel.tasks[id].state.Killed?;
      TerminalStays(s.kernel, e, m, id);
    }
  }

  lemma DeliverOk(plan: Plan, m: nat, s: Sys, now: int)
    requires SysOk(plan, m, s) && s.mailbox != []
    ensures SysOk(plan, m, Next(plan, m, s, Deliver(now)))
  {
    hide KernelOk, Step, StagesDisjoint, PlaceOk, KillsSeen;
    var e := Event(s.mailbox[0], now);
    var s' := Next(plan, m, s, Deliver(now));
    MailIsExpected(plan, m, s);
    KernelStep(s.kernel, e, m);
    AdvanceTracked(s, e, m, s');
    forall id | StartMailed(s.mailbox, id) ensures StartMailed(s'.mailbox, id) || (e.cmd.Start? && e.cmd.id == id) {
      var i :| 0 <= i < |s.mailbox| && s.mailbox[i].Start? && s.mailbox[i].id == id;
      if i > 0 { assert s'.mailbox[i - 1] == s.mailbox[i]; }
    }
    AdvancePlace(plan, s, e, m, s');
    AdvanceKills(plan, s, e, m, s');
  }

  lemma ClockOk(plan: Plan, m: nat, s: Sys, now: int)
    requires SysOk(plan, m, s)
    ensures SysOk(plan, m, Next(plan, m, s, Clock(now)))
  {
    hide KernelOk, Step, StagesDisjoint, PlaceOk, KillsSeen;
    var e := Event(Command.Tick, now);
    var s' := Next(plan, m, s, Clock(now));
    KernelStep(s.kernel, e, m);
    AdvanceTracked(s, e, m, s');
    AdvancePlace(plan, s, e, m, s');
    AdvanceKills(plan, s, e, m, s');
  }

  lemma {:induction false} ReportsSnoc(mailbox: seq<Command>, cmd: Command, id: Id)
    ensures Reports(mailbox + [cmd], id) == Reports(mailbox, id) + if IsReport(cmd) && cmd.id == id then 1 else 0
  {
    if mailbox != [] {
      ReportsSnoc(mailbox[1..], cmd, id);
      assert (mailbox + [cmd])[1..] == mailbox[1..] + [cmd];
    }
  }

  lemma StartMailedSnoc(mailbox: seq<Command>, cmd: Command, id: Id)
    requires StartMailed(mailbox, id) || (cmd.Start? && cmd.id == id)
    ensures StartMailed(mailbox + [cmd], id)
  {
    var m' := mailbox + [cmd];
    if StartMailed(mailbox, id) {
      var i :| 0 <= i < |mailbox| && mailbox[i].Start? && mailbox[i].id == id;
      assert m'[i].Start? && m'[i].id == id;
    } else {
      assert m'[|mailbox|].Start? && m'[|mailbox|].id == id;
    }
  }

  /** More mail and fewer workers leave the driver's place as it is. */
  lemma MailKeepsPlace(plan: Plan, s: Sys, s': Sys)
    requires PlaceOk(plan, s) && KillsSeen(plan, s)
    requires s'.kernel == s.kernel && s'.stage == s.stage && s'.sent == s.sent && s'.kills == s.kills
    requires forall id :: StartMailed(s.mailbox, id) ==> StartMailed(s'.mailbox, id)
    ensures PlaceOk(plan, s') && KillsSeen(plan, s')
  {
    hide StartMailed, Planned, InStage;
    forall j | 0 <= j < s.stage ensures StageFinished(plan, j, s'.kernel) { assert StageFinished(plan, j, s.kernel); }
  }

  lemma ReportMailOk(plan: Plan, m: nat, s: Sys, s': Sys, cmd: Command)
    requires MailOk(plan, m, s) && IsReport(cmd) && s'.mailbox == s.mailbox + [cmd] && s'.stage == s.stage
    ensures MailOk(plan, m, s')
  {
    hide Planned;
  }

  lemma ReportOk(plan: Plan, m: nat, s: Sys, id: Id, outcome: Outcome)
    requires SysOk(plan, m, s) && id in s.workers
    ensures SysOk(plan, m, Next(plan, m, s, Report(id, outcome)))
  {
    hide KernelOk, StartMailed, Runs, Reports, PlaceOk, KillsSeen, MailOk;
    var cmd := ReportOf(id, outcome);
    var s' := Next(plan, m, s, Report(id, outcome));
    forall i ensures Reports(s'.mailbox, i) == Reports(s.mailbox, i) + if i == id then 1 else 0 {
      ReportsSnoc(s.mailbox, cmd, i);
    }
    forall i ensures StartMailed(s.mailbox, i) ==> StartMailed(s'.mailbox, i) {
      if StartMailed(s.mailbox, i) { StartMailedSnoc(s.mailbox, cmd, i); }
    }
    forall i ensures s'.workers[i] + Reports(s'.mailbox, i) == if Runs(s'.kernel, i) then 1 else 0 {
      assert s.workers[i] + Reports(s.mailbox, i) == if Runs(s.kernel, i) then 1 else 0;
    }
    MailKeepsPlace(plan, s, s');
    ReportMailOk(plan, m, s, s', cmd);
  }

  lemma SendOk(plan: Plan, m: nat, s: Sys)
    requires SysOk(plan, m, s) && Enabled(plan, s, Send)
    ensures SysOk(plan, m, Next(plan, m, s, Send))
  {
    hide KernelOk, StartMailed, Runs, Reports;
    var s' := Next(plan, m, s, Send);
    var cmd := s'.mailbox[|s.mailbox|];
    forall i ensures Reports(s'.mailbox, i) == Reports(s.mailbox, i) {
      ReportsSnoc(s.mailbox, cmd, i);
    }
    forall i ensures StartMailed(s.mailbox, i) || cmd.id == i ==> StartMailed(s'.mailbox, i) {
      if StartMailed(s.mailbox, i) || cmd.id == i { StartMailedSnoc(s.mailbox, cmd, i); }
    }
    forall i ensures s'.workers[i] + Reports(s'.mailbox, i) == if Runs(s'.kernel, i) then 1 else 0 {
      assert s.workers[i] + Reports(s.mailbox, i) == if Runs(s.kernel, i) then 1 else 0;
    }
    assert InStage(plan[s.stage], cmd.id);
    assert Planned(plan, s.stage, cmd.id);
  }

  // ----- what a poll sees ------------------------------------------------------------------

  lemma {:induction false} FindRowIs(rows: seq<Task>, id: Id)
    ensures FindRow(rows, id).None? ==> forall i :: 0 <= i < |rows| ==> rows[i].id != id
    ensures FindRow(rows, id).Some? ==>
        exists i :: 0 <= i < |rows| && rows[i].id == id && rows[i] == FindRow(rows, id).value
  {
    if rows != [] && rows[0].id != id {
      FindRowIs(rows[1..], id);
    }
  }

  /** The snapshot's row for an id is the registry's task. */
  lemma FoundIsRegistered(k: State, id: Id)
    requires SnapshotAgrees(k)
    ensures FindRow(k.snapshot, id) == if id in k.tasks then Some(k.tasks[id]) else None
  {
    FindRowIs(k.snapshot, id);
    if id in k.tasks {
      assert k.snapshot[k.index[id]].id == id;
    }
  }

  lemma {:induction false} PollSees(stage: seq<TaskSpec>, k: State)
    requires SnapshotAgrees(k)
    ensures KillsIn(stage, k.snapshot) != [] <==>
              exists i :: 0 <= i < |stage| && stage[i].id in k.tasks && k.tasks[stage[i].id].state.Killed?
    ensures Active(stage, k.snapshot) <==>
              exists i :: 0 <= i < |stage| && !(stage[i].id in k.tasks && k.tasks[stage[i].id].state.Terminal())
  {
    hide SnapshotAgrees;
    if stage != [] {
      FoundIsRegistered(k, stage[0].id);
      PollSees(stage[1..], k);
      forall i | 0 < i < |stage| ensures stage[i] == stage[1..][i - 1] {}
    }
  }

  lemma PollKills(plan: Plan, s: Sys, s': Sys)
    requires s.stage < |plan| && SnapshotAgrees(s.kernel) && KillsIn(plan[s.stage], s.kernel.snapshot) != []
    requires s' == s.(kills := s'.kills)
    ensures KillsSeen(plan, s')
  {
    hide SnapshotAgrees;
    PollSees(plan[s.stage], s.kernel);
    var i :| 0 <= i < |plan[s.stage]| && plan[s.stage][i].id in s.kernel.tasks &&
        s.kernel.tasks[plan[s.stage][i].id].state.Killed?;
    assert InStage(plan[s.stage], plan[s.stage][i].id);
  }

  /** A stage is left only when every task of it is finished. */
  lemma PollFinishes(plan: Plan, s: Sys)
    requires s.stage < |plan| && SnapshotAgrees(s.kernel)
    requires KillsIn(plan[s.stage], s.kernel.snapshot) == [] && !Active(plan[s.stage], s.kernel.snapshot)
    ensures StageFinished(plan, s.stage, s.kernel)
  {
    hide SnapshotAgrees;
    PollSees(plan[s.stage], s.kernel);
  }

  lemma PlannedLater(plan: Plan, stage: nat, id: Id)
    requires Planned(plan, stage, id)
    ensures Planned(plan, stage + 1, id)
  {}

  lemma PollMoves(plan: Plan, m: nat, s: Sys, s': Sys)
    requires PlaceOk(plan, s) && MailOk(plan, m, s) && s.stage < |plan| && s.kills == []
    requires StageFinished(plan, s.stage, s.kernel) && s' == s.(stage := s.stage + 1, sent := 0)
    ensures PlaceOk(plan, s') && MailOk(plan, m, s') && KillsSeen(plan, s')
  {
    hide StageFinished, StartMailed, Planned;
    forall id | Planned(plan, s.stage, id) ensures Planned(plan, s'.stage, id) { PlannedLater(plan, s.stage, id); }
  }

  lemma PollOk(plan: Plan, m: nat, s: Sys)
    requires SysOk(plan, m, s) && Enabled(plan, s, Poll)
    ensures SysOk(plan, m, Next(plan, m, s, Poll))
  {
    hide KernelOk, Tracked, PlaceOk, MailOk, KillsSeen, SnapshotAgrees;
    KernelRows(s.kernel, m);
    var s' := Next(plan, m, s, Poll);
    TrackedSame(s, s');
    if s'.kills != [] {
      PollKills(plan, s, s');
      SamePlace(plan, m, s, s');
    } else if s'.stage != s.stage {
      PollFinishes(plan, s);
      PollMoves(plan, m, s, s');
    }
  }

  lemma SamePlace(plan: Plan, m: nat, s: Sys, s': Sys)
    requires PlaceOk(plan, s) && MailOk(plan, m, s) && s' == s.(kills := s'.kills)
    ensures PlaceOk(plan, s') && MailOk(plan, m, s')
  {}

  lemma KernelRows(k: State, m: nat)
    requires KernelOk(k, m)
    ensures SnapshotAgrees(k)
  {}

  lemma TrackedSame(s: Sys, s': Sys)
    requires Tracked(s) && s'.workers == s.workers && s'.mailbox == s.mailbox && s'.kernel == s.kernel
    ensures Tracked(s')
  {}
}
