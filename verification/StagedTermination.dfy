/** When a staged run must end, and when it need not. */
module StagedTermination {
  import opened Kernel
  import opened KernelInvariants
  import opened KernelPriority
  import opened KernelRetry
  import opened StagedRun
  import opened StagedTheorems

  // ----- the measure ---------------------------------------------------------------------

  /** What a task can still cost: three for each attempt it has left. */
  function Base(t: Task, m: nat): nat {
    match t.state
    case Pending => 3 * Sub(m, Max(t.attempts, 1)) + 3
    case Running => 3 * Sub(m, t.attempts)
    case _ => 0
  }

  function Weight(rows: seq<Task>, m: nat): nat {
    if rows == [] then 0 else Base(rows[0], m) + Weight(rows[1..], m)
  }

  function Cost(cmd: Command, m: nat): nat { if cmd.Start? then 3 * m + 1 else 1 }

  function MailWeight(mailbox: seq<Command>, m: nat): nat {
    if mailbox == [] then 0 else Cost(mailbox[0], m) + MailWeight(mailbox[1..], m)
  }

  /** What the driver still has to do, `c` for each task to be sent and one for each stage. */
  function Unsent(plan: Plan, c: nat, stage: nat, sent: nat): nat
    decreases |plan| - stage, if stage < |plan| then |plan[stage]| - sent else 0
  {
    if stage >= |plan| then 0
    else if sent < |plan[stage]| then c + Unsent(plan, c, stage, sent + 1)
    else 1 + Unsent(plan, c, stage + 1, 0)
  }

  function Measure(plan: Plan, m: nat, s: Sys): nat {
    Weight(s.kernel.snapshot, m) + 2 * |s.workers| + MailWeight(s.mailbox, m)
    + Unsent(plan, 3 * m + 2, s.stage, s.sent) + (if s.kills == [] then 1 else 0)
  }

  lemma {:induction false} WeightUpdate(rows: seq<Task>, i: nat, t: Task, m: nat)
    requires i < |rows|
    ensures Weight(rows[i := t], m) + Base(rows[i], m) == Weight(rows, m) + Base(t, m)
    decreases |rows|
  {
    hide Base;
    if i == 0 {
      assert rows[i := t][1..] == rows[1..];
    } else {
      assert rows[i := t][1..] == rows[1..][i - 1 := t];
      WeightUpdate(rows[1..], i - 1, t, m);
    }
  }

  lemma {:induction false} WeightSnoc(rows: seq<Task>, t: Task, m: nat)
    ensures Weight(rows + [t], m) == Weight(rows, m) + Base(t, m)
    decreases |rows|
  {
    hide Base;
    if rows != [] {
      assert (rows + [t])[1..] == rows[1..] + [t];
      WeightSnoc(rows[1..], t, m);
    } else {
      assert rows + [t] == [t];
    }
  }

  lemma {:induction false} MailWeightSnoc(mailbox: seq<Command>, cmd: Command, m: nat)
    ensures MailWeight(mailbox + [cmd], m) == MailWeight(mailbox, m) + Cost(cmd, m)
    decreases |mailbox|
  {
    hide Cost;
    if mailbox != [] {
      assert (mailbox + [cmd])[1..] == mailbox[1..] + [cmd];
      MailWeightSnoc(mailbox[1..], cmd, m);
    } else {
      assert mailbox + [cmd] == [cmd];
    }
  }

  // ----- the kernel's share ----------------------------------------------------------------

  lemma RowsFollowTasks(k: State, r: State, id: Id)
    requires SnapshotAgrees(k) && SnapshotAgrees(r) && r.orderIds == k.orderIds && id in k.tasks
    requires forall i :: i in k.tasks && i != id ==> i in r.tasks && r.tasks[i] == k.tasks[i]
    ensures k.index[id] < |k.snapshot| && k.snapshot[k.index[id]] == k.tasks[id]
    ensures id in r.tasks && r.snapshot == k.snapshot[k.index[id] := r.tasks[id]]
  {}

  lemma TurnWeight(k: State, now: int, m: nat)
    requires Core(k) && k.queue != [] && !Stale(k, k.queue[Top(k.queue)])
    ensures Weight(DispatchOne(k, now).snapshot, m) + 3 == Weight(k.snapshot, m)
  {
    hide OrdersDistinct, NoLostWork, Drift, DispatchOne, Weight;
    var r, id := DispatchOne(k, now), k.queue[Top(k.queue)].id;
    DispatchOneStarts(k, now);
    TurnStarts(k, now);
    EditKeepsSnapshot(k, r, id, r.tasks[id]);
    RowsFollowTasks(k, r, id);
    WeightUpdate(k.snapshot, k.index[id], r.tasks[id], m);
  }

  /** Each task a dispatch starts takes three off the weight. */
  lemma {:induction false} DispatchWeight(k: State, now: int, m: nat)
    requires Core(k)
    ensures Weight(Dispatch(k, now).snapshot, m) + 3 * |Dispatched(k, now)| == Weight(k.snapshot, m)
    decreases |k.queue|
  {
    hide Core, DispatchOne, Weight;
    if k.running < k.slots && k.queue != [] {
      assert Core(DispatchOne(k, now)) by { DispatchOneKeepsCore(k, now); }
      if Stale(k, k.queue[Top(k.queue)]) { TurnSkips(k, now); } else { TurnWeight(k, now, m); }
      DispatchWeight(DispatchOne(k, now), now, m);
    }
  }

  lemma ReportRows(k: State, e: Event)
    requires IsReport(e.cmd) && Runs(k, e.cmd.id)
    ensures Handle(k, e).s.orderIds == k.orderIds && Handle(k, e).ThenDispatch?
  {}

  lemma StartRows(k: State, e: Event)
    requires e.cmd.Start? && SnapshotAgrees(k)
    ensures var r := Handle(k, e).s;
            if e.cmd.id in k.tasks then r == k && Handle(k, e).Quiet?
            else Handle(k, e).ThenDispatch? && e.cmd.id in r.tasks && r.snapshot == k.snapshot + [r.tasks[e.cmd.id]]
  {}

  lemma ReportWeight(k: State, e: Event, m: nat)
    requires KernelOk(k, m) && m > 0 && IsReport(e.cmd) && Runs(k, e.cmd.id)
    ensures Weight(Handle(k, e).s.snapshot, m) <= Weight(k.snapshot, m) && Handle(k, e).ThenDispatch?
  {
    hide OrdersDistinct, NoLostWork, Drift, Idle, Handle, Weight;
    var r, id := Handle(k, e).s, e.cmd.id;
    HandleKeepsCore(k, e);
    ReportRows(k, e);
    ReportEdit(k, e, m);
    RowsFollowTasks(k, r, id);
    WeightUpdate(k.snapshot, k.index[id], r.tasks[id], m);
  }

  lemma StartWeight(k: State, e: Event, m: nat)
    requires KernelOk(k, m) && m > 0 && e.cmd.Start? && e.cmd.maxAttempts == m
    ensures Weight(Handle(k, e).s.snapshot, m) <= Weight(k.snapshot, m) + 3 * m
  {
    hide OrdersDistinct, NoLostWork, Drift, Idle, Handle, Weight, SnapshotAgrees;
    StartRows(k, e);
    StartEditTasks(k, e, m);
    if e.cmd.id !in k.tasks {
      WeightSnoc(k.snapshot, Handle(k, e).s.tasks[e.cmd.id], m);
    }
  }

  /** A delivered message is paid for, and each start it causes leaves one to spare. */
  lemma StepWeight(k: State, e: Event, m: nat)
    requires KernelOk(k, m) && m > 0 && Expected(k, e.cmd, m) && !e.cmd.Tick?
    ensures Weight(Step(k, e).snapshot, m) + 3 * |Begun(k, e)| + 1 <= Weight(k.snapshot, m) + Cost(e.cmd, m)
  {
    hide Core, Drift, Idle, Handle, Weight, Dispatch, Dispatched, PlainTask, Runs;
    HandleKeepsCore(k, e);
    if e.cmd.Start? { StartWeight(k, e, m); } else { ReportWeight(k, e, m); }
    DispatchWeight(Handle(k, e).s, e.now, m);
  }

  /** With no slot free beside a waiting entry and nothing delayed, a tick does nothing. */
  lemma TickIsIdle(k: State, now: int)
    requires Idle(k) && k.delayed == []
    ensures Step(k, Event(Command.Tick, now)) == k
  {
    assert MoveDelayed(k, now) == k;
  }

  // ----- every change is paid for ----------------------------------------------------------

  /** With a cap (m > 0), whatever the workers report and in whatever order things
      happen: an action that changes anything strictly shrinks the measure. */
  lemma ChangeShrinks(plan: Plan, m: nat, s: Sys, a: Action)
    requires m > 0 && SysOk(plan, m, s) && Enabled(plan, s, a)
    ensures Next(plan, m, s, a) == s || Measure(plan, m, Next(plan, m, s, a)) < Measure(plan, m, s)
  {
    hide KernelOk, Step, Weight, KillsIn, Active;
    match a
    case Deliver(now) => DeliverShrinks(plan, m, s, now);
    case Clock(now) => ClockIsIdle(plan, m, s, now);
    case Report(id, outcome) => MailWeightSnoc(s.mailbox, ReportOf(id, outcome), m);
    case Send =>
      var t := plan[s.stage][s.sent];
      MailWeightSnoc(s.mailbox, Command.Start(t.id, t.priority, t.info, m), m);
    case Poll =>
  }

  lemma DeliverShrinks(plan: Plan, m: nat, s: Sys, now: int)
    requires m > 0 && SysOk(plan, m, s) && s.mailbox != []
    ensures Measure(plan, m, Next(plan, m, s, Deliver(now))) < Measure(plan, m, s)
  {
    hide Step, Weight, Begun, Advance, PlaceOk, KillsSeen, Drift, Valid, PlainTask, Unsent;
    var e := Event(s.mailbox[0], now);
    MailIsExpected(plan, m, s);
    AdvanceKeepsPlace(s, e);
    NotTick(plan, m, s);
    StepWeight(s.kernel, e, m);
    NewWorkers(s, e, m);
  }

  lemma AdvanceKeepsPlace(s: Sys, e: Event)
    ensures Advance(s, e) == s.(kernel := Step(s.kernel, e), workers := Advance(s, e).workers)
  {}

  lemma NotTick(plan: Plan, m: nat, s: Sys)
    requires MailOk(plan, m, s) && s.mailbox != []
    ensures !s.mailbox[0].Tick?
  {}

  lemma ClockIsIdle(plan: Plan, m: nat, s: Sys, now: int)
    requires SysOk(plan, m, s)
    ensures Next(plan, m, s, Clock(now)) == s
  {
    hide Step, Tracked, MailOk, PlaceOk, KillsSeen, Core;
    TickIsIdle(s.kernel, now);
    assert StartedIds(s.kernel.calls[|s.kernel.calls|..]) == multiset{};
  }

  /** While the driver has not ended, some action changes the state: nothing waits
      for ever.  (This holds with and without a cap.) */
  lemma NeverStuck(plan: Plan, m: nat, s: Sys) returns (a: Action)
    requires SysOk(plan, m, s) && !Ended(plan, s)
    ensures Enabled(plan, s, a) && Next(plan, m, s, a) != s && !a.Clock?
  {
    hide Step, KernelOk, PlaceOk, KillsSeen, Tracked, MailOk;
    if s.mailbox != [] {
      a := Deliver(0);
      assert |Next(plan, m, s, a).mailbox| < |s.mailbox|;
    } else if s.workers != multiset{} {
      var id :| id in s.workers;
      a := Report(id, Hard(""));
      assert |Next(plan, m, s, a).mailbox| == 1;
    } else if s.sent < |plan[s.stage]| {
      a := Send;
    } else {
      a := Poll;
      QuietStageIsOver(plan, m, s);
    }
  }

  /** If no task runs, no slot is taken; so nothing is queued, so nothing is
      pending: every registered task is terminal. */
  lemma NothingRunsNothingWaits(k: State, m: nat)
    requires KernelOk(k, m) && forall id :: !Runs(k, id)
    ensures forall id :: id in k.tasks ==> k.tasks[id].state.Terminal()
  {
    hide SnapshotAgrees, OrdersDistinct;
    assert RunningIds(k.tasks) == {} by {
      forall id ensures id !in RunningIds(k.tasks) { assert !Runs(k, id); }
    }
    assert k.queue == [];
    assert Keys(k) == multiset{};
    forall id | id in k.tasks ensures k.tasks[id].state.Terminal() {
      assert PlainTask(k.tasks[id], m);
      assert !Runs(k, id);
    }
  }

  /** With no mail and no worker, a stage that was sent is over. */
  lemma QuietStageIsOver(plan: Plan, m: nat, s: Sys)
    requires SysOk(plan, m, s) && s.stage < |plan| && s.sent >= |plan[s.stage]|
    requires s.mailbox == [] && s.workers == multiset{}
    ensures !Active(plan[s.stage], s.kernel.snapshot)
  {
    hide KillsSeen, MailOk, KernelOk, StageFinished, Planned;
    forall id ensures !Runs(s.kernel, id) {
      assert s.workers[id] + Reports(s.mailbox, id) == if Runs(s.kernel, id) then 1 else 0;
    }
    NothingRunsNothingWaits(s.kernel, m);
    KernelRows(s.kernel, m);
    PollSees(plan[s.stage], s.kernel);
    forall i | 0 <= i < |plan[s.stage]|
      ensures plan[s.stage][i].id in s.kernel.tasks {
      assert !StartMailed(s.mailbox, plan[s.stage][i].id);
    }
  }

  /** A possible run in which every action changes something. */
  ghost predicate Busily(plan: Plan, m: nat, s: Sys, actions: seq<Action>)
    decreases |actions|
  {
    actions == [] ||
    (Enabled(plan, s, actions[0]) && Next(plan, m, s, actions[0]) != s
     && Busily(plan, m, Next(plan, m, s, actions[0]), actions[1..]))
  }

  /** Every run ends: with a cap, no run has more changes than the measure of its
      first state, whatever the workers report; and by NeverStuck a run that can
      change no more has ended. */
  lemma {:induction false} EveryRunEnds(plan: Plan, m: nat, s: Sys, actions: seq<Action>)
    requires m > 0 && SysOk(plan, m, s) && Busily(plan, m, s, actions)
    ensures |actions| <= Measure(plan, m, s)
    decreases |actions|
  {
    hide SysOk, Next, Enabled, Measure;
    if actions != [] {
      NextOk(plan, m, s, actions[0]);
      ChangeShrinks(plan, m, s, actions[0]);
      EveryRunEnds(plan, m, Next(plan, m, s, actions[0]), actions[1..]);
    }
  }

  // ----- without a cap -----------------------------------------------------------------------

  /** A run that retries for ever: report a soft failure, deliver it, again and again. */
  function Retries(id: Id, n: nat): seq<Action> {
    if n == 0 then [] else [Report(id, Soft("timeout")), Deliver(0)] + Retries(id, n - 1)
  }

  lemma RetryTurn(plan: Plan, s: Sys, id: Id, n: nat)
    requires SysOk(plan, 0, s) && Busy(s.kernel, id, n, 0) && n > 0 && s.mailbox == [] && !Ended(plan, s)
    ensures Enabled(plan, s, Report(id, Soft("timeout")))
    ensures var s1 := Next(plan, 0, s, Report(id, Soft("timeout")));
            && Enabled(plan, s1, Deliver(0))
            && var s2 := Next(plan, 0, s1, Deliver(0));
               SysOk(plan, 0, s2) && Busy(s2.kernel, id, n + 1, 0) && s2.mailbox == [] && !Ended(plan, s2)
               && s1 != s && s2 != s1
  {
    hide KernelOk, MailOk, PlaceOk, KillsSeen, Step;
    assert s.workers[id] + Reports(s.mailbox, id) == if Runs(s.kernel, id) then 1 else 0;
    NextOk(plan, 0, s, Report(id, Soft("timeout")));
    var s1 := Next(plan, 0, s, Report(id, Soft("timeout")));
    assert s1.mailbox == [Command.Reschedule(id, "timeout", 0)];
    NextOk(plan, 0, s1, Deliver(0));
    FailureRestarts(s.kernel, id, n, 0);
  }

  lemma {:induction false} BusilyIsPossible(plan: Plan, m: nat, s: Sys, actions: seq<Action>)
    requires Busily(plan, m, s, actions)
    ensures Possible(plan, m, s, actions)
    decreases |actions|
  {
    hide Next, Enabled;
    if actions != [] { BusilyIsPossible(plan, m, Next(plan, m, s, actions[0]), actions[1..]); }
  }

  lemma {:induction false} RetriesForEver(plan: Plan, s: Sys, id: Id, n: nat, k: nat)
    requires SysOk(plan, 0, s) && Busy(s.kernel, id, n, 0) && n > 0 && s.mailbox == [] && !Ended(plan, s)
    ensures |Retries(id, k)| == 2 * k
    ensures Busily(plan, 0, s, Retries(id, k)) && Possible(plan, 0, s, Retries(id, k))
    ensures !Ended(plan, RunSys(plan, 0, s, Retries(id, k)))
    ensures StartsOf(RunSys(plan, 0, s, Retries(id, k)).kernel.calls, id) == n + k
    decreases k
  {
    hide SysOk, Ended, Step;
    if k > 0 {
      RetryTurn(plan, s, id, n);
      var acts := Retries(id, k);
      var s1 := Next(plan, 0, s, acts[0]);
      var s2 := Next(plan, 0, s1, acts[1]);
      assert acts[1..][0] == acts[1] && acts[1..][1..] == Retries(id, k - 1);
      RetriesForEver(plan, s2, id, n + 1, k - 1);
      assert Busily(plan, 0, s1, acts[1..]);
      BusilyIsPossible(plan, 0, s, acts);
    }
  }

  /** The driver at the start of a stage, with nothing registered yet. */
  function At(slots: nat, stage: nat): Sys { InitSys(slots).(stage := stage) }

  lemma EmptyStagePasses(plan: Plan, m: nat, slots: nat, stage: nat)
    requires stage < |plan| && plan[stage] == []
    ensures Enabled(plan, At(slots, stage), Poll) && Next(plan, m, At(slots, stage), Poll) == At(slots, stage + 1)
  {}

  /** The first task of a stage, sent and delivered to an idle kernel. */
  lemma FirstTaskRuns(plan: Plan, slots: nat, stage: nat) returns (s1: Sys, s2: Sys)
    requires stage < |plan| && plan[stage] != [] && SysOk(plan, 0, At(slots, stage))
    ensures Enabled(plan, At(slots, stage), Send) && s1 == Next(plan, 0, At(slots, stage), Send) != At(slots, stage)
    ensures Enabled(plan, s1, Deliver(0)) && s2 == Next(plan, 0, s1, Deliver(0)) != s1
    ensures SysOk(plan, 0, s2) && Busy(s2.kernel, plan[stage][0].id, 1, 0) && s2.mailbox == [] && !Ended(plan, s2)
  {
    hide Step, SysOk;
    var t := plan[stage][0];
    NextOk(plan, 0, At(slots, stage), Send);
    s1 := Next(plan, 0, At(slots, stage), Send);
    assert s1.mailbox == [Command.Start(t.id, t.priority, t.info, 0)];
    NextOk(plan, 0, s1, Deliver(0));
    s2 := Next(plan, 0, s1, Deliver(0));
    StartIsBusy(slots, t.id, t.priority, t.info, 0);
  }

  /** Without a cap no plan with a task in it need end: let `j` be its first
      stage with a task.  For every k there is a run, changing at every action,
      that starts the first task of that stage k + 1 times and is not over. */
  lemma {:induction false} NoCapNeedNotEnd(plan: Plan, slots: nat, i: nat, j: nat, k: nat)
    returns (actions: seq<Action>)
    requires i <= j < |plan| && plan[j] != [] && (forall x :: i <= x < j ==> plan[x] == [])
    requires SysOk(plan, 0, At(slots, i))
    ensures |actions| >= 2 * k
    ensures Busily(plan, 0, At(slots, i), actions) && Possible(plan, 0, At(slots, i), actions)
    ensures !Ended(plan, RunSys(plan, 0, At(slots, i), actions))
    ensures StartsOf(RunSys(plan, 0, At(slots, i), actions).kernel.calls, plan[j][0].id) == k + 1
    decreases j - i
  {
    hide Step, SysOk, Next, Enabled, Ended, At;
    if i < j {
      EmptyStagePasses(plan, 0, slots, i);
      assert At(slots, i) != At(slots, i + 1) by { StagesDiffer(slots, i); }
      NextOk(plan, 0, At(slots, i), Poll);
      var rest := NoCapNeedNotEnd(plan, slots, i + 1, j, k);
      actions := [Poll] + rest;
      assert actions[1..] == rest;
      BusilyIsPossible(plan, 0, At(slots, i), actions);
    } else {
      var id := plan[j][0].id;
      var s1, s2 := FirstTaskRuns(plan, slots, j);
      RetriesForEver(plan, s2, id, 1, k);
      actions := [Send, Deliver(0)] + Retries(id, k);
      assert actions[1..][0] == Deliver(0) && actions[1..][1..] == Retries(id, k);
      assert Busily(plan, 0, s1, actions[1..]);
      BusilyIsPossible(plan, 0, At(slots, i), actions);
      assert Possible(plan, 0, s1, actions[1..]);
      assert RunSys(plan, 0, s1, actions[1..]) == RunSys(plan, 0, s2, Retries(id, k));
    }
  }

  lemma StagesDiffer(slots: nat, stage: nat)
    ensures At(slots, stage) != At(slots, stage + 1)
  {}

  /** The cap the driver passes on: `retries` extra attempts after the first; with
      none asked for it passes zero. */
  function CapFor(retries: nat): nat { if retries == 0 then 0 else retries + 1 }

  /** Whatever happens, at most `bound` things can happen. */
  ghost predicate EndsWithin(plan: Plan, m: nat, slots: nat, bound: nat) {
    forall actions :: Busily(plan, m, InitSys(slots), actions) ==> |actions| <= bound
  }

  ghost predicate SureToEnd(plan: Plan, m: nat, slots: nat) {
    exists bound: nat :: EndsWithin(plan, m, slots, bound)
  }

  lemma CappedIsSure(plan: Plan, m: nat, slots: nat)
    requires m > 0
    ensures SureToEnd(plan, m, slots)
  {
    hide SysOk, Measure;
    var s := InitSys(slots);
    InitOk(plan, m, slots);
    forall actions | Busily(plan, m, s, actions) ensures |actions| <= Measure(plan, m, s) {
      EveryRunEnds(plan, m, s, actions);
    }
    assert EndsWithin(plan, m, slots, Measure(plan, m, s));
  }

  ghost predicate NothingPlanned(plan: Plan) { forall j :: 0 <= j < |plan| ==> plan[j] == [] }

  lemma UncappedIsNotSure(plan: Plan, slots: nat)
    requires !NothingPlanned(plan)
    ensures !SureToEnd(plan, 0, slots)
  {
    hide Busily, SysOk, NothingPlanned;
    var j := FirstTaskStage(plan);
    InitOk(plan, 0, slots);
    assert At(slots, 0) == InitSys(slots);
    forall bound: nat ensures !EndsWithin(plan, 0, slots, bound) {
      var actions := NoCapNeedNotEnd(plan, slots, 0, j, bound + 1);
      assert Busily(plan, 0, InitSys(slots), actions) && |actions| > bound;
    }
  }

  lemma FirstTaskStage(plan: Plan) returns (j: nat)
    requires !NothingPlanned(plan)
    ensures j < |plan| && plan[j] != [] && forall x :: 0 <= x < j ==> plan[x] == []
  {
    j := 0;
    while j < |plan| && plan[j] == []
      invariant j <= |plan| && forall x :: 0 <= x < j ==> plan[x] == []
    {
      j := j + 1;
    }
  }

  lemma OnlyPollsChange(plan: Plan, m: nat, slots: nat, stage: nat, a: Action)
    requires NothingPlanned(plan) && Enabled(plan, At(slots, stage), a) &&
        Next(plan, m, At(slots, stage), a) != At(slots, stage)
    ensures stage < |plan| && a.Poll? && Next(plan, m, At(slots, stage), a) == At(slots, stage + 1)
  {
    match a
    case Clock(now) => TickIsIdle(Init(slots), now);
    case _ =>
  }

  lemma {:induction false} EmptyPlanEnds(plan: Plan, m: nat, slots: nat, stage: nat, actions: seq<Action>)
    requires NothingPlanned(plan) && stage <= |plan| && Busily(plan, m, At(slots, stage), actions)
    ensures |actions| <= |plan| - stage
    decreases |actions|
  {
    hide NothingPlanned, Next, Enabled, At;
    if actions != [] {
      OnlyPollsChange(plan, m, slots, stage, actions[0]);
      EmptyPlanEnds(plan, m, slots, stage + 1, actions[1..]);
    }
  }

  lemma EmptyIsSure(plan: Plan, m: nat, slots: nat)
    requires NothingPlanned(plan)
    ensures SureToEnd(plan, m, slots)
  {
    hide NothingPlanned, Busily;
    assert At(slots, 0) == InitSys(slots);
    forall actions | Busily(plan, m, InitSys(slots), actions) ensures |actions| <= |plan| {
      EmptyPlanEnds(plan, m, slots, 0, actions);
    }
    assert EndsWithin(plan, m, slots, |plan|);
  }

  /** Whatever the plan and the number of slots: a staged run is sure to end if
      and only if a retry is allowed, or the plan has no task at all. */
  lemma EndsExactlyWithRetries(plan: Plan, retries: nat, slots: nat)
    ensures SureToEnd(plan, CapFor(retries), slots) <==> retries > 0 || NothingPlanned(plan)
  {
    hide SureToEnd, NothingPlanned;
    if retries > 0 {
      CappedIsSure(plan, CapFor(retries), slots);
    } else if NothingPlanned(plan) {
      EmptyIsSure(plan, 0, slots);
    } else {
      UncappedIsNotSure(plan, slots);
    }
  }
}
