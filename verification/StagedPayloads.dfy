/** Whose payload a staged run executes when an id is planned more than once. */
module StagedPayloads {
  import opened Wrappers
  import opened Kernel
  import opened KernelInvariants
  import opened KernelPriority
  import opened StagedRun
  import opened StagedTheorems

  /** The first task of the stage with the id. */
  function FirstSpec(stage: seq<TaskSpec>, id: Id): Option<TaskSpec> {
    if stage == [] then None else if stage[0].id == id then Some(stage[0]) else FirstSpec(stage[1..], id)
  }

  /** The first start of the id in the mailbox. */
  function FirstStart(mailbox: seq<Command>, id: Id): Option<Command> {
    if mailbox == [] then None
    else if mailbox[0].Start? && mailbox[0].id == id then Some(mailbox[0])
    else FirstStart(mailbox[1..], id)
  }

  /** The first task with the id, in some stage, is this one. */
  ghost predicate Leads(plan: Plan, t: TaskSpec) {
    exists j :: 0 <= j < |plan| && FirstSpec(plan[j], t.id) == Some(t)
  }

  function SpecOf(id: Id, t: Task): TaskSpec { TaskSpec(id, t.priority, t.info) }

  /** A registered task is the first planned with its id, and so is one that
      will be registered by the mail under way. */
  ghost predicate FirstWins(plan: Plan, s: Sys) {
    && (forall id :: id in s.kernel.tasks ==> Leads(plan, SpecOf(id, s.kernel.tasks[id])))
    && (forall id :: id !in s.kernel.tasks && FirstStart(s.mailbox, id).Some? ==>
          var c := FirstStart(s.mailbox, id).value;
          c.Start? && Leads(plan, TaskSpec(id, c.priority, c.info)))
  }

  lemma {:induction false} FirstStartIs(mailbox: seq<Command>, id: Id)
    ensures FirstStart(mailbox, id).Some? ==>
        FirstStart(mailbox, id).value.Start? && FirstStart(mailbox, id).value.id == id
    ensures FirstStart(mailbox, id).None? ==> !StartMailed(mailbox, id)
  {
    if mailbox != [] {
      FirstStartIs(mailbox[1..], id);
      forall i | 0 < i < |mailbox| ensures mailbox[i] == mailbox[1..][i - 1] {}
    }
  }

  lemma {:induction false} FirstStartSnoc(mailbox: seq<Command>, c: Command, id: Id)
    ensures FirstStart(mailbox + [c], id)
         == if FirstStart(mailbox, id).Some? then FirstStart(mailbox, id)
            else if c.Start? && c.id == id then Some(c) else None
  {
    if mailbox == [] {
      assert (mailbox + [c])[1..] == [];
    } else {
      assert (mailbox + [c])[1..] == mailbox[1..] + [c];
      FirstStartSnoc(mailbox[1..], c, id);
    }
  }

  lemma {:induction false} FirstSpecIs(stage: seq<TaskSpec>, n: nat)
    requires n < |stage| && forall i :: 0 <= i < n ==> stage[i].id != stage[n].id
    ensures FirstSpec(stage, stage[n].id) == Some(stage[n])
  {
    if n > 0 {
      assert forall i :: 0 <= i < n - 1 ==> stage[1..][i] == stage[i + 1];
      FirstSpecIs(stage[1..], n - 1);
    }
  }

  lemma {:induction false} FirstSpecFound(stage: seq<TaskSpec>, id: Id)
    ensures FirstSpec(stage, id).Some? <==> InStage(stage, id)
    ensures FirstSpec(stage, id).Some? ==> FirstSpec(stage, id).value in stage && FirstSpec(stage, id).value.id == id
  {
    if stage != [] {
      FirstSpecFound(stage[1..], id);
      forall i | 0 < i < |stage| ensures stage[i] == stage[1..][i - 1] {}
    }
  }

  // ----- a step changes no payload ------------------------------------------------------------------

  lemma FinishKeepsSpec(k: State, id: Id, result: Option<Payload>, checkpoint: Option<Payload>, now: int)
    requires Runs(k, id)
    ensures var r := HandleFinish(k, id, result, checkpoint, now).s;
            id in r.tasks && SpecOf(id, r.tasks[id]) == SpecOf(id, k.tasks[id])
  {}

  lemma KillKeepsSpec(k: State, id: Id, reason: Option<string>, now: int)
    requires Runs(k, id)
    ensures var r := HandleKill(k, id, reason, now).s;
            id in r.tasks && SpecOf(id, r.tasks[id]) == SpecOf(id, k.tasks[id])
  {}

  lemma RescheduleKeepsSpec(k: State, id: Id, error: string, delayMs: nat, now: int)
    requires Runs(k, id)
    ensures var r := HandleReschedule(k, id, error, delayMs, now).s;
            id in r.tasks && SpecOf(id, r.tasks[id]) == SpecOf(id, k.tasks[id])
  {}

  lemma EditKeepsSpecs(k: State, e: Event, m: nat, id: Id)
    requires KernelOk(k, m) && Expected(k, e.cmd, m) && id in k.tasks
    ensures id in Handle(k, e).s.tasks && SpecOf(id, Handle(k, e).s.tasks[id]) == SpecOf(id, k.tasks[id])
  {
    hide HandleFinish, HandleKill, HandleReschedule, HandleStart, SpecOf, PlainTask, Valid, Drift;
    EditIsOk(k, e, m);
    if Names1(e.cmd, id) {
      match e.cmd
      case Finish(_, result, checkpoint) => FinishKeepsSpec(k, id, result, checkpoint, e.now);
      case Kill(_, reason) => KillKeepsSpec(k, id, reason, e.now);
      case Reschedule(_, error, delayMs) => RescheduleKeepsSpec(k, id, error, delayMs, e.now);
      case _ =>
    }
  }

  lemma StartMakesSpec(k: State, e: Event)
    requires e.cmd.Start? && e.cmd.id !in k.tasks
    ensures var r := Handle(k, e).s;
            e.cmd.id in r.tasks && SpecOf(e.cmd.id, r.tasks[e.cmd.id]) == TaskSpec(e.cmd.id, e.cmd.priority, e.cmd.info)
  {}

  lemma StepKeepsSpecs(k: State, e: Event, m: nat)
    requires KernelOk(k, m) && Expected(k, e.cmd, m)
    ensures var k' := Step(k, e);
            && (forall id :: id in k.tasks ==> id in k'.tasks && SpecOf(id, k'.tasks[id]) == SpecOf(id, k.tasks[id]))
            && (forall id :: id in k'.tasks && id !in k.tasks ==>
                  e.cmd.Start? && e.cmd.id == id &&
                      SpecOf(id, k'.tasks[id]) == TaskSpec(id, e.cmd.priority, e.cmd.info))
  {
    hide Valid, Handle, Step, PlainTask, Begun, DistinctIds, Drift;
    StepTasks(k, e);
    KernelStep(k, e, m);
    forall id | id in k.tasks
      ensures id in Step(k, e).tasks && SpecOf(id, Step(k, e).tasks[id]) == SpecOf(id, k.tasks[id]) {
      EditKeepsSpecs(k, e, m, id);
    }
    if e.cmd.Start? && e.cmd.id !in k.tasks { StartMakesSpec(k, e); }
  }

  // ----- every action keeps the first ------------------------------------------------------------------

  lemma StartRegisters(k: State, e: Event, m: nat)
    requires KernelOk(k, m) && Expected(k, e.cmd, m)
    ensures e.cmd.Start? ==> e.cmd.id in Step(k, e).tasks
  {
    hide KernelOk, Step, Expected;
    KernelStep(k, e, m);
  }

  lemma DeliverKeepsFirst(plan: Plan, m: nat, s: Sys, now: int)
    requires SysOk(plan, m, s) && FirstWins(plan, s) && s.mailbox != []
    ensures FirstWins(plan, Next(plan, m, s, Deliver(now)))
  {
    hide KernelOk, Step, PlaceOk, KillsSeen, MailOk, Leads, Tracked, SpecOf;
    var e := Event(s.mailbox[0], now);
    var s' := Next(plan, m, s, Deliver(now));
    MailIsExpected(plan, m, s);
    StepKeepsSpecs(s.kernel, e, m);
    forall id | id in s'.kernel.tasks ensures Leads(plan, SpecOf(id, s'.kernel.tasks[id])) {
      if id !in s.kernel.tasks { assert FirstStart(s.mailbox, id) == Some(e.cmd); }
    }
    forall id | id !in s'.kernel.tasks && FirstStart(s'.mailbox, id).Some?
      ensures FirstStart(s'.mailbox, id) == FirstStart(s.mailbox, id) && id !in s.kernel.tasks {
      StartRegisters(s.kernel, e, m);
    }
  }

  lemma ClockKeepsFirst(plan: Plan, m: nat, s: Sys, now: int)
    requires SysOk(plan, m, s) && FirstWins(plan, s)
    ensures FirstWins(plan, Next(plan, m, s, Clock(now)))
  {
    hide KernelOk, Step, PlaceOk, KillsSeen, MailOk, Leads, Tracked, SpecOf, FirstStart;
    StepKeepsSpecs(s.kernel, Event(Command.Tick, now), m);
  }

  lemma SendKeepsFirst(plan: Plan, m: nat, s: Sys)
    requires SysOk(plan, m, s) && FirstWins(plan, s) && Enabled(plan, s, Send)
    ensures FirstWins(plan, Next(plan, m, s, Send))
  {
    hide KernelOk, KillsSeen, MailOk, Tracked, SpecOf, Leads, StartMailed, FirstStart;
    var t := plan[s.stage][s.sent];
    var c := Command.Start(t.id, t.priority, t.info, m);
    forall id | id !in s.kernel.tasks && FirstStart(s.mailbox + [c], id).Some?
      ensures var x := FirstStart(s.mailbox + [c], id).value;
              x.Start? && Leads(plan, TaskSpec(id, x.priority, x.info)) {
      FirstStartSnoc(s.mailbox, c, id);
      FirstStartIs(s.mailbox, id);
      if FirstStart(s.mailbox, id).None? {
        FirstSpecIs(plan[s.stage], s.sent);
        LeadsStage(plan, s.stage, t);
      }
    }
  }

  lemma LeadsStage(plan: Plan, j: nat, t: TaskSpec)
    requires j < |plan| && FirstSpec(plan[j], t.id) == Some(t)
    ensures Leads(plan, t)
  {}

  lemma ReportKeepsFirst(plan: Plan, m: nat, s: Sys, id: Id, outcome: Outcome)
    requires FirstWins(plan, s) && Enabled(plan, s, Report(id, outcome))
    ensures FirstWins(plan, Next(plan, m, s, Report(id, outcome)))
  {
    hide SpecOf, Leads, FirstStart;
    forall i ensures FirstStart(s.mailbox + [ReportOf(id, outcome)], i) == FirstStart(s.mailbox, i) {
      FirstStartSnoc(s.mailbox, ReportOf(id, outcome), i);
    }
  }

  lemma PollKeepsFirst(plan: Plan, m: nat, s: Sys)
    requires FirstWins(plan, s) && Enabled(plan, s, Poll)
    ensures FirstWins(plan, Next(plan, m, s, Poll))
  {
    hide SpecOf, Leads, FirstStart, KillsIn, Active;
  }

  lemma NextKeepsFirst(plan: Plan, m: nat, s: Sys, a: Action)
    requires SysOk(plan, m, s) && FirstWins(plan, s) && Enabled(plan, s, a)
    ensures FirstWins(plan, Next(plan, m, s, a))
  {
    hide SysOk, FirstWins, Next;
    match a
    case Deliver(now) => DeliverKeepsFirst(plan, m, s, now) by { assert s.mailbox != []; }
    case Clock(now) => ClockKeepsFirst(plan, m, s, now);
    case Report(id, outcome) => ReportKeepsFirst(plan, m, s, id, outcome);
    case Send => SendKeepsFirst(plan, m, s);
    case Poll => PollKeepsFirst(plan, m, s);
  }

  lemma {:induction false} RunKeepsFirst(plan: Plan, m: nat, s: Sys, actions: seq<Action>)
    requires SysOk(plan, m, s) && FirstWins(plan, s) && Possible(plan, m, s, actions)
    ensures FirstWins(plan, RunSys(plan, m, s, actions))
    decreases |actions|
  {
    hide SysOk, FirstWins, Next, Enabled;
    if actions != [] {
      NextOk(plan, m, s, actions[0]);
      NextKeepsFirst(plan, m, s, actions[0]);
      RunKeepsFirst(plan, m, Next(plan, m, s, actions[0]), actions[1..]);
    }
  }

  // ----- which payloads ran -----------------------------------------------------------------------------

  /** In every reachable state the registered task of an id carries the payload
      and the priority of the first task of its stage with that id. */
  lemma RegisteredIsFirst(plan: Plan, m: nat, slots: nat, actions: seq<Action>, s: Sys, j: nat, id: Id)
    requires StagesDisjoint(plan) && j < |plan| && InStage(plan[j], id)
    requires Possible(plan, m, InitSys(slots), actions) && s == RunSys(plan, m, InitSys(slots), actions)
    requires id in s.kernel.tasks
    ensures FirstSpec(plan[j], id) == Some(TaskSpec(id, s.kernel.tasks[id].priority, s.kernel.tasks[id].info))
  {
    hide SysOk, Possible, RunSys, FirstSpec, InStage;
    InitOk(plan, m, slots);
    RunKeepsFirst(plan, m, InitSys(slots), actions);
    var j' :| 0 <= j' < |plan| && FirstSpec(plan[j'], id) == Some(SpecOf(id, s.kernel.tasks[id]));
    FirstSpecFound(plan[j'], id);
    assert j' == j;
  }

  /** The payload of the planned task was run to its end. */
  predicate PayloadRan(k: State, t: TaskSpec) { IsFinished(k, t.id) && k.tasks[t.id].info == t.info }

  /** Tasks of one stage that share an id share their payload. */
  predicate OnePayloadPerId(plan: Plan) {
    forall j, i, k :: 0 <= j < |plan| && 0 <= i < |plan[j]| && 0 <= k < |plan[j]| && plan[j][i].id == plan[j][k].id ==>
      plan[j][i].info == plan[j][k].info
  }

  /** When a staged run ends ok, every planned payload was run exactly when no
      stage repeats an id with another payload; of tasks that share an id only
      the first is run. */
  lemma OkRunsEveryPayloadIff(plan: Plan, m: nat, slots: nat, actions: seq<Action>, s: Sys)
    requires StagesDisjoint(plan)
    requires Possible(plan, m, InitSys(slots), actions) && s == RunSys(plan, m, InitSys(slots), actions)
    requires Ended(plan, s) && s.kills == []
    ensures (forall j, i :: 0 <= j < |plan| && 0 <= i < |plan[j]| ==> PayloadRan(s.kernel, plan[j][i]))
       <==> OnePayloadPerId(plan)
    ensures forall j, i :: 0 <= j < |plan| && 0 <= i < |plan[j]| ==>
              (PayloadRan(s.kernel, plan[j][i]) <==> plan[j][i].info == FirstOf(plan[j], i).info)
  {
    hide Possible, RunSys, StagesDisjoint, FirstSpec;
    OkMeansAllFinished(plan, m, slots, actions, s);
    forall j, i | 0 <= j < |plan| && 0 <= i < |plan[j]|
      ensures PayloadRan(s.kernel, plan[j][i]) <==> plan[j][i].info == FirstOf(plan[j], i).info
      ensures FirstOf(plan[j], i) in plan[j] && FirstOf(plan[j], i).id == plan[j][i].id {
      assert StageFinished(plan, j, s.kernel);
      assert IsFinished(s.kernel, plan[j][i].id);
      assert InStage(plan[j], plan[j][i].id);
      RegisteredIsFirst(plan, m, slots, actions, s, j, plan[j][i].id);
      FirstSpecFound(plan[j], plan[j][i].id);
    }
  }

  /** The first task of the stage with the id of task `i`. */
  function FirstOf(stage: seq<TaskSpec>, i: nat): TaskSpec
    requires i < |stage|
  {
    match FirstSpec(stage, stage[i].id) case Some(t) => t case None => stage[i]
  }
}
