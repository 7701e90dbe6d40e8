/** What the staged driver guarantees: barriers, the meaning of `ok`, and when a
    run must end. */
module StagedTheorems {
  import opened Kernel
  import opened StagedRun

  /** Each action is possible when its turn comes. */
  ghost predicate Possible(plan: Plan, m: nat, s: Sys, actions: seq<Action>)
    decreases |actions|
  {
    actions == [] || (Enabled(plan, s, actions[0]) && Possible(plan, m, Next(plan, m, s, actions[0]), actions[1..]))
  }

  function RunSys(plan: Plan, m: nat, s: Sys, actions: seq<Action>): Sys
    requires Possible(plan, m, s, actions)
    decreases |actions|
  {
    if actions == [] then s else RunSys(plan, m, Next(plan, m, s, actions[0]), actions[1..])
  }

  lemma NextOk(plan: Plan, m: nat, s: Sys, a: Action)
    requires SysOk(plan, m, s) && Enabled(plan, s, a)
    ensures SysOk(plan, m, Next(plan, m, s, a))
  {
    hide SysOk, Next;
    match a
    case Deliver(now) => DeliverOk(plan, m, s, now);
    case Clock(now) => ClockOk(plan, m, s, now);
    case Report(id, outcome) => ReportOk(plan, m, s, id, outcome);
    case Send => SendOk(plan, m, s);
    case Poll => PollOk(plan, m, s);
  }

  lemma {:induction false} RunOk(plan: Plan, m: nat, s: Sys, actions: seq<Action>)
    requires SysOk(plan, m, s) && Possible(plan, m, s, actions)
    ensures SysOk(plan, m, RunSys(plan, m, s, actions))
    decreases |actions|
  {
    hide SysOk, Next, Enabled;
    if actions != [] {
      NextOk(plan, m, s, actions[0]);
      RunOk(plan, m, Next(plan, m, s, actions[0]), actions[1..]);
    }
  }

  // ----- the stage barrier ---------------------------------------------------------------

  /** A worker put to work by this action. */
  predicate PutsToWork(plan: Plan, m: nat, s: Sys, a: Action, id: Id)
    requires Enabled(plan, s, a)
  {
    Next(plan, m, s, a).workers[id] > s.workers[id]
  }

  lemma StartsAreRegistered(plan: Plan, m: nat, s: Sys, a: Action, id: Id)
    requires SysOk(plan, m, s) && Enabled(plan, s, a) && PutsToWork(plan, m, s, a, id)
    ensures id in Next(plan, m, s, a).kernel.tasks && (a.Deliver? || a.Clock?)
  {
    hide KernelOk, KillsSeen, PlaceOk, MailOk, Step, StartedIds;
    NextOk(plan, m, s, a);
    var s' := Next(plan, m, s, a);
    assert s'.workers[id] + Reports(s'.mailbox, id) == if Runs(s'.kernel, id) then 1 else 0;
  }

  /** The barrier, in every reachable state: when the first-dispatch hook of a
      stage-j task is called, every task of every earlier stage is finished. */
  lemma {:induction false} StageBarrier(plan: Plan, m: nat, slots: nat, actions: seq<Action>, s: Sys, a: Action,
                                        id: Id, j: nat, i: nat)
    requires StagesDisjoint(plan) && i < j < |plan| && InStage(plan[j], id)
    requires Possible(plan, m, InitSys(slots), actions) && s == RunSys(plan, m, InitSys(slots), actions)
    requires Enabled(plan, s, a) && PutsToWork(plan, m, s, a, id)
    ensures StageFinished(plan, i, s.kernel) && StageFinished(plan, i, Next(plan, m, s, a).kernel)
  {
    hide KernelOk, KillsSeen, MailOk, StageFinished, Tracked, Next, Possible, InStage;
    InitOk(plan, m, slots);
    RunOk(plan, m, InitSys(slots), actions);
    NextOk(plan, m, s, a);
    StartsAreRegistered(plan, m, s, a, id);
    var s' := Next(plan, m, s, a);
    assert s'.stage == s.stage by { StaysPut(plan, m, s, a); }
    var j' :| 0 <= j' <= s'.stage && j' < |plan| && InStage(plan[j'], id);
    assert j' == j;
  }

  lemma StaysPut(plan: Plan, m: nat, s: Sys, a: Action)
    requires Enabled(plan, s, a) && (a.Deliver? || a.Clock?)
    ensures Next(plan, m, s, a).stage == s.stage
  {}

  /** Finished and killed are for good, whatever happens next. */
  lemma {:induction false} TerminalForever(plan: Plan, m: nat, s: Sys, actions: seq<Action>, id: Id)
    requires SysOk(plan, m, s) && Possible(plan, m, s, actions)
    requires id in s.kernel.tasks && s.kernel.tasks[id].state.Terminal()
    ensures var s' := RunSys(plan, m, s, actions);
            id in s'.kernel.tasks && s'.kernel.tasks[id] == s.kernel.tasks[id]
    decreases |actions|
  {
    hide SysOk, Next, Enabled;
    if actions != [] {
      NextOk(plan, m, s, actions[0]);
      TerminalNext(plan, m, s, actions[0], id);
      TerminalForever(plan, m, Next(plan, m, s, actions[0]), actions[1..], id);
    }
  }

  lemma TerminalNext(plan: Plan, m: nat, s: Sys, a: Action, id: Id)
    requires SysOk(plan, m, s) && Enabled(plan, s, a) && id in s.kernel.tasks && s.kernel.tasks[id].state.Terminal()
    ensures var s' := Next(plan, m, s, a); id in s'.kernel.tasks && s'.kernel.tasks[id] == s.kernel.tasks[id]
  {
    hide KernelOk, KillsSeen, PlaceOk, Step, StartedIds;
    match a
    case Deliver(now) =>
      MailIsExpected(plan, m, s);
      TerminalStays(s.kernel, Event(s.mailbox[0], now), m, id);
    case Clock(now) => TerminalStays(s.kernel, Event(Command.Tick, now), m, id);
    case _ =>
  }

  lemma KilledNotFinished(plan: Plan, j: nat, k: State, id: Id)
    requires j < |plan| && InStage(plan[j], id) && id in k.tasks && k.tasks[id].state.Killed?
    ensures !StageFinished(plan, j, k)
  {
    var i :| 0 <= i < |plan[j]| && plan[j][i].id == id;
    assert !IsFinished(k, plan[j][i].id);
  }

  /** A kill stops the run: once a stage-j task is killed, the driver never goes
      past stage j, so no task of a later stage is ever sent. */
  lemma {:induction false} KillBlocksLaterStages(plan: Plan, m: nat, s: Sys, actions: seq<Action>, id: Id, j: nat)
    requires SysOk(plan, m, s) && Possible(plan, m, s, actions)
    requires j < |plan| && InStage(plan[j], id) && id in s.kernel.tasks && s.kernel.tasks[id].state.Killed?
    ensures RunSys(plan, m, s, actions).stage <= j
  {
    hide KernelOk, KillsSeen, MailOk, Tracked, Possible, RunSys;
    TerminalForever(plan, m, s, actions, id);
    RunOk(plan, m, s, actions);
    var s' := RunSys(plan, m, s, actions);
    KilledNotFinished(plan, j, s'.kernel, id);
  }

  /** The reported `ok` of an ended run: no kill was seen if and only if every
      planned task is finished. */
  lemma {:induction false} OkMeansAllFinished(plan: Plan, m: nat, slots: nat, actions: seq<Action>, s: Sys)
    requires Possible(plan, m, InitSys(slots), actions) && s == RunSys(plan, m, InitSys(slots), actions)
    requires Ended(plan, s)
    ensures s.kills == [] <==> forall j :: 0 <= j < |plan| ==> StageFinished(plan, j, s.kernel)
  {
    hide KernelOk, MailOk, Tracked, Possible, RunSys;
    InitOk(plan, m, slots);
    RunOk(plan, m, InitSys(slots), actions);
    if s.kills != [] {
      var id :| InStage(plan[s.stage], id) && id in s.kernel.tasks && s.kernel.tasks[id].state.Killed?;
      KilledNotFinished(plan, s.stage, s.kernel, id);
    }
  }
}
