/** What becomes of the workers' reports, and which kills a poll sees. */
module StagedReports {
  import opened Wrappers
  import opened Kernel
  import opened KernelInvariants
  import opened KernelRetry
  import opened KernelTask
  import opened StagedRun
  import opened StagedTermination
  import opened StagedTheorems

  // ----- mail is delivered in order ------------------------------------------------------------------

  function Delivered(actions: seq<Action>): nat {
    if actions == [] then 0 else (if actions[0].Deliver? then 1 else 0) + Delivered(actions[1..])
  }

  lemma MailNext(plan: Plan, m: nat, s: Sys, a: Action)
    requires Enabled(plan, s, a)
    ensures var s' := Next(plan, m, s, a);
            if a.Deliver? then s'.mailbox == s.mailbox[1..] else s.mailbox <= s'.mailbox
  {
    hide Step, StartedIds;
  }

  lemma {:induction false} MailFlows(plan: Plan, m: nat, s: Sys, actions: seq<Action>)
    requires Possible(plan, m, s, actions) && Delivered(actions) <= |s.mailbox|
    ensures s.mailbox[Delivered(actions)..] <= RunSys(plan, m, s, actions).mailbox
    decreases |actions|
  {
    hide Next, Enabled;
    if actions != [] {
      var s' := Next(plan, m, s, actions[0]);
      MailNext(plan, m, s, actions[0]);
      MailFlows(plan, m, s', actions[1..]);
      var d := Delivered(actions[1..]);
      if actions[0].Deliver? {
        assert s.mailbox[1..][d..] == s.mailbox[d + 1..];
      } else {
        assert s.mailbox[d..] <= s'.mailbox[d..];
      }
    }
  }

  // ----- what a report does ------------------------------------------------------------------------------

  /** A job that is done finishes its task with its result; one beyond a retry
      kills it; any other failure is retried while the cap allows it. */
  predicate Lands(t: Task, outcome: Outcome, m: nat, u: Task) {
    match outcome
    case Done(result) => u.state.Finished? && u.result == Some(result)
    case Hard(error) => u.state.Killed? && u.error == Some(error)
    case Soft(error) =>
      && u.error == Some(error) && u.attempts == t.attempts + 1
      && if m > 0 && t.attempts >= m then u.state.Killed? else u.state.Pending? || u.state.Running?
  }

  lemma StepLands(k: State, id: Id, outcome: Outcome, m: nat, now: int)
    requires Valid(k) && Runs(k, id) && k.tasks[id].maxAttempts == m
    ensures var r := Step(k, Event(ReportOf(id, outcome), now));
            id in r.tasks && Lands(k.tasks[id], outcome, m, r.tasks[id])
  {
    hide Valid, Step, CallsOf, HookOf, Went;
    var e := Event(ReportOf(id, outcome), now);
    assert !RestoresId(e.cmd, id);
    var u := OneStep(k, e, id);
    StepWords(k, e, id, u);
  }

  /** A worker's report lands, however much mail is before it: when as many
      messages were delivered as lay in the mailbox, the next one delivered is
      the report, and its task ends as the report says. */
  lemma ReportLands(plan: Plan, m: nat, slots: nat, actions: seq<Action>, s: Sys, id: Id, outcome: Outcome, t: Sys,
                    more: seq<Action>, now: int)
    requires Possible(plan, m, InitSys(slots), actions) && s == RunSys(plan, m, InitSys(slots), actions)
    requires id in s.workers && t == Next(plan, m, s, Report(id, outcome))
    requires Possible(plan, m, t, more) && Delivered(more) == |s.mailbox|
    ensures var before := RunSys(plan, m, t, more);
            && Enabled(plan, before, Deliver(now)) && id in before.kernel.tasks
            && var after := Next(plan, m, before, Deliver(now));
               id in after.kernel.tasks && Lands(before.kernel.tasks[id], outcome, m, after.kernel.tasks[id])
  {
    hide SysOk, Possible, RunSys, Lands, Step, StartedIds, Delivered;
    InitOk(plan, m, slots);
    RunOk(plan, m, InitSys(slots), actions);
    NextOk(plan, m, s, Report(id, outcome));
    RunOk(plan, m, t, more);
    MailFlows(plan, m, t, more);
    var before := RunSys(plan, m, t, more);
    assert t.mailbox[|s.mailbox|..] == [ReportOf(id, outcome)];
    assert before.mailbox[0] == ReportOf(id, outcome);
    HeadRuns(plan, m, before, id, outcome);
    StepLands(before.kernel, id, outcome, m, now);
  }

  lemma HeadRuns(plan: Plan, m: nat, s: Sys, id: Id, outcome: Outcome)
    requires SysOk(plan, m, s) && s.mailbox != [] && s.mailbox[0] == ReportOf(id, outcome)
    ensures Valid(s.kernel) && Runs(s.kernel, id) && s.kernel.tasks[id].maxAttempts == m
  {
    hide Valid, PlaceOk, KillsSeen;
    MailIsExpected(plan, m, s);
  }

  // ----- what a poll sees ----------------------------------------------------------------------------------

  predicate KilledWith(k: State, id: Id, error: Option<string>) {
    id in k.tasks && k.tasks[id].state.Killed? && k.tasks[id].error == error
  }

  lemma {:induction false} KillsInAre(stage: seq<TaskSpec>, k: State, x: (Id, Option<string>))
    requires SnapshotAgrees(k)
    ensures x in KillsIn(stage, k.snapshot) <==> InStage(stage, x.0) && KilledWith(k, x.0, x.1)
  {
    hide SnapshotAgrees;
    if stage == [] {
      assert !InStage(stage, x.0);
    } else {
      KillsInAre(stage[1..], k, x);
      FoundIsRegistered(k, stage[0].id);
      OwnIdIs(k, stage[0].id);
      InStageCons(stage, x.0);
    }
  }

  lemma OwnIdIs(k: State, id: Id)
    requires SnapshotAgrees(k)
    ensures id in k.tasks ==> k.tasks[id].id == id
  {}

  lemma InStageCons(stage: seq<TaskSpec>, id: Id)
    requires stage != []
    ensures InStage(stage, id) <==> stage[0].id == id || InStage(stage[1..], id)
  {
    if InStage(stage, id) && stage[0].id != id {
      var i :| 0 <= i < |stage| && stage[i].id == id;
      assert stage[1..][i - 1].id == id;
    }
    if InStage(stage[1..], id) {
      var i :| 0 <= i < |stage[1..]| && stage[1..][i].id == id;
      assert stage[i + 1].id == id;
    }
  }

  /** A poll sees the kills of its stage, each with its error, and no others. */
  lemma PollSeesKills(plan: Plan, m: nat, slots: nat, actions: seq<Action>, s: Sys)
    requires Possible(plan, m, InitSys(slots), actions) && s == RunSys(plan, m, InitSys(slots), actions)
    requires Enabled(plan, s, Poll)
    ensures forall x: (Id, Option<string>) :: x in Next(plan, m, s, Poll).kills <==>
              InStage(plan[s.stage], x.0) && KilledWith(s.kernel, x.0, x.1)
  {
    hide Possible, RunSys, Active, InStage, KilledWith, KillsIn;
    InitOk(plan, m, slots);
    RunOk(plan, m, InitSys(slots), actions);
    KernelAgrees(plan, m, s);
    forall x: (Id, Option<string>)
      ensures x in KillsIn(plan[s.stage], s.kernel.snapshot) <==>
                InStage(plan[s.stage], x.0) && KilledWith(s.kernel, x.0, x.1) {
      KillsInAre(plan[s.stage], s.kernel, x);
    }
    hide SysOk;
  }

  lemma KernelAgrees(plan: Plan, m: nat, s: Sys)
    requires SysOk(plan, m, s)
    ensures SnapshotAgrees(s.kernel)
  {}

  // ----- how often a task is started -----------------------------------------------------------------------

  ghost predicate AllCapped(k: State) { forall id :: Capped(k, id) }

  lemma KernelCapped(k: State, e: Event, m: nat)
    requires KernelOk(k, m) && m > 0 && Expected(k, e.cmd, m) && AllCapped(k)
    ensures AllCapped(Step(k, e))
  {
    hide Valid, Step, Capped;
    forall id ensures Capped(Step(k, e), id) {
      assert !RestoresId(e.cmd, id);
      if id in k.tasks { assert PlainTask(k.tasks[id], m); }
      StepCapped(k, e, id);
    }
  }

  lemma NextCapped(plan: Plan, m: nat, s: Sys, a: Action)
    requires SysOk(plan, m, s) && m > 0 && Enabled(plan, s, a) && AllCapped(s.kernel)
    ensures AllCapped(Next(plan, m, s, a).kernel)
  {
    hide KernelOk, AllCapped, Step, PlaceOk, KillsSeen, StartedIds;
    match a
    case Deliver(now) =>
      MailIsExpected(plan, m, s);
      KernelCapped(s.kernel, Event(s.mailbox[0], now), m);
    case Clock(now) => KernelCapped(s.kernel, Event(Command.Tick, now), m);
    case _ =>
  }

  lemma {:induction false} RunCapped(plan: Plan, m: nat, s: Sys, actions: seq<Action>)
    requires SysOk(plan, m, s) && m > 0 && Possible(plan, m, s, actions) && AllCapped(s.kernel)
    ensures AllCapped(RunSys(plan, m, s, actions).kernel)
    decreases |actions|
  {
    hide SysOk, Next, Enabled, AllCapped;
    if actions != [] {
      NextOk(plan, m, s, actions[0]);
      NextCapped(plan, m, s, actions[0]);
      RunCapped(plan, m, Next(plan, m, s, actions[0]), actions[1..]);
    }
  }

  /** Retries are extra attempts: with `retries` of them allowed, no task of a
      staged run is ever started more than once and that many times over. */
  lemma RetriesAreExtra(plan: Plan, retries: nat, slots: nat, actions: seq<Action>, id: Id)
    requires retries > 0 && Possible(plan, CapFor(retries), InitSys(slots), actions)
    ensures StartsOf(RunSys(plan, CapFor(retries), InitSys(slots), actions).kernel.calls, id) <= 1 + retries
  {
    hide SysOk, Possible, RunSys;
    var m := CapFor(retries);
    InitOk(plan, m, slots);
    assert AllCapped(InitSys(slots).kernel);
    RunCapped(plan, m, InitSys(slots), actions);
    RunOk(plan, m, InitSys(slots), actions);
    CapHolds(plan, m, RunSys(plan, m, InitSys(slots), actions), id);
  }

  lemma CapHolds(plan: Plan, m: nat, s: Sys, id: Id)
    requires SysOk(plan, m, s) && m > 0 && AllCapped(s.kernel)
    ensures StartsOf(s.kernel.calls, id) <= m
  {
    hide Valid, PlaceOk, MailOk, KillsSeen, StartsOf;
    assert Capped(s.kernel, id);
    if id in s.kernel.tasks { assert PlainTask(s.kernel.tasks[id], m); }
  }
}
