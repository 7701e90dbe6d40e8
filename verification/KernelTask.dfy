/** What a run is to one task: its record tells the last word on each of its
    fields, and its hooks are called in order. */
module KernelTask {
  import opened Wrappers
  import opened Kernel
  import opened KernelInvariants
  import opened KernelRuns
  import opened KernelPriority
  import opened KernelRetry

  // ----- the hook calls about a task ----------------------------------------------------------------

  function CallsOf(calls: seq<HookCall>, id: Id): seq<HookCall> {
    if calls == [] then []
    else CallsOf(calls[..|calls| - 1], id) + (if calls[|calls| - 1].task.id == id then [calls[|calls| - 1]] else [])
  }

  lemma CallsOfSnoc(calls: seq<HookCall>, c: HookCall, id: Id)
    ensures CallsOf(calls + [c], id) == CallsOf(calls, id) + (if c.task.id == id then [c] else [])
  {
    assert (calls + [c])[..|calls|] == calls;
  }

  /** The hook that puts the task to work. */
  predicate Goes(c: HookCall) { c.OnStart? || c.OnResume? }

  /** The step gives the task a slot. */
  ghost predicate Went(s: State, e: Event, id: Id) {
    var cs := CallsOf(Step(s, e).calls, id);
    |cs| > |CallsOf(s.calls, id)| && Goes(cs[|cs| - 1])
  }

  // ----- what a message says --------------------------------------------------------------------------

  function Named(cmd: Command): Option<Id> {
    match cmd
    case Pause(id, _) => Some(id)
    case Resume(id, _) => Some(id)
    case Kill(id, _) => Some(id)
    case Finish(id, _, _) => Some(id)
    case Reschedule(id, _, _) => Some(id)
    case Checkpoint(id, _) => Some(id)
    case Update(id, _) => Some(id)
    case _ => None
  }

  /** Whether a message has an effect on a task in its state. */
  predicate Heeded(st: TaskState, cmd: Command) {
    match cmd
    case Pause(_, _) => st.Pending? || st.Running?
    case Resume(_, _) => st.Paused?
    case Finish(_, _, _) => st.Running?
    case Kill(_, _) => !st.Finished? && !st.Killed?
    case _ => true
  }

  predicate Hears(s: State, e: Event, id: Id) {
    id in s.tasks && Named(e.cmd) == Some(id) && Heeded(s.tasks[id].state, e.cmd)
  }

  /** A failure reported when all the attempts allowed were made. */
  predicate PastCap(s: State, e: Event, id: Id) {
    e.cmd.Reschedule? && id in s.tasks && s.tasks[id].maxAttempts > 0 && s.tasks[id].attempts >= s.tasks[id].maxAttempts
  }

  predicate Fails(s: State, e: Event, id: Id) { Hears(s, e, id) && e.cmd.Reschedule? && !PastCap(s, e, id) }

  function Given<T>(x: Option<T>): Option<Option<T>> { if x.Some? then Some(x) else None }

  ghost function CheckpointSaid(s: State, e: Event, id: Id): Option<Option<Payload>> {
    if !Hears(s, e, id) then None
    else match e.cmd
      case Pause(_, c) => Given(c)
      case Resume(_, c) => Given(c)
      case Finish(_, _, c) => Given(c)
      case Checkpoint(_, v) => Some(Some(v))
      case _ => None
  }

  ghost function InfoSaid(s: State, e: Event, id: Id): Option<Payload> {
    if Hears(s, e, id) && e.cmd.Update? then Some(e.cmd.info) else None
  }

  ghost function ResultSaid(s: State, e: Event, id: Id): Option<Option<Payload>> {
    if Hears(s, e, id) && e.cmd.Finish? then Given(e.cmd.result) else None
  }

  ghost function ErrorSaid(s: State, e: Event, id: Id): Option<Option<string>> {
    if !Hears(s, e, id) then None
    else match e.cmd
      case Kill(_, reason) => Some(reason)
      case Reschedule(_, error, _) => Some(Some(error))
      case _ => None
  }

  ghost function EndSaid(s: State, e: Event, id: Id): Option<Option<int>> {
    if Hears(s, e, id) && (e.cmd.Finish? || e.cmd.Kill? || PastCap(s, e, id)) then Some(Some(e.now)) else None
  }

  ghost function StartSaid(s: State, e: Event, id: Id): Option<Option<int>> {
    if Went(s, e, id) then Some(Some(e.now)) else None
  }

  ghost function ResumeSaid(s: State, e: Event, id: Id): Option<bool> {
    if Went(s, e, id) || Fails(s, e, id) then Some(false)
    else if Hears(s, e, id) && e.cmd.Resume? then Some(true)
    else None
  }

  ghost function StateSaid(s: State, e: Event, id: Id): Option<TaskState> {
    if Went(s, e, id) then Some(Running)
    else if !Hears(s, e, id) then None
    else match e.cmd
      case Pause(_, _) => Some(Paused)
      case Resume(_, _) => Some(Pending)
      case Finish(_, _, _) => Some(Finished)
      case Kill(_, _) => Some(Killed)
      case Reschedule(_, _, _) => Some(if PastCap(s, e, id) then Killed else Pending)
      case _ => None
  }

  function Word<T>(said: Option<T>, before: T): T { if said.Some? then said.value else before }

  /** The last thing said over a run; `first` if nothing was. */
  ghost function Last<T>(said: (State, Event, Id) -> Option<T>, s: State, events: seq<Event>, id: Id, first: T): T {
    if events == [] then first
    else
      var n := |events| - 1;
      Word(said(Run(s, events[..n]), events[n], id), Last(said, s, events[..n], id, first))
  }

  /** Attempts: one for each failure reported, and one for a first start before any. */
  ghost function Tries(s: State, events: seq<Event>, id: Id, first: nat): nat {
    if events == [] then first
    else
      var n := |events| - 1;
      TriesAfter(Run(s, events[..n]), events[n], id, Tries(s, events[..n], id, first))
  }

  ghost function TriesAfter(s: State, e: Event, id: Id, tries: nat): nat {
    var failed := tries + (if Hears(s, e, id) && e.cmd.Reschedule? then 1 else 0);
    if Went(s, e, id) && failed == 0 then 1 else failed
  }

  // ----- one message, for one task ----------------------------------------------------------------------

  /** The record after the message, before any slot is given out. */
  ghost predicate Told(s: State, e: Event, id: Id, u: Task)
    requires id in s.tasks
  {
    var t := s.tasks[id];
    && u.id == t.id && u.priority == t.priority && u.maxAttempts == t.maxAttempts && u.createdMs == t.createdMs
    && u.order == t.order && u.lastStartedMs == t.lastStartedMs
    && u.attempts == t.attempts + (if Hears(s, e, id) && e.cmd.Reschedule? then 1 else 0)
    && u.checkpoint == Word(CheckpointSaid(s, e, id), t.checkpoint) && u.info == Word(InfoSaid(s, e, id), t.info)
    && u.result == Word(ResultSaid(s, e, id), t.result) && u.error == Word(ErrorSaid(s, e, id), t.error)
    && u.finishedMs == Word(EndSaid(s, e, id), t.finishedMs)
    && u.resume == (if Fails(s, e, id) then false else t.resume || (Hears(s, e, id) && e.cmd.Resume?))
    && u.state == (if !Hears(s, e, id) then t.state
                   else match e.cmd
                     case Pause(_, _) => Paused
                     case Resume(_, _) => Pending
                     case Finish(_, _, _) => Finished
                     case Kill(_, _) => Killed
                     case Reschedule(_, _, _) => if PastCap(s, e, id) then Killed else Pending
                     case _ => t.state)
  }

  /** The hook the message itself calls, with the record it carries. */
  ghost function HookOf(s: State, e: Event, id: Id, u: Task): seq<HookCall> {
    if !Hears(s, e, id) then []
    else match e.cmd
      case Pause(_, _) => if s.tasks[id].state.Running? then [OnPause(u, u.checkpoint)] else []
      case Finish(_, _, _) => [OnFinish(u)]
      case Kill(_, reason) => [OnKill(u, reason)]
      case Reschedule(_, error, _) => if PastCap(s, e, id) then [OnKill(u, Some(error))] else [OnReschedule(u, error)]
      case _ => []
  }

  ghost predicate Edited(s: State, e: Event, id: Id, r: State)
    requires id in s.tasks
  {
    id in r.tasks && Told(s, e, id, r.tasks[id])
    && CallsOf(r.calls, id) == CallsOf(s.calls, id) + HookOf(s, e, id, r.tasks[id])
  }

  lemma SameIsTold(s: State, e: Event, id: Id, r: State)
    requires id in s.tasks && id in r.tasks && r.tasks[id] == s.tasks[id] && !Hears(s, e, id)
    requires CallsOf(r.calls, id) == CallsOf(s.calls, id)
    ensures Edited(s, e, id, r)
  {
    assert CallsOf(s.calls, id) + [] == CallsOf(s.calls, id);
  }

  lemma OtherCalls(s: State, e: Event, id: Id)
    requires Named(e.cmd).Some? && Named(e.cmd).value in s.tasks && Named(e.cmd).value != id
    requires s.tasks[Named(e.cmd).value].id == Named(e.cmd).value
    ensures CallsOf(Handle(s, e).s.calls, id) == CallsOf(s.calls, id)
  {
    hide CallsOf, Handle;
    match e.cmd
    case Reschedule(_, _, _) => OtherFailure(s, e, id);
    case Finish(_, _, _) => OtherEnd(s, e, id);
    case Kill(_, _) => OtherEnd(s, e, id);
    case Pause(_, _) => OtherPause(s, e, id);
    case _ => OtherNote(s, e, id);
  }

  /** Messages about other tasks. */
  lemma OthersEdited(s: State, e: Event, id: Id)
    requires Core(s) && id in s.tasks && Named(e.cmd).Some? && Named(e.cmd) != Some(id)
    ensures Edited(s, e, id, Handle(s, e).s)
  {
    hide Core, CallsOf, Edited;
    var other := Named(e.cmd).value;
    var r := Handle(s, e).s;
    if other in s.tasks {
      CoreIds(s, other);
      OtherCalls(s, e, id);
    }
    SameIsTold(s, e, id, r);
  }

  lemma OtherFailure(s: State, e: Event, id: Id)
    requires Named(e.cmd).Some? && Named(e.cmd).value in s.tasks && Named(e.cmd).value != id
    requires s.tasks[Named(e.cmd).value].id == Named(e.cmd).value && (e.cmd.Reschedule?)
    ensures CallsOf(Handle(s, e).s.calls, id) == CallsOf(s.calls, id)
  {
    hide CallsOf;
    var r := Handle(s, e).s;
    if r.calls != s.calls { CallsOfSnoc(s.calls, r.calls[|s.calls|], id); }
  }

  lemma OtherEnd(s: State, e: Event, id: Id)
    requires Named(e.cmd).Some? && Named(e.cmd).value in s.tasks && Named(e.cmd).value != id
    requires s.tasks[Named(e.cmd).value].id == Named(e.cmd).value && (e.cmd.Finish? || e.cmd.Kill?)
    ensures CallsOf(Handle(s, e).s.calls, id) == CallsOf(s.calls, id)
  {
    hide CallsOf;
    var r := Handle(s, e).s;
    if r.calls != s.calls { CallsOfSnoc(s.calls, r.calls[|s.calls|], id); }
  }

  lemma OtherPause(s: State, e: Event, id: Id)
    requires Named(e.cmd).Some? && Named(e.cmd).value in s.tasks && Named(e.cmd).value != id
    requires s.tasks[Named(e.cmd).value].id == Named(e.cmd).value && (e.cmd.Pause?)
    ensures CallsOf(Handle(s, e).s.calls, id) == CallsOf(s.calls, id)
  {
    hide CallsOf;
    var r := Handle(s, e).s;
    if r.calls != s.calls { CallsOfSnoc(s.calls, r.calls[|s.calls|], id); }
  }

  lemma OtherNote(s: State, e: Event, id: Id)
    requires Named(e.cmd).Some? && Named(e.cmd).value in s.tasks && Named(e.cmd).value != id
    requires s.tasks[Named(e.cmd).value].id == Named(e.cmd).value
    requires e.cmd.Resume? || e.cmd.Checkpoint? || e.cmd.Update?
    ensures CallsOf(Handle(s, e).s.calls, id) == CallsOf(s.calls, id)
  {
    hide CallsOf;
  }

  /** Messages about no task that is registered. */
  lemma NoneEdited(s: State, e: Event, id: Id)
    requires id in s.tasks && Named(e.cmd).None? && !RestoresId(e.cmd, id)
    ensures Edited(s, e, id, Handle(s, e).s)
  {
    hide CallsOf, Edited, RestoreAll, MoveDelayed, RestoresId;
    if e.cmd.Restore? {
      assert id !in Names(e.cmd.tasks) by { NotNamed(e.cmd, id); }
      RestoreOthers(s, e.cmd.tasks, e.now, id);
    }
    FlushedTasks(s, e.now);
    SameIsTold(s, e, id, Handle(s, e).s);
  }

  lemma NotNamed(cmd: Command, id: Id)
    requires cmd.Restore? && !RestoresId(cmd, id)
    ensures id !in Names(cmd.tasks)
  {}

  lemma FlushedTasks(s: State, now: int)
    ensures MoveDelayed(s, now).tasks == s.tasks && MoveDelayed(s, now).calls == s.calls
  {}

  lemma PauseEdited(s: State, e: Event, id: Id)
    requires id in s.tasks && s.tasks[id].id == id && Named(e.cmd) == Some(id) && (e.cmd.Pause?)
    ensures Edited(s, e, id, Handle(s, e).s)
  {
    hide CallsOf;
    var r := Handle(s, e).s;
    if r.calls != s.calls { CallsOfSnoc(s.calls, r.calls[|s.calls|], id); }
    assert CallsOf(s.calls, id) + [] == CallsOf(s.calls, id);
  }

  lemma ResumeEdited(s: State, e: Event, id: Id)
    requires id in s.tasks && s.tasks[id].id == id && Named(e.cmd) == Some(id) && (e.cmd.Resume?)
    ensures Edited(s, e, id, Handle(s, e).s)
  {
    hide CallsOf;
    assert CallsOf(s.calls, id) + [] == CallsOf(s.calls, id);
  }

  lemma FinishEdited(s: State, e: Event, id: Id)
    requires id in s.tasks && s.tasks[id].id == id && Named(e.cmd) == Some(id) && (e.cmd.Finish?)
    ensures Edited(s, e, id, Handle(s, e).s)
  {
    hide CallsOf;
    var r := Handle(s, e).s;
    if r.calls != s.calls { CallsOfSnoc(s.calls, r.calls[|s.calls|], id); }
    assert CallsOf(s.calls, id) + [] == CallsOf(s.calls, id);
  }

  lemma KillEdited(s: State, e: Event, id: Id)
    requires id in s.tasks && s.tasks[id].id == id && Named(e.cmd) == Some(id) && (e.cmd.Kill?)
    ensures Edited(s, e, id, Handle(s, e).s)
  {
    hide CallsOf;
    var r := Handle(s, e).s;
    if r.calls != s.calls { CallsOfSnoc(s.calls, r.calls[|s.calls|], id); }
    assert CallsOf(s.calls, id) + [] == CallsOf(s.calls, id);
  }

  lemma NoteEdited(s: State, e: Event, id: Id)
    requires id in s.tasks && s.tasks[id].id == id && Named(e.cmd) == Some(id) && (e.cmd.Checkpoint? || e.cmd.Update?)
    ensures Edited(s, e, id, Handle(s, e).s)
  {
    hide CallsOf;
    assert CallsOf(s.calls, id) + [] == CallsOf(s.calls, id);
  }

  lemma FailureEdited(s: State, e: Event, id: Id)
    requires id in s.tasks && s.tasks[id].id == id && Named(e.cmd) == Some(id) && e.cmd.Reschedule?
    ensures Edited(s, e, id, Handle(s, e).s)
  {
    hide CallsOf;
    var r := Handle(s, e).s;
    CallsOfSnoc(s.calls, r.calls[|s.calls|], id);
  }

  lemma MessageEdits(s: State, e: Event, id: Id)
    requires Core(s) && id in s.tasks && !RestoresId(e.cmd, id)
    ensures Edited(s, e, id, Handle(s, e).s)
  {
    hide Core, Edited, Handle, RestoresId;
    if Named(e.cmd).None? {
      NoneEdited(s, e, id);
    } else if Named(e.cmd) != Some(id) {
      OthersEdited(s, e, id);
    } else {
      CoreIds(s, id);
      match e.cmd
      case Pause(_, _) => PauseEdited(s, e, id);
      case Resume(_, _) => ResumeEdited(s, e, id);
      case Finish(_, _, _) => FinishEdited(s, e, id);
      case Kill(_, _) => KillEdited(s, e, id);
      case Reschedule(_, _, _) => FailureEdited(s, e, id);
      case _ => NoteEdited(s, e, id);
    }
  }

  // ----- the slots given out -----------------------------------------------------------------------------

  /** A dispatch leaves the task as it is, or starts it. */
  ghost predicate Passed(s: State, r: State, id: Id, now: int)
    requires id in s.tasks
  {
    && id in r.tasks
    && if r.tasks[id] == s.tasks[id] then CallsOf(r.calls, id) == CallsOf(s.calls, id)
       else s.tasks[id].state.Pending? && r.tasks[id] == Started(s.tasks[id], now)
            && CallsOf(r.calls, id) == CallsOf(s.calls, id) + [StartCall(s.tasks[id], now)]
  }

  lemma TurnPasses(s: State, id: Id, now: int)
    requires Core(s) && s.queue != [] && id in s.tasks
    ensures Passed(s, DispatchOne(s, now), id, now)
  {
    hide Core, DispatchOne, CallsOf;
    var key := s.queue[Top(s.queue)];
    if Stale(s, key) {
      TurnSkips(s, now);
    } else {
      TurnStarts(s, now);
      CoreIds(s, key.id);
      CallsOfSnoc(s.calls, StartCall(s.tasks[key.id], now), id);
      assert CallsOf(s.calls, id) + [] == CallsOf(s.calls, id);
    }
  }

  lemma {:induction false} DispatchPasses(s: State, id: Id, now: int)
    requires Core(s) && id in s.tasks
    ensures Passed(s, Dispatch(s, now), id, now)
    decreases |s.queue|
  {
    hide Core, DispatchOne, CallsOf, StartCall;
    if s.running < s.slots && s.queue != [] {
      assert Core(DispatchOne(s, now)) by { DispatchOneKeepsCore(s, now); }
      TurnPasses(s, id, now);
      DispatchPasses(DispatchOne(s, now), id, now);
    }
  }

  // ----- one step ----------------------------------------------------------------------------------------

  /** What one step does to a task's record and which hooks it calls for it. */
  ghost predicate StepTells(s: State, e: Event, id: Id, u: Task)
    requires id in s.tasks
  {
    var s', t := Step(s, e), s.tasks[id];
    && Told(s, e, id, u) && id in s'.tasks
    && (if Went(s, e, id) then u.state.Pending? && s'.tasks[id] == Started(u, e.now) else s'.tasks[id] == u)
    && CallsOf(s'.calls, id)
       == CallsOf(s.calls, id) + HookOf(s, e, id, u) + (if Went(s, e, id) then [StartCall(u, e.now)] else [])
  }

  lemma OneStep(s: State, e: Event, id: Id) returns (u: Task)
    requires Valid(s) && id in s.tasks && !RestoresId(e.cmd, id)
    ensures StepTells(s, e, id, u)
  {
    hide Core, Idle, Handle, Dispatch, RestoresId, CallsOf, Told;
    HandleKeepsCore(s, e);
    MessageEdits(s, e, id);
    var r := Handle(s, e).s;
    u := r.tasks[id];
    DispatchPasses(r, id, e.now);
    HookIsNoStart(s, e, id, u);
    var base := CallsOf(s.calls, id) + HookOf(s, e, id, u);
    assert base + [] == base;
    if u.state.Pending? { StartedRuns(u, e.now); }
  }

  lemma StartedRuns(u: Task, now: int)
    requires u.state.Pending?
    ensures Started(u, now) != u && Goes(StartCall(u, now))
  {}

  lemma HookIsNoStart(s: State, e: Event, id: Id, u: Task)
    ensures var h := HookOf(s, e, id, u); h == [] || (|h| == 1 && !Goes(h[0]))
  {}

  // ----- whole runs ----------------------------------------------------------------------------------------

  lemma RunSnoc(s: State, events: seq<Event>)
    requires events != []
    ensures var n := |events| - 1; Run(s, events) == Step(Run(s, events[..n]), events[n])
  {
    hide Step;
    var n := |events| - 1;
    assert events == events[..n] + [events[n]];
    RunAppend(s, events[..n], [events[n]]);
    RunOne(Run(s, events[..n]), events[n]);
  }

  /** The record of a task tells the last word on each of its fields. */
  ghost predicate LastWords(s: State, events: seq<Event>, id: Id)
    requires id in s.tasks
  {
    var r, t := Run(s, events), s.tasks[id];
    && id in r.tasks
    && r.tasks[id].id == t.id && r.tasks[id].priority == t.priority && r.tasks[id].maxAttempts == t.maxAttempts
    && r.tasks[id].createdMs == t.createdMs && r.tasks[id].order == t.order
    && r.tasks[id].attempts == Tries(s, events, id, t.attempts)
    && r.tasks[id].state == Last(StateSaid, s, events, id, t.state)
    && r.tasks[id].resume == Last(ResumeSaid, s, events, id, t.resume)
    && r.tasks[id].info == Last(InfoSaid, s, events, id, t.info)
    && r.tasks[id].checkpoint == Last(CheckpointSaid, s, events, id, t.checkpoint)
    && r.tasks[id].result == Last(ResultSaid, s, events, id, t.result)
    && r.tasks[id].error == Last(ErrorSaid, s, events, id, t.error)
    && r.tasks[id].lastStartedMs == Last(StartSaid, s, events, id, t.lastStartedMs)
    && r.tasks[id].finishedMs == Last(EndSaid, s, events, id, t.finishedMs)
  }

  lemma StepWords(s: State, e: Event, id: Id, u: Task)
    requires id in s.tasks && StepTells(s, e, id, u)
    ensures var s', t := Step(s, e), s.tasks[id];
            && id in s'.tasks
            && s'.tasks[id].id == t.id && s'.tasks[id].priority == t.priority
            && s'.tasks[id].maxAttempts == t.maxAttempts
            && s'.tasks[id].createdMs == t.createdMs && s'.tasks[id].order == t.order
            && s'.tasks[id].attempts == TriesAfter(s, e, id, t.attempts)
            && s'.tasks[id].state == Word(StateSaid(s, e, id), t.state)
            && s'.tasks[id].resume == Word(ResumeSaid(s, e, id), t.resume)
            && s'.tasks[id].info == Word(InfoSaid(s, e, id), t.info)
            && s'.tasks[id].checkpoint == Word(CheckpointSaid(s, e, id), t.checkpoint)
            && s'.tasks[id].result == Word(ResultSaid(s, e, id), t.result)
            && s'.tasks[id].error == Word(ErrorSaid(s, e, id), t.error)
            && s'.tasks[id].lastStartedMs == Word(StartSaid(s, e, id), t.lastStartedMs)
            && s'.tasks[id].finishedMs == Word(EndSaid(s, e, id), t.finishedMs)
  {
    hide Step, Went, CallsOf, HookOf, CheckpointSaid, ResultSaid, ErrorSaid, EndSaid, InfoSaid;
  }

  lemma {:induction false} RecordIsLastWord(s: State, events: seq<Event>, id: Id)
    requires Valid(s) && id in s.tasks && NeverRestores(events, id)
    ensures LastWords(s, events, id)
    decreases |events|
  {
    hide Valid, Step, RestoresId, StepTells, Run;
    hide StateSaid, ResumeSaid, InfoSaid, CheckpointSaid, ResultSaid, ErrorSaid, StartSaid, EndSaid, TriesAfter;
    if events == [] {
      NoEvents(s);
    } else {
      var n := |events| - 1;
      var before := Run(s, events[..n]);
      RecordIsLastWord(s, events[..n], id);
      RunKeepsValid(s, events[..n]);
      RunSnoc(s, events);
      var u := OneStep(before, events[n], id);
      StepWords(before, events[n], id, u);
    }
  }

  lemma NoEvents(s: State)
    ensures Run(s, []) == s
  {}

  // ----- the hooks -------------------------------------------------------------------------------------------

  /** The task's next slot is to resume it, not to start it. */
  ghost predicate ToResume(s: State, e: Event, id: Id)
    requires id in s.tasks
  {
    (s.tasks[id].resume && !Fails(s, e, id)) || (Hears(s, e, id) && e.cmd.Resume?)
  }

  /** The hook a message calls at once, if any: with its own reason or error, and
      with the checkpoint the record then holds. */
  ghost predicate MessageHook(s: State, e: Event, id: Id, cs: seq<HookCall>)
    requires id in s.tasks
  {
    if !Hears(s, e, id) then cs == []
    else match e.cmd
      case Pause(_, _) =>
        if s.tasks[id].state.Running?
        then |cs| == 1 && cs[0].OnPause? && cs[0].checkpoint == Word(CheckpointSaid(s, e, id), s.tasks[id].checkpoint)
        else cs == []
      case Finish(_, _, _) =>
        |cs| == 1 && cs[0].OnFinish? && cs[0].task.result == Word(ResultSaid(s, e, id), s.tasks[id].result)
      case Kill(_, reason) => |cs| == 1 && cs[0].OnKill? && cs[0].reason == reason
      case Reschedule(_, error, _) =>
        |cs| == 1 && if PastCap(s, e, id) then cs[0].OnKill? && cs[0].reason == Some(error)
                     else cs[0].OnReschedule? && cs[0].error == error
      case _ => cs == []
  }

  /** The hook of a slot given out: with the record as it then is. */
  ghost predicate SlotHook(s: State, e: Event, id: Id, c: HookCall)
    requires id in s.tasks && id in Step(s, e).tasks
  {
    && c.task == Step(s, e).tasks[id]
    && if ToResume(s, e, id) then c.OnResume? && c.checkpoint == c.task.checkpoint else c.OnStart?
  }

  /** The hooks one step calls for a task: that of the message, then that of a
      slot given out. */
  lemma StepHooks(s: State, e: Event, id: Id) returns (message: seq<HookCall>)
    requires Valid(s) && id in s.tasks && !RestoresId(e.cmd, id)
    ensures MessageHook(s, e, id, message) && forall c :: c in message ==> c.task.id == id
    ensures id in Step(s, e).tasks
    ensures var before, after := CallsOf(s.calls, id), CallsOf(Step(s, e).calls, id);
            if Went(s, e, id) then |after| == |before| + |message| + 1 && after[..|after| - 1] == before + message
                                   && SlotHook(s, e, id, after[|after| - 1])
            else after == before + message
  {
    hide Valid, Step, RestoresId, CallsOf, Went, Started, StartCall;
    var u := OneStep(s, e, id);
    CoreIdsOf(s, id);
    message := HookOf(s, e, id, u);
    HookTells(s, e, id, u);
    if Went(s, e, id) { StartTells(s, e, id, u); }
    var before := CallsOf(s.calls, id);
    assert before + message + [] == before + message;
  }

  lemma CoreIdsOf(s: State, id: Id)
    requires Valid(s) && id in s.tasks
    ensures s.tasks[id].id == id
  {}

  lemma HookTells(s: State, e: Event, id: Id, u: Task)
    requires id in s.tasks && Told(s, e, id, u)
    ensures MessageHook(s, e, id, HookOf(s, e, id, u))
    ensures forall c :: c in HookOf(s, e, id, u) ==> c.task.id == s.tasks[id].id
  {
    hide CheckpointSaid, ResultSaid, ErrorSaid, EndSaid, InfoSaid;
  }

  lemma StartTells(s: State, e: Event, id: Id, u: Task)
    requires id in s.tasks && Told(s, e, id, u) && id in Step(s, e).tasks && Step(s, e).tasks[id] == Started(u, e.now)
    ensures SlotHook(s, e, id, StartCall(u, e.now))
  {
    hide Step, CheckpointSaid, ResultSaid, ErrorSaid, EndSaid, InfoSaid;
  }

  /** A task that is resumed is handed the last checkpoint reported for it, and
      it is resumed, not started, exactly when the last thing said of it was to
      resume it. */
  lemma ResumeGetsLastCheckpoint(s: State, events: seq<Event>, e: Event, id: Id)
    requires Valid(s) && id in s.tasks && NeverRestores(events + [e], id) && Went(Run(s, events), e, id)
    ensures var r := Run(s, events + [e]);
            var cs := CallsOf(r.calls, id);
            && cs != [] && id in r.tasks && cs[|cs| - 1].task == r.tasks[id]
            && var c := cs[|cs| - 1];
               && (c.OnResume? ==>
                     c.checkpoint == Last(CheckpointSaid, s, events + [e], id, s.tasks[id].checkpoint))
               && (c.OnStart? || c.OnResume?)
               && (c.OnResume? <==>
                     || (Last(ResumeSaid, s, events, id, s.tasks[id].resume) && !Fails(Run(s, events), e, id))
                     || (Hears(Run(s, events), e, id) && e.cmd.Resume?))
  {
    hide Valid, Step, RestoresId, CallsOf, Run;
    hide StateSaid, ResumeSaid, InfoSaid, CheckpointSaid, ResultSaid, ErrorSaid, StartSaid, EndSaid, Tries, Last, Went;
    var all := events + [e];
    assert all[..|events|] == events && all[|events|] == e;
    RunSnoc(s, all);
    NeverRestoresPrefix(events, e, id);
    RecordIsLastWord(s, events, id);
    RecordIsLastWord(s, all, id);
    RunKeepsValid(s, events);
    var message := StepHooks(Run(s, events), e, id);
  }

  lemma NeverRestoresPrefix(events: seq<Event>, e: Event, id: Id)
    requires NeverRestores(events + [e], id)
    ensures NeverRestores(events, id) && !RestoresId(e.cmd, id)
  {
    hide RestoresId;
    var all := events + [e];
    assert all[|events|] == e;
    forall i | 0 <= i < |events| ensures !RestoresId(events[i].cmd, id) { assert all[i] == events[i]; }
  }

  // ----- the order of the hooks --------------------------------------------------------------------------------

  /** Which hook may follow which: work is begun on a task that is fresh, paused
      or to be retried, and paused or finished only while it is under way. */
  predicate Follows(before: Option<HookCall>, c: HookCall) {
    match c
    case OnStart(_) => before.None? || before.value.OnPause? || before.value.OnReschedule?
    case OnResume(_, _) => before.None? || before.value.OnPause? || before.value.OnReschedule?
    case OnPause(_, _) => before.Some? && Goes(before.value)
    case OnFinish(_) => before.Some? && Goes(before.value)
    case _ => true
  }

  function LastOf(cs: seq<HookCall>): Option<HookCall> { if cs == [] then None else Some(cs[|cs| - 1]) }

  ghost predicate Ordered(cs: seq<HookCall>) { forall i :: 0 <= i < |cs| ==> Follows(LastOf(cs[..i]), cs[i]) }

  /** The last hook called tells the state. */
  predicate Fits(st: TaskState, last: Option<HookCall>) {
    && (st.Running? <==> last.Some? && Goes(last.value))
    && (st.Finished? <==> last.Some? && last.value.OnFinish?)
    && (st.Killed? <==> last.Some? && last.value.OnKill?)
  }

  ghost predicate Sound(s: State, id: Id) {
    if id in s.tasks then Ordered(CallsOf(s.calls, id)) && Fits(s.tasks[id].state, LastOf(CallsOf(s.calls, id)))
    else CallsOf(s.calls, id) == []
  }

  lemma OrderedSnoc(cs: seq<HookCall>, c: HookCall)
    requires Ordered(cs) && Follows(LastOf(cs), c)
    ensures Ordered(cs + [c]) && LastOf(cs + [c]) == Some(c)
  {
    hide Follows, LastOf;
    var all := cs + [c];
    forall i | 0 <= i < |all| ensures Follows(LastOf(all[..i]), all[i]) {
      if i < |cs| { assert all[..i] == cs[..i]; } else { assert all[..i] == cs; }
    }
    LastIsLast(cs, c);
  }

  lemma LastIsLast(cs: seq<HookCall>, c: HookCall)
    ensures LastOf(cs + [c]) == Some(c)
  {}

  /** After the message's own hook the record before any slot is given out fits. */
  lemma MessageOrdered(s: State, e: Event, id: Id, u: Task, cs: seq<HookCall>)
    requires id in s.tasks && Told(s, e, id, u) && Ordered(cs) && Fits(s.tasks[id].state, LastOf(cs))
    ensures var more := cs + HookOf(s, e, id, u); Ordered(more) && Fits(u.state, LastOf(more))
  {
    hide CheckpointSaid, ResultSaid, ErrorSaid, EndSaid, InfoSaid, Ordered, LastOf;
    var h := HookOf(s, e, id, u);
    assert cs + [] == cs;
    if h != [] { OrderedSnoc(cs, h[0]); }
  }

  lemma SlotOrdered(u: Task, now: int, cs: seq<HookCall>)
    requires u.state.Pending? && Ordered(cs) && Fits(u.state, LastOf(cs))
    ensures var more := cs + [StartCall(u, now)]; Ordered(more) && Fits(Started(u, now).state, LastOf(more))
  {
    hide Ordered, LastOf;
    PendingFollows(u, now, cs);
    OrderedSnoc(cs, StartCall(u, now));
  }

  lemma PendingFollows(u: Task, now: int, cs: seq<HookCall>)
    requires u.state.Pending? && Fits(u.state, LastOf(cs))
    ensures Follows(LastOf(cs), StartCall(u, now)) && Goes(StartCall(u, now)) && Started(u, now).state.Running?
  {}

  lemma KnownStaysSound(s: State, e: Event, id: Id)
    requires Valid(s) && id in s.tasks && !RestoresId(e.cmd, id) && Sound(s, id)
    ensures Sound(Step(s, e), id)
  {
    hide Valid, Step, RestoresId, CallsOf, Went, Started, StartCall, Told, HookOf, Ordered, Fits, LastOf;
    var u := OneStep(s, e, id);
    var cs := CallsOf(s.calls, id);
    MessageOrdered(s, e, id, u, cs);
    var more := cs + HookOf(s, e, id, u);
    assert more + [] == more;
    if Went(s, e, id) { SlotOrdered(u, e.now, more); }
  }

  // ----- unknown ids ---------------------------------------------------------------------------------------------

  lemma UnknownEdit(s: State, e: Event, id: Id)
    requires Core(s) && id !in s.tasks && !RestoresId(e.cmd, id)
    ensures var r := Handle(s, e).s;
            && CallsOf(r.calls, id) == CallsOf(s.calls, id)
            && (id in r.tasks ==> r.tasks[id].state.Pending?)
  {
    hide Core, CallsOf, RestoreAll, RestoresId, Handle;
    UnknownTasks(s, e, id);
    if e.cmd.Restore? {
      RestoreCalls(s, e.cmd.tasks, e.now);
      HandleRestoreIs(s, e);
    } else if Named(e.cmd).None? || Named(e.cmd).value !in s.tasks {
      NoCall(s, e);
    } else {
      CoreIds(s, Named(e.cmd).value);
      OtherCalls(s, e, id);
    }
  }

  lemma NoCall(s: State, e: Event)
    requires !e.cmd.Restore? && (Named(e.cmd).Some? ==> Named(e.cmd).value !in s.tasks)
    ensures Handle(s, e).s.calls == s.calls
  {}

  lemma {:induction false} UnknownDispatch(s: State, id: Id, now: int)
    requires Core(s) && id !in s.tasks
    ensures var r := Dispatch(s, now); id !in r.tasks && CallsOf(r.calls, id) == CallsOf(s.calls, id)
    decreases |s.queue|
  {
    hide Core, DispatchOne, CallsOf;
    if s.running < s.slots && s.queue != [] {
      var key := s.queue[Top(s.queue)];
      assert Core(DispatchOne(s, now)) by { DispatchOneKeepsCore(s, now); }
      if Stale(s, key) {
        TurnSkips(s, now);
      } else {
        TurnStarts(s, now);
        CoreIds(s, key.id);
        CallsOfSnoc(s.calls, StartCall(s.tasks[key.id], now), id);
      }
      UnknownDispatch(DispatchOne(s, now), id, now);
    }
  }

  lemma UnknownStaysSound(s: State, e: Event, id: Id)
    requires Valid(s) && id !in s.tasks && !RestoresId(e.cmd, id) && Sound(s, id)
    ensures Sound(Step(s, e), id)
  {
    hide Core, Idle, Handle, Dispatch, RestoresId, CallsOf, StartCall, Started, Ordered, LastOf;
    HandleKeepsCore(s, e);
    UnknownEdit(s, e, id);
    var r := Handle(s, e).s;
    NothingOrdered();
    if id in r.tasks {
      DispatchPasses(r, id, e.now);
      SlotOrdered(r.tasks[id], e.now, []);
      assert [] + [StartCall(r.tasks[id], e.now)] == [StartCall(r.tasks[id], e.now)];
    } else {
      UnknownDispatch(r, id, e.now);
    }
  }

  lemma NothingOrdered()
    ensures Ordered([]) && Fits(Pending, LastOf([]))
  {}

  lemma {:induction false} RunStaysSound(s: State, events: seq<Event>, id: Id)
    requires Valid(s) && Sound(s, id) && NeverRestores(events, id)
    ensures Sound(Run(s, events), id)
    decreases |events|
  {
    hide Valid, Step, RestoresId, Sound;
    if events != [] {
      StepKeepsValid(s, events[0]);
      if id in s.tasks { KnownStaysSound(s, events[0], id); } else { UnknownStaysSound(s, events[0], id); }
      RunStaysSound(Step(s, events[0]), events[1..], id);
    }
  }

  /** Over every run that does not restore the task: its hooks are called in
      order, and the last one called tells its state. */
  lemma HooksInOrder(slots: nat, events: seq<Event>, id: Id)
    requires NeverRestores(events, id)
    ensures var s := Run(Init(slots), events);
            Ordered(CallsOf(s.calls, id)) && (id in s.tasks ==> Fits(s.tasks[id].state, LastOf(CallsOf(s.calls, id))))
  {
    hide Run;
    InitValid(slots);
    RunStaysSound(Init(slots), events, id);
    NothingOrdered();
  }

  // ----- fresh tasks ---------------------------------------------------------------------------------------------

  /** What a start message registers: a task without any past, which waits or,
      where a slot is free for it, is at work for the first time. */
  lemma FreshRecord(s: State, id: Id, priority: nat, info: Payload, m: nat, now: int)
    requires Valid(s) && id !in s.tasks
    ensures var r := Step(s, Event(Command.Start(id, priority, info, m), now));
            && id in r.tasks
            && var t := r.tasks[id];
               && t.id == id && t.priority == priority && t.info == info && t.maxAttempts == m && t.createdMs == now
               && t.checkpoint == None && t.result == None && t.error == None && t.finishedMs == None
               && t.order == s.order && !t.resume
               && if t.state.Pending? then t.attempts == 0 && t.lastStartedMs == None
                  else t.state.Running? && t.attempts == 1 && t.lastStartedMs == Some(now)
  {
    hide Core, Dispatch, CallsOf, Sync, Upsert;
    var e := Event(Command.Start(id, priority, info, m), now);
    HandleKeepsCore(s, e);
    FreshTask(s, id, priority, info, m, now);
    DispatchPasses(Handle(s, e).s, id, now);
  }

  lemma FreshTask(s: State, id: Id, priority: nat, info: Payload, m: nat, now: int)
    requires id !in s.tasks
    ensures var r := Handle(s, Event(Command.Start(id, priority, info, m), now));
            r.ThenDispatch? && id in r.s.tasks && r.s.tasks[id]
            == Task(id, priority, info, Pending, None, None, None, 0, m, now, None, None, s.order, false)
  {}
}
