/** The process scheduler: threads with dependencies and priorities, whose
    handlers may wake declared threads while they run. */
module Processes {
  import opened Wrappers

  type Id = string

  datatype TState = Waiting | Pending | Running | Finished | Failed

  datatype Thread = Thread(state: TState, attempts: nat, priority: int, result: Option<string>, error: Option<string>)

  // A thread of a process.  The declared thread of a name has serial 1; the
  // further ones, with ids `name#2`, `name#3` and so on, have the later serials.
  datatype Entry = Entry(name: Id, serial: nat, thread: Thread)

  // A call of spawn_thread for a declared name.
  datatype Wake = Wake(id: Id, priority: int)

  datatype Spec = Spec(deps: seq<Id>, triggered: bool, priority: int)

  // What running a thread of the name does: the names its handler wakes,
  // whether and with what it ends, and the names woken by the event announcing
  // its end.
  datatype Behaviour = Behaviour(handled: bool, wakes: seq<Wake>, ok: bool, output: string, after: seq<Wake>)

  datatype World = World(order: seq<Id>, specs: map<Id, Spec>, behave: map<Id, Behaviour>)

  // ----- the declared process ----------------------------------------------------------------------

  function Ids(ws: seq<Wake>): multiset<Id> {
    if ws == [] then multiset{} else Ids(ws[..|ws| - 1]) + multiset{ws[|ws| - 1].id}
  }

  /** The names one run of a thread wakes, with repetition. */
  function WakesBy(w: World, s: Id): multiset<Id> {
    if s in w.behave then Ids(w.behave[s].wakes) + Ids(w.behave[s].after) else multiset{}
  }

  /** Names are unique; an undefined handler just succeeds; only declared
      names are woken. */
  ghost predicate WorldOk(w: World) {
    && w.specs.Keys == w.behave.Keys
    && (forall id :: id in w.specs <==> id in w.order)
    && (forall i, j :: 0 <= i < j < |w.order| ==> w.order[i] != w.order[j])
    && (forall s :: s in w.behave && !w.behave[s].handled ==> w.behave[s].ok && w.behave[s].wakes == [])
    && (forall s, t :: t in WakesBy(w, s) ==> t in w.specs)
  }

  predicate Succeeds(w: World, id: Id) { id in w.behave && w.behave[id].ok }

  predicate Ran(t: Thread) { t.state.Running? || t.state.Finished? || t.state.Failed? }

  /** The declared thread of `id` is finished. */
  predicate IsFinished(w: World, threads: seq<Entry>, id: Id) {
    exists p :: 0 <= p < |w.order| && p < |threads| && w.order[p] == id && threads[p].thread.state.Finished?
  }

  /** Ready to run: pending, and a declared thread's dependencies are finished. */
  predicate Ready(w: World, threads: seq<Entry>, p: nat) {
    && p < |threads| && threads[p].thread.state.Pending?
    && (p < |w.order| && w.order[p] in w.specs ==>
          forall d :: d in w.specs[w.order[p]].deps ==> IsFinished(w, threads, d))
  }

  // ----- the least multiset of runs ----------------------------------------------------------------

  // One run of a thread: of the declared one, or of a further one of the name.
  datatype Run = Own(name: Id) | Again(name: Id)

  /** How often `t` is woken when `E` is what runs. */
  function TotalWakes(w: World, names: seq<Id>, E: multiset<Run>, t: Id): nat {
    if names == [] then 0
    else Times(E[Own(names[0])] + E[Again(names[0])], WakesBy(w, names[0])[t]) + TotalWakes(w, names[1..], E, t)
  }

  function Times(m: nat, n: nat): nat { m * n }

  /** How many further threads `n` wakes of `t` make: the first wake of a
      triggered thread only ends its waiting. */
  function Further(w: World, n: nat, t: Id): nat
    requires t in w.specs
  {
    if w.specs[t].triggered && n > 0 then n - 1 else n
  }

  ghost predicate Eligible(w: World, E: multiset<Run>, t: Id)
    requires t in w.specs
  {
    && (w.specs[t].triggered ==> TotalWakes(w, w.order, E, t) > 0)
    && forall d :: d in w.specs[t].deps ==> Own(d) in E && Succeeds(w, d)
  }

  /** `E` holds every declared thread it makes eligible, and a run for each
      further thread its wakes make. */
  ghost predicate Closed(w: World, E: multiset<Run>) {
    forall t :: t in w.specs ==>
      (Eligible(w, E, t) ==> Own(t) in E) && Further(w, TotalWakes(w, w.order, E, t), t) <= E[Again(t)]
  }

  ghost predicate IsLeast(w: World, E: multiset<Run>) {
    Closed(w, E) && forall F :: Closed(w, F) ==> E <= F
  }

  // ----- runs allowed by the runs before them ------------------------------------------------------

  /** The wakes the runs cause. */
  function Owed(w: World, runs: seq<Run>): multiset<Id> {
    if runs == [] then multiset{} else Owed(w, runs[..|runs| - 1]) + WakesBy(w, runs[|runs| - 1].name)
  }

  ghost predicate Allowed(w: World, runs: seq<Run>, x: Run) {
    && x.name in w.specs
    && match x
       case Own(t) =>
         && Own(t) !in multiset(runs) && (w.specs[t].triggered ==> Owed(w, runs)[t] > 0)
         && forall d :: d in w.specs[t].deps ==> Own(d) in multiset(runs) && Succeeds(w, d)
       case Again(t) =>
         multiset(runs)[Again(t)] + 1 + (if w.specs[t].triggered then 1 else 0) <= Owed(w, runs)[t]
  }

  ghost predicate Justified(w: World, runs: seq<Run>) {
    runs == [] || (Justified(w, runs[..|runs| - 1]) && Allowed(w, runs[..|runs| - 1], runs[|runs| - 1]))
  }

  lemma OneMore(w: World, runs: seq<Run>, x: Run)
    ensures Owed(w, runs + [x]) == Owed(w, runs) + WakesBy(w, x.name)
    ensures Justified(w, runs) && Allowed(w, runs, x) ==> Justified(w, runs + [x])
    ensures multiset(runs + [x]) == multiset(runs) + multiset{x}
  {
    hide Allowed, WakesBy;
    assert (runs + [x])[..|runs|] == runs;
  }

  lemma TimesMore(m: nat, n: nat, k: nat)
    ensures Times(m + 1, k) == Times(m, k) + k
    ensures m <= n ==> Times(m, k) <= Times(n, k)
  {
    if m <= n { assert (n - m) * k >= 0; }
  }

  lemma {:induction false} TotalMore(w: World, names: seq<Id>, E: multiset<Run>, x: Run, t: Id)
    requires forall i, j :: 0 <= i < j < |names| ==> names[i] != names[j]
    ensures TotalWakes(w, names, E + multiset{x}, t)
         == TotalWakes(w, names, E, t) + (if x.name in names then WakesBy(w, x.name)[t] else 0)
  {
    hide Times, WakesBy;
    if names != [] {
      TotalMore(w, names[1..], E, x, t);
      TimesMore(E[Own(names[0])] + E[Again(names[0])], 0, WakesBy(w, names[0])[t]);
      assert x.name in names <==> x.name == names[0] || x.name in names[1..];
    }
  }

  lemma {:induction false} TotalGrows(w: World, names: seq<Id>, E: multiset<Run>, F: multiset<Run>, t: Id)
    requires E <= F
    ensures TotalWakes(w, names, E, t) <= TotalWakes(w, names, F, t)
  {
    hide Times, WakesBy;
    if names != [] {
      TotalGrows(w, names[1..], E, F, t);
      var s := names[0];
      TimesMore(E[Own(s)] + E[Again(s)], F[Own(s)] + F[Again(s)], WakesBy(w, s)[t]);
    }
  }

  lemma {:induction false} NoTotal(w: World, names: seq<Id>, t: Id)
    ensures TotalWakes(w, names, multiset{}, t) == 0
  {
    if names != [] { NoTotal(w, names[1..], t); }
  }

  /** The wakes of a run order are those of what ran, whatever the order. */
  lemma {:induction false} OwedIsTotal(w: World, runs: seq<Run>, t: Id)
    requires WorldOk(w) && Justified(w, runs)
    ensures Owed(w, runs)[t] == TotalWakes(w, w.order, multiset(runs), t)
    decreases |runs|
  {
    hide TotalWakes, WakesBy;
    if runs == [] {
      NoTotal(w, w.order, t);
    } else {
      var n := |runs| - 1;
      OwedIsTotal(w, runs[..n], t);
      TotalMore(w, w.order, multiset(runs[..n]), runs[n], t);
      assert runs == runs[..n] + [runs[n]];
    }
  }

  /** What ran was forced: it lies in every closed multiset. */
  lemma {:induction false} RunsAreForced(w: World, runs: seq<Run>, F: multiset<Run>)
    requires WorldOk(w) && Justified(w, runs) && Closed(w, F)
    ensures multiset(runs) <= F
    decreases |runs|
  {
    hide TotalWakes, WorldOk, Closed, Owed;
    if runs != [] {
      var n := |runs| - 1;
      RunsAreForced(w, runs[..n], F);
      NextIsForced(w, runs[..n], runs[n], F);
      assert runs == runs[..n] + [runs[n]];
    }
  }

  lemma NextIsForced(w: World, runs: seq<Run>, x: Run, F: multiset<Run>)
    requires WorldOk(w) && Justified(w, runs) && Closed(w, F) && multiset(runs) <= F && Allowed(w, runs, x)
    ensures multiset(runs) + multiset{x} <= F
  {
    hide TotalWakes, WorldOk, Owed, Justified;
    OwedIsTotal(w, runs, x.name);
    TotalGrows(w, w.order, multiset(runs), F, x.name);
    assert Eligible(w, F, x.name) ==> Own(x.name) in F;
    assert Further(w, TotalWakes(w, w.order, F, x.name), x.name) <= F[Again(x.name)];
    assert multiset(runs)[x] + 1 <= F[x];
  }

  // ----- invariant ---------------------------------------------------------------------------------

  // What has happened: the runs in the order they started, the wakes done, and
  // the wakes that the runs under way still have to do.
  datatype History = History(runs: seq<Run>, woken: multiset<Id>, due: multiset<Id>)

  function RunOf(e: Entry): Run { if e.serial == 1 then Own(e.name) else Again(e.name) }

  predicate IsFurther(e: Entry, t: Id) { e.name == t && e.serial != 1 }

  /** How many further threads of the name there are. */
  function Named(threads: seq<Entry>, t: Id): nat {
    if threads == [] then 0
    else Named(threads[..|threads| - 1], t) + (if IsFurther(threads[|threads| - 1], t) then 1 else 0)
  }

  /** How many of them have run. */
  function RanNamed(threads: seq<Entry>, t: Id): nat {
    if threads == [] then 0
    else
      var e := threads[|threads| - 1];
      RanNamed(threads[..|threads| - 1], t) + (if IsFurther(e, t) && Ran(e.thread) then 1 else 0)
  }

  /** Some run wakes the name with the priority. */
  ghost predicate Wakes(w: World, k: Wake) {
    exists s :: s in w.behave && (k in w.behave[s].wakes || k in w.behave[s].after)
  }

  /** A thread has its declared priority until a wake, and then that of a wake. */
  ghost predicate RightPriority(w: World, e: Entry)
    requires e.name in w.specs
  {
    if e.serial == 1 && (e.thread.state.Waiting? || !w.specs[e.name].triggered)
    then e.thread.priority == w.specs[e.name].priority
    else Wakes(w, Wake(e.name, e.thread.priority))
  }

  /** A thread ends with what its handler gave, or with nothing if it has none. */
  predicate RightOutput(w: World, e: Entry)
    requires e.name in w.behave
  {
    var b := w.behave[e.name];
    && (e.thread.state.Finished? ==> e.thread.result == Some(if b.handled then b.output else ""))
    && (e.thread.state.Failed? ==> e.thread.error == Some(b.output))
  }

  ghost predicate EntryOk(w: World, e: Entry, h: History) {
    && e.name in w.specs && e.name in w.behave && RightPriority(w, e) && RightOutput(w, e)
    && (e.thread.state.Finished? ==> w.behave[e.name].ok) && (e.thread.state.Failed? ==> !w.behave[e.name].ok)
    && e.thread.attempts == (if Ran(e.thread) && w.behave[e.name].handled then 1 else 0)
    && (e.serial == 1 ==>
          && (Own(e.name) in multiset(h.runs) <==> Ran(e.thread))
          && (e.thread.state.Waiting? <==> w.specs[e.name].triggered && h.woken[e.name] == 0))
    && (e.serial != 1 ==> !e.thread.state.Waiting?)
  }

  /** The declared threads come first, in order; the further ones of a name are numbered from 2. */
  ghost predicate InOrder(w: World, threads: seq<Entry>) {
    && |w.order| <= |threads|
    && (forall p :: 0 <= p < |w.order| ==> threads[p].name == w.order[p] && threads[p].serial == 1)
    && forall p :: |w.order| <= p < |threads| ==> threads[p].serial == 2 + Named(threads[..p], threads[p].name)
  }

  ghost predicate Counted(w: World, threads: seq<Entry>, h: History) {
    && (forall t :: t in w.specs ==> Named(threads, t) == Further(w, h.woken[t], t))
    && (forall t :: RanNamed(threads, t) == multiset(h.runs)[Again(t)])
  }

  ghost predicate Inv(w: World, threads: seq<Entry>, h: History) {
    && InOrder(w, threads) && Counted(w, threads, h)
    && (forall p :: 0 <= p < |threads| ==> EntryOk(w, threads[p], h))
    && h.woken + h.due == Owed(w, h.runs)
    && Justified(w, h.runs)
  }

  ghost predicate Quiet(w: World, threads: seq<Entry>) { forall p: nat :: !Ready(w, threads, p) }

  // ----- counting ----------------------------------------------------------------------------------

  lemma {:induction false} CountUpdate(threads: seq<Entry>, p: nat, e: Entry, t: Id)
    requires p < |threads| && e.name == threads[p].name && e.serial == threads[p].serial
    ensures Named(threads[p := e], t) == Named(threads, t)
    ensures RanNamed(threads[p := e], t) + (if IsFurther(e, t) && Ran(threads[p].thread) then 1 else 0)
         == RanNamed(threads, t) + (if IsFurther(e, t) && Ran(e.thread) then 1 else 0)
    decreases |threads|
  {
    hide Ran;
    var n := |threads| - 1;
    if p < n {
      assert threads[p := e][..n] == threads[..n][p := e];
      CountUpdate(threads[..n], p, e, t);
    } else {
      assert threads[p := e][..n] == threads[..n];
    }
  }

  lemma CountSnoc(threads: seq<Entry>, e: Entry, t: Id)
    ensures Named(threads + [e], t) == Named(threads, t) + (if IsFurther(e, t) then 1 else 0)
    ensures RanNamed(threads + [e], t) == RanNamed(threads, t) + (if IsFurther(e, t) && Ran(e.thread) then 1 else 0)
  {
    hide Ran, IsFurther;
    assert (threads + [e])[..|threads|] == threads;
  }

  lemma {:induction false} RanAtMostNamed(threads: seq<Entry>, t: Id)
    ensures RanNamed(threads, t) <= Named(threads, t)
  {
    if threads != [] { RanAtMostNamed(threads[..|threads| - 1], t); }
  }

  /** A further thread that has not run leaves a difference. */
  lemma {:induction false} OneIsLeft(threads: seq<Entry>, p: nat)
    requires p < |threads| && threads[p].serial != 1 && !Ran(threads[p].thread)
    ensures RanNamed(threads, threads[p].name) < Named(threads, threads[p].name)
    decreases |threads|
  {
    hide Ran;
    var n := |threads| - 1;
    if p < n { OneIsLeft(threads[..n], p); } else { RanAtMostNamed(threads[..n], threads[p].name); }
  }

  lemma {:induction false} AllRan(threads: seq<Entry>, t: Id)
    requires forall p :: 0 <= p < |threads| && IsFurther(threads[p], t) ==> Ran(threads[p].thread)
    ensures RanNamed(threads, t) == Named(threads, t)
  {
    hide Ran, IsFurther;
    if threads != [] { AllRan(threads[..|threads| - 1], t); }
  }

  // ----- the steps ---------------------------------------------------------------------------------

  function Begun(b: Behaviour, t: Thread): Thread {
    if b.handled then t.(state := Running, attempts := t.attempts + 1) else t.(state := Finished, result := Some(""))
  }

  function Over(b: Behaviour, t: Thread): Thread {
    if !b.handled then t
    else if b.ok then t.(state := Finished, result := Some(b.output))
    else t.(state := Failed, error := Some(b.output))
  }

  function Put(threads: seq<Entry>, p: nat, t: Thread): seq<Entry>
    requires p < |threads|
  {
    threads[p := threads[p].(thread := t)]
  }

  lemma PutKeepsOrder(w: World, threads: seq<Entry>, p: nat, t: Thread)
    requires InOrder(w, threads) && p < |threads|
    ensures InOrder(w, Put(threads, p, t))
  {
    var b := Put(threads, p, t);
    forall q | |w.order| <= q < |b| ensures b[q].serial == 2 + Named(b[..q], b[q].name) {
      if p < q {
        assert b[..q] == threads[..q][p := b[p]];
        CountUpdate(threads[..q], p, b[p], b[q].name);
      } else {
        assert b[..q] == threads[..q];
      }
    }
  }

  /** The history once thread `p` has started. */
  function StartedHistory(w: World, h: History, e: Entry): History {
    h.(runs := h.runs + [RunOf(e)], due := h.due + WakesBy(w, e.name))
  }

  lemma ReadyIsAllowed(w: World, threads: seq<Entry>, h: History, p: nat)
    requires WorldOk(w) && Inv(w, threads, h) && Ready(w, threads, p)
    ensures Allowed(w, h.runs, RunOf(threads[p]))
  {
    hide Owed, Justified, WakesBy, WorldOk;
    var e := threads[p];
    assert EntryOk(w, e, h);
    OwedHolds(h.woken, h.due, e.name);
    if p < |w.order| {
      forall d | d in w.specs[e.name].deps ensures Own(d) in multiset(h.runs) && Succeeds(w, d) {
        assert IsFinished(w, threads, d);
        var q :| 0 <= q < |w.order| && q < |threads| && w.order[q] == d && threads[q].thread.state.Finished?;
        assert EntryOk(w, threads[q], h);
      }
    } else {
      OneIsLeft(threads, p);
    }
  }

  lemma OwedHolds(woken: multiset<Id>, due: multiset<Id>, t: Id)
    ensures woken[t] <= (woken + due)[t]
  {}

  lemma StartKeeps(w: World, threads: seq<Entry>, h: History, p: nat)
    requires WorldOk(w) && Inv(w, threads, h) && p < |threads| && Ready(w, threads, p)
    requires threads[p].name in w.behave
    ensures Inv(w, Put(threads, p, Begun(w.behave[threads[p].name], threads[p].thread)),
                StartedHistory(w, h, threads[p]))
  {
    hide Allowed, Owed, WakesBy, EntryOk, InOrder, Counted, WorldOk, Ready, Begun, Ran;
    var e := threads[p];
    var th, h' := Begun(w.behave[e.name], e.thread), StartedHistory(w, h, e);
    ReadyIsAllowed(w, threads, h, p);
    OneMore(w, h.runs, RunOf(e));
    PutKeepsOrder(w, threads, p, th);
    BegunRan(w, threads, p);
    StartCounts(w, threads, h, p, th);
    forall q | 0 <= q < |threads| ensures EntryOk(w, Put(threads, p, th)[q], h') {
      StartedOk(w, threads, h, p, q);
    }
    assert h'.woken + h'.due == h.woken + h.due + WakesBy(w, e.name);
  }

  lemma BegunRan(w: World, threads: seq<Entry>, p: nat)
    requires Ready(w, threads, p) && threads[p].name in w.behave
    ensures threads[p].thread.state.Pending? && !Ran(threads[p].thread)
    ensures Ran(Begun(w.behave[threads[p].name], threads[p].thread))
  {}

  lemma StartCounts(w: World, threads: seq<Entry>, h: History, p: nat, th: Thread)
    requires InOrder(w, threads) && Counted(w, threads, h) && p < |threads| && !Ran(threads[p].thread) && Ran(th)
    ensures Counted(w, Put(threads, p, th), StartedHistory(w, h, threads[p]))
  {
    hide Ran, WakesBy, InOrder;
    var b, e := Put(threads, p, th), threads[p].(thread := th);
    forall t ensures Named(b, t) == Named(threads, t)
             ensures RanNamed(b, t) == RanNamed(threads, t) + (if IsFurther(e, t) then 1 else 0) {
      CountUpdate(threads, p, e, t);
    }
  }

  lemma StartedOk(w: World, threads: seq<Entry>, h: History, p: nat, q: nat)
    requires InOrder(w, threads) && p < |threads| && q < |threads| && threads[p].thread.state.Pending?
    requires WorldOk(w) && EntryOk(w, threads[p], h) && EntryOk(w, threads[q], h)
    ensures EntryOk(w, Put(threads, p, Begun(w.behave[threads[p].name], threads[p].thread))[q],
                    StartedHistory(w, h, threads[p]))
  {
    hide WakesBy;
  }

  lemma EndKeeps(w: World, threads: seq<Entry>, h: History, p: nat)
    requires WorldOk(w) && Inv(w, threads, h) && p < |threads| && threads[p].name in w.behave
    requires if w.behave[threads[p].name].handled then threads[p].thread.state.Running?
             else threads[p].thread.state.Finished?
    ensures Inv(w, Put(threads, p, Over(w.behave[threads[p].name], threads[p].thread)), h)
  {
    hide WorldOk, InOrder, Counted, Justified, Owed, WakesBy, EntryOk, Over;
    var e := threads[p];
    var th := Over(w.behave[e.name], e.thread);
    PutKeepsOrder(w, threads, p, th);
    OverRan(w.behave[e.name], e.thread);
    EndCounts(w, threads, h, p, th);
    forall q | 0 <= q < |threads| ensures EntryOk(w, Put(threads, p, th)[q], h) {
      if q == p { EndedOk(w, e, h); }
    }
  }

  lemma OverRan(b: Behaviour, t: Thread)
    requires if b.handled then t.state.Running? else t.state.Finished?
    ensures Ran(t) && Ran(Over(b, t))
  {}

  lemma EndedOk(w: World, e: Entry, h: History)
    requires WorldOk(w) && EntryOk(w, e, h)
    requires if w.behave[e.name].handled then e.thread.state.Running? else e.thread.state.Finished?
    ensures EntryOk(w, e.(thread := Over(w.behave[e.name], e.thread)), h)
  {
    hide WakesBy, Wakes;
  }

  lemma EndCounts(w: World, threads: seq<Entry>, h: History, p: nat, th: Thread)
    requires Counted(w, threads, h) && p < |threads| && Ran(threads[p].thread) && Ran(th)
    ensures Counted(w, Put(threads, p, th), h)
  {
    hide Ran, IsFurther;
    forall t ensures Named(Put(threads, p, th), t) == Named(threads, t)
             ensures RanNamed(Put(threads, p, th), t) == RanNamed(threads, t) {
      CountUpdate(threads, p, threads[p].(thread := th), t);
    }
  }

  function WokenHistory(h: History, t: Id): History { h.(woken := h.woken + multiset{t}, due := h.due - multiset{t}) }

  function Awake(t: Thread, priority: int): Thread { t.(state := Pending, priority := priority) }

  lemma DueIsOwed(h: History, t: Id)
    requires t in h.due
    ensures WokenHistory(h, t).woken + WokenHistory(h, t).due == h.woken + h.due
  {}

  /** The wake of a waiting thread ends its waiting. */
  lemma WakeKeeps(w: World, threads: seq<Entry>, h: History, p: nat, priority: int)
    requires p < |w.order| && Wakes(w, Wake(w.order[p], priority))
    requires WorldOk(w) && Inv(w, threads, h) && p < |w.order| <= |threads| && w.order[p] in h.due
    requires threads[p].thread.state.Waiting?
    ensures Inv(w, Put(threads, p, Awake(threads[p].thread, priority)), WokenHistory(h, w.order[p]))
  {
    var t, th, h' := w.order[p], Awake(threads[p].thread, priority), WokenHistory(h, w.order[p]);
    assert EntryOk(w, threads[p], h);
    DueIsOwed(h, t);
    PutKeepsOrder(w, threads, p, th);
    WakeCounts(w, threads, h, p, th);
    forall q | 0 <= q < |threads| ensures EntryOk(w, Put(threads, p, th)[q], h') {
      AwakeOk(w, threads, h, p, q, priority);
    }
    hide InOrder, Counted, Justified, Owed, WakesBy, EntryOk;
  }

  lemma WakeCounts(w: World, threads: seq<Entry>, h: History, p: nat, th: Thread)
    requires Counted(w, threads, h) && p < |threads| && threads[p].serial == 1 && threads[p].name in w.specs
    requires w.specs[threads[p].name].triggered && h.woken[threads[p].name] == 0
    ensures Counted(w, Put(threads, p, th), WokenHistory(h, threads[p].name))
  {
    hide Ran;
    var b := Put(threads, p, th);
    forall t ensures Named(b, t) == Named(threads, t) && RanNamed(b, t) == RanNamed(threads, t) {
      CountUpdate(threads, p, threads[p].(thread := th), t);
    }
  }

  lemma AwakeOk(w: World, threads: seq<Entry>, h: History, p: nat, q: nat, priority: int)
    requires p < |w.order| && Wakes(w, Wake(w.order[p], priority))
    requires WorldOk(w) && InOrder(w, threads) && p < |w.order| && q < |threads| && threads[p].thread.state.Waiting?
    requires EntryOk(w, threads[p], h) && EntryOk(w, threads[q], h)
    ensures EntryOk(w, Put(threads, p, Awake(threads[p].thread, priority))[q], WokenHistory(h, w.order[p]))
  {
    hide WakesBy;
  }

  function FurtherEntry(threads: seq<Entry>, k: Wake): Entry {
    Entry(k.id, 2 + Named(threads, k.id), Thread(Pending, 0, k.priority, None, None))
  }

  /** The wake of a thread that does not wait makes a further one. */
  lemma SpawnKeeps(w: World, threads: seq<Entry>, h: History, p: nat, k: Wake)
    requires Wakes(w, k)
    requires WorldOk(w) && Inv(w, threads, h) && p < |w.order| <= |threads| && w.order[p] == k.id && k.id in h.due
    requires !threads[p].thread.state.Waiting?
    ensures Inv(w, threads + [FurtherEntry(threads, k)], WokenHistory(h, k.id))
  {
    hide Owed, Justified, WakesBy, EntryOk, InOrder, Counted, WorldOk, Named;
    var e, h' := FurtherEntry(threads, k), WokenHistory(h, k.id);
    var b := threads + [e];
    OwnIsWoken(w, threads, h, p, k);
    DueIsOwed(h, k.id);
    SpawnKeepsOrder(w, threads, k);
    SpawnCounts(w, threads, h, k);
    forall q | 0 <= q < |b| ensures EntryOk(w, b[q], h') {
      if q < |threads| { SpawnedOk(w, threads, h, p, q, k.id); } else { NewEntryOk(w, threads, h', k); }
    }
  }

  lemma OwnIsWoken(w: World, threads: seq<Entry>, h: History, p: nat, k: Wake)
    requires WorldOk(w) && Inv(w, threads, h) && p < |w.order| <= |threads| && w.order[p] == k.id
    requires !threads[p].thread.state.Waiting?
    ensures k.id in w.specs && k.id in w.behave && !(w.specs[k.id].triggered && h.woken[k.id] == 0)
  {
    hide Owed, Justified, WakesBy, Counted;
    assert EntryOk(w, threads[p], h);
  }

  lemma NewEntryOk(w: World, threads: seq<Entry>, h: History, k: Wake)
    requires Wakes(w, k) && k.id in w.specs && k.id in w.behave
    ensures EntryOk(w, FurtherEntry(threads, k), h)
  {
    hide Named;
  }

  lemma SpawnKeepsOrder(w: World, threads: seq<Entry>, k: Wake)
    requires InOrder(w, threads)
    ensures InOrder(w, threads + [FurtherEntry(threads, k)])
  {
    var b := threads + [FurtherEntry(threads, k)];
    forall q | |w.order| <= q < |b| ensures b[q].serial == 2 + Named(b[..q], b[q].name) {
      assert b[..q] == threads[..q];
      assert threads[..|threads|] == threads;
    }
  }

  lemma SpawnCounts(w: World, threads: seq<Entry>, h: History, k: Wake)
    requires Counted(w, threads, h) && k.id in w.specs && !(w.specs[k.id].triggered && h.woken[k.id] == 0)
    ensures Counted(w, threads + [FurtherEntry(threads, k)], WokenHistory(h, k.id))
  {
    hide Named, RanNamed;
    var e := FurtherEntry(threads, k);
    forall t ensures Named(threads + [e], t) == Named(threads, t) + (if t == k.id then 1 else 0)
             ensures RanNamed(threads + [e], t) == RanNamed(threads, t) {
      CountSnoc(threads, e, t);
    }
  }

  lemma SpawnedOk(w: World, threads: seq<Entry>, h: History, p: nat, q: nat, t: Id)
    requires WorldOk(w) && InOrder(w, threads) && p < |w.order| && q < |threads| && w.order[p] == t
    requires EntryOk(w, threads[p], h) && EntryOk(w, threads[q], h) && !threads[p].thread.state.Waiting?
    ensures EntryOk(w, threads[q], WokenHistory(h, t))
  {
    hide WakesBy;
  }

  // ----- composing runs ----------------------------------------------------------------------------

  /** `b` and `h` continue `a` and `g`: threads that had run are as they were,
      none is left running but those that were, and of the wakes that were due
      `used` are done, and any made since. */
  ghost predicate Continues(a: seq<Entry>, g: History, b: seq<Entry>, h: History, used: multiset<Id>) {
    && g.runs <= h.runs && g.due == h.due + used && |a| <= |b|
    && (forall p :: 0 <= p < |a| ==> b[p].name == a[p].name && b[p].serial == a[p].serial)
    && (forall p :: 0 <= p < |a| && Ran(a[p].thread) ==> b[p] == a[p])
    && (forall p :: 0 <= p < |b| && b[p].thread.state.Running? ==> p < |a| && a[p].thread.state.Running?)
  }

  lemma ContinuesTwice(a: seq<Entry>, g: History, b: seq<Entry>, h: History, c: seq<Entry>, i: History,
                       x: multiset<Id>, y: multiset<Id>)
    requires Continues(a, g, b, h, x) && Continues(b, h, c, i, y)
    ensures Continues(a, g, c, i, x + y)
  {
    assert i.due + (x + y) == h.due + x;
  }

  lemma WakeContinues(a: seq<Entry>, g: History, p: nat, priority: int, b: seq<Entry>, h: History)
    requires p < |a| && a[p].thread.state.Waiting? && a[p].name in g.due
    requires Continues(Put(a, p, Awake(a[p].thread, priority)), WokenHistory(g, a[p].name), b, h, multiset{})
    ensures Continues(a, g, b, h, multiset{a[p].name})
  {
    var a1 := Put(a, p, Awake(a[p].thread, priority));
    assert forall q :: 0 <= q < |a| && q != p ==> a1[q] == a[q];
    assert g.due == WokenHistory(g, a[p].name).due + multiset{a[p].name};
  }

  lemma SpawnContinues(a: seq<Entry>, g: History, k: Wake, b: seq<Entry>, h: History)
    requires k.id in g.due
    requires Continues(a + [FurtherEntry(a, k)], WokenHistory(g, k.id), b, h, multiset{})
    ensures Continues(a, g, b, h, multiset{k.id})
  {
    var a1 := a + [FurtherEntry(a, k)];
    assert forall q :: 0 <= q < |a| ==> a1[q] == a[q];
    assert g.due == WokenHistory(g, k.id).due + multiset{k.id};
  }

  lemma DueSettled(before: multiset<Id>, between: multiset<Id>, after: multiset<Id>, x: multiset<Id>, y: multiset<Id>)
    requires before + (x + y) == between + x && between == after + y
    ensures before == after + multiset{}
  {
    forall t ensures before[t] == after[t] {
      assert (before + (x + y))[t] == (between + x)[t];
    }
  }

  /** A thread started, woke others, ended, announced it, and woke more. */
  lemma ThreadContinues(w: World, a: seq<Entry>, g: History, p: nat, b: seq<Entry>, h: History, c: seq<Entry>,
                        i: History)
    requires p < |a| && p < |b| && a[p].name in w.behave && a[p].thread.state.Pending? && b[p].name == a[p].name
    requires var d := w.behave[a[p].name];
             && Continues(Put(a, p, Begun(d, a[p].thread)), StartedHistory(w, g, a[p]), b, h, Ids(d.wakes))
             && b[p].thread == Begun(d, a[p].thread)
             && Continues(Put(b, p, Over(d, b[p].thread)), h, c, i, Ids(d.after))
    ensures Continues(a, g, c, i, multiset{}) && |g.runs| < |i.runs|
  {
    hide Ids;
    var d := w.behave[a[p].name];
    var a1, b1 := Put(a, p, Begun(d, a[p].thread)), Put(b, p, Over(d, b[p].thread));
    assert forall q :: 0 <= q < |a| && q != p ==> a1[q] == a[q];
    assert forall q :: 0 <= q < |b| && q != p ==> b1[q] == b[q];
    assert !b1[p].thread.state.Running?;
    DueSettled(g.due, h.due, i.due, Ids(d.wakes), Ids(d.after));
    assert g.runs <= g.runs + [RunOf(a[p])];
  }

  // ----- the end -----------------------------------------------------------------------------------

  predicate AllFinished(threads: seq<Entry>) { forall p :: 0 <= p < |threads| ==> threads[p].thread.state.Finished? }

  predicate OwnFinished(w: World, threads: seq<Entry>) {
    forall p :: 0 <= p < |w.order| && p < |threads| ==> threads[p].thread.state.Finished?
  }

  /** Nothing is ready, nothing runs and no wake is due. */
  ghost predicate AtRest(w: World, threads: seq<Entry>, h: History) {
    && Quiet(w, threads) && h.due == multiset{}
    && forall p :: 0 <= p < |threads| ==> !threads[p].thread.state.Running?
  }

  lemma OwnPlace(w: World, t: Id) returns (p: nat)
    requires WorldOk(w) && t in w.specs
    ensures p < |w.order| && w.order[p] == t
  {
    p :| 0 <= p < |w.order| && w.order[p] == t;
  }

  /** A process comes to rest only where everything that could run has. */
  lemma RestIsClosed(w: World, threads: seq<Entry>, h: History)
    requires WorldOk(w) && Inv(w, threads, h) && AtRest(w, threads, h)
    ensures Closed(w, multiset(h.runs))
  {
    hide Owed, Justified, TotalWakes, WakesBy, Named, RanNamed, EntryOk;
    var E := multiset(h.runs);
    forall t | t in w.specs
      ensures Eligible(w, E, t) ==> Own(t) in E
      ensures Further(w, TotalWakes(w, w.order, E, t), t) <= E[Again(t)] {
      OwedIsTotal(w, h.runs, t);
      assert h.woken == Owed(w, h.runs);
      if Eligible(w, E, t) { EligibleHasRun(w, threads, h, t); }
      FurtherHaveRun(w, threads, h, t);
    }
  }

  lemma EligibleHasRun(w: World, threads: seq<Entry>, h: History, t: Id)
    requires WorldOk(w) && Inv(w, threads, h) && AtRest(w, threads, h) && t in w.specs
    requires w.specs[t].triggered ==> h.woken[t] > 0
    requires forall d :: d in w.specs[t].deps ==> Own(d) in multiset(h.runs) && Succeeds(w, d)
    ensures Own(t) in multiset(h.runs)
  {
    hide Owed, Justified, WakesBy, Named, RanNamed, Counted;
    var p := OwnPlace(w, t);
    assert EntryOk(w, threads[p], h);
    forall d | d in w.specs[t].deps ensures IsFinished(w, threads, d) { SucceededIsFinished(w, threads, h, d); }
    assert !Ready(w, threads, p);
  }

  lemma SucceededIsFinished(w: World, threads: seq<Entry>, h: History, d: Id)
    requires WorldOk(w) && Inv(w, threads, h) && AtRest(w, threads, h)
    requires Own(d) in multiset(h.runs) && Succeeds(w, d)
    ensures IsFinished(w, threads, d)
  {
    hide Owed, Justified, WakesBy, Named, RanNamed, Counted, Quiet;
    var p := OwnPlace(w, d);
    assert EntryOk(w, threads[p], h);
  }

  lemma FurtherHaveRun(w: World, threads: seq<Entry>, h: History, t: Id)
    requires WorldOk(w) && Inv(w, threads, h) && AtRest(w, threads, h) && t in w.specs
    ensures multiset(h.runs)[Again(t)] == Further(w, h.woken[t], t)
  {
    hide Owed, Justified, WakesBy, WorldOk;
    forall p | 0 <= p < |threads| && IsFurther(threads[p], t) ensures Ran(threads[p].thread) {
      assert EntryOk(w, threads[p], h);
      assert !Ready(w, threads, p);
    }
    AllRan(threads, t);
  }

  lemma EndIsLeast(w: World, threads: seq<Entry>, h: History)
    requires WorldOk(w) && Inv(w, threads, h) && AtRest(w, threads, h)
    ensures IsLeast(w, multiset(h.runs))
  {
    RestIsClosed(w, threads, h);
    hide Closed, Justified, WorldOk, AtRest;
    forall F | Closed(w, F) ensures multiset(h.runs) <= F { RunsAreForced(w, h.runs, F); }
  }

  lemma {:induction false} SubBag(E: multiset<Run>, F: multiset<Run>)
    requires E <= F
    ensures |E| <= |F|
  {
    assert F == E + (F - E);
  }

  /** No run is longer than a closed multiset. */
  lemma RunsBounded(w: World, threads: seq<Entry>, h: History, F: multiset<Run>)
    requires WorldOk(w) && Inv(w, threads, h) && Closed(w, F)
    ensures |h.runs| <= |F|
  {
    hide WorldOk, Closed, Justified;
    RunsAreForced(w, h.runs, F);
    SubBag(multiset(h.runs), F);
  }

  // ----- the run loop ------------------------------------------------------------------------------

  /** `p` is to run next: ready, of the highest priority, the first of those. */
  ghost predicate RunsNext(w: World, threads: seq<Entry>, p: nat) {
    && Ready(w, threads, p)
    && forall q: nat :: Ready(w, threads, q) ==>
         threads[q].thread.priority < threads[p].thread.priority
         || (threads[q].thread.priority == threads[p].thread.priority && p <= q)
  }

  predicate Taken(threads: seq<Entry>, name: Id, serial: nat) {
    exists p :: 0 <= p < |threads| && threads[p].name == name && threads[p].serial == serial
  }

  lemma TakenSnoc(threads: seq<Entry>, e: Entry, name: Id, serial: nat)
    ensures Taken(threads + [e], name, serial) <==>
              Taken(threads, name, serial) || (e.name == name && e.serial == serial)
  {
    var all := threads + [e];
    assert all[|threads|] == e && forall p :: 0 <= p < |threads| ==> all[p] == threads[p];
  }

  lemma SerialAt(w: World, threads: seq<Entry>, n: nat)
    requires InOrder(w, threads) && |w.order| <= n < |threads|
    ensures threads[n].serial == 2 + Named(threads[..n], threads[n].name)
  {
    hide Named;
  }

  /** The serials of the further threads of a name are 2, 3 and so on. */
  lemma {:induction false} TakenIff(w: World, threads: seq<Entry>, n: nat, name: Id, serial: nat)
    requires InOrder(w, threads) && |w.order| <= n <= |threads| && serial >= 2
    ensures Taken(threads[..n], name, serial) <==> serial < 2 + Named(threads[..n], name)
    decreases n
  {
    hide Taken, Named, RanNamed, InOrder;
    if n == |w.order| {
      OwnAreTaken(w, threads, name, serial);
    } else {
      TakenIff(w, threads, n - 1, name, serial);
      var e := threads[n - 1];
      assert threads[..n] == threads[..n - 1] + [e];
      CountSnoc(threads[..n - 1], e, name);
      TakenSnoc(threads[..n - 1], e, name, serial);
      SerialAt(w, threads, n - 1);
    }
  }

  lemma OwnAreTaken(w: World, threads: seq<Entry>, name: Id, serial: nat)
    requires InOrder(w, threads) && serial >= 2
    ensures Named(threads[..|w.order|], name) == 0 && !Taken(threads[..|w.order|], name, serial)
  {
    OwnAreNotFurther(w, threads, |w.order|, name);
    hide Named;
  }

  lemma {:induction false} OwnAreNotFurther(w: World, threads: seq<Entry>, n: nat, name: Id)
    requires n <= |w.order| <= |threads| && forall p :: 0 <= p < |w.order| ==> threads[p].serial == 1
    ensures Named(threads[..n], name) == 0
    decreases n
  {
    if n > 0 {
      OwnAreNotFurther(w, threads, n - 1, name);
      assert threads[..n][..n - 1] == threads[..n - 1];
    }
  }

  // The process as it stood when a run was started: its threads, what had
  // happened, and the place of the thread that was taken.
  datatype Pick = Pick(threads: seq<Entry>, h: History, at: nat)

  ghost predicate PickOk(w: World, k: Pick, runs: seq<Run>, i: nat) {
    && i < |runs| && k.at < |k.threads| && Inv(w, k.threads, k.h) && k.h.runs == runs[..i]
    && RunsNext(w, k.threads, k.at) && runs[i] == RunOf(k.threads[k.at])
  }

  /** Each run was, when it started, that of the ready thread of the highest
      priority, the first in order of creation of those. */
  ghost predicate Picked(w: World, picks: seq<Pick>, runs: seq<Run>) {
    |picks| == |runs| && forall i :: 0 <= i < |picks| ==> PickOk(w, picks[i], runs, i)
  }

  lemma OnePick(w: World, picks: seq<Pick>, threads: seq<Entry>, h: History, p: nat)
    requires Picked(w, picks, h.runs) && Inv(w, threads, h) && p < |threads| && RunsNext(w, threads, p)
    ensures Picked(w, picks + [Pick(threads, h, p)], h.runs + [RunOf(threads[p])])
  {
    hide Inv, RunsNext;
    var more, runs := picks + [Pick(threads, h, p)], h.runs + [RunOf(threads[p])];
    forall i | 0 <= i < |more| ensures PickOk(w, more[i], runs, i) {
      if i < |picks| { assert PickOk(w, picks[i], h.runs, i) && runs[..i] == h.runs[..i]; }
        else { assert runs[..i] == h.runs; }
    }
  }

  class Process {
    const w: World
    var threads: seq<Entry>
    var finished: bool
    ghost var h: History
    ghost var picks: seq<Pick>
    ghost const bound: multiset<Run>      // what bounds the run: see RunsBounded

    ghost predicate Valid()
      reads this
    {
      WorldOk(w) && Inv(w, threads, h) && Picked(w, picks, h.runs) && Closed(w, bound)
      && (finished ==> OwnFinished(w, threads))
    }

    constructor (world: World, ghost closed: multiset<Run>)
      requires WorldOk(world) && Closed(world, closed)
      ensures Valid() && w == world && h == History([], multiset{}, multiset{}) && !finished
      ensures forall p :: 0 <= p < |threads| ==> !threads[p].thread.state.Running?
    {
      hide Inv, WorldOk, Closed, AllDeclared, OwnFinished;
      w := world;
      threads := AllDeclared(world, world.order);
      finished := false;
      h := History([], multiset{}, multiset{});
      picks := [];
      bound := closed;
      NothingRan(world, AllDeclared(world, world.order), History([], multiset{}, multiset{}));
    }

    method PickReady() returns (best: Option<nat>)
      requires Valid()
      ensures best.None? ==> Quiet(w, threads)
      ensures best.Some? ==> RunsNext(w, threads, best.value)
    {
      hide Inv, WorldOk, Closed;
      best := None;
      for q := 0 to |threads|
        invariant best.None? ==> forall p: nat :: p < q ==> !Ready(w, threads, p)
        invariant best.Some? ==> best.value < q && Ready(w, threads, best.value)
        invariant best.Some? ==> forall p: nat :: p < q && Ready(w, threads, p) ==>
                    threads[p].thread.priority < threads[best.value].thread.priority
                    || (threads[p].thread.priority == threads[best.value].thread.priority && best.value <= p)
      {
        if Ready(w, threads, q) {
          if best.None? || threads[q].thread.priority > threads[best.value].thread.priority {
            best := Some(q);
          }
        }
      }
    }

    /** Run ready threads until none is left. */
    method RunReady()
      requires Valid()
      modifies this
      ensures Valid() && Quiet(w, threads) && (AllFinished(threads) ==> finished)
      ensures Continues(old(threads), old(h), threads, h, multiset{}) && old(picks) <= picks
      decreases |bound| - |h.runs|, 1
    {
      hide Inv, WorldOk, Closed, Ready, AllFinished, OwnFinished, Picked;
      RunsBounded(w, threads, h, bound);
      while true
        invariant Valid() && Continues(old(threads), old(h), threads, h, multiset{}) && old(picks) <= picks
        invariant |h.runs| <= |bound|
        decreases |bound| - |h.runs|
      {
        var best := PickReady();
        if best.None? { break; }
        ghost var a, g := threads, h;
        RunThread(best.value);
        ContinuesTwice(old(threads), old(h), a, g, threads, h, multiset{}, multiset{});
        ghost var none: multiset<Id> := multiset{};
        assert none + none == none;
        RunsBounded(w, threads, h, bound);
      }
      AllIsOwn(w, threads);
      finished := finished || AllFinished(threads);
    }

    /** One turn of the run loop. */
    method RunThread(p: nat)
      requires Valid() && RunsNext(w, threads, p)
      modifies this
      ensures Valid() && Continues(old(threads), old(h), threads, h, multiset{}) && |h.runs| > |old(h).runs|
      ensures old(picks) <= picks && picks[|old(picks)|..] != [] && picks[|old(picks)|].threads == old(threads)
      decreases |bound| - |h.runs|, 0
    {
      hide Inv, WorldOk, Closed, OwnFinished, Picked;
      RunsBounded(w, threads, h, bound);
      ghost var a, g := threads, h;
      IsReady(w, threads, p);
      OnePick(w, picks, threads, h, p);
      PickedMany(w, picks, h.runs);
      var name := threads[p].name;
      HasBehaviour(w, threads, h, p);
      var b := w.behave[name];
      StartKeeps(w, threads, h, p);
      FinishedStays(w, threads, p, Begun(b, threads[p].thread));
      threads := Put(threads, p, Begun(b, threads[p].thread));
      h := StartedHistory(w, h, a[p]);
      picks := picks + [Pick(a, g, p)];
      WakesAreDue(w, name, g.due);
      ghost var a1, g1 := threads, h;
      WakeAll(b.wakes);
      assert threads[p] == a1[p];
      EndKeeps(w, threads, h, p);
      FinishedStays(w, threads, p, Over(b, threads[p].thread));
      ghost var a2, g2 := threads, h;
      threads := Put(threads, p, Over(b, threads[p].thread));
      AfterIsDue(g.due, b, g2.due);
      WakeAll(b.after);
      ThreadContinues(w, a, g, p, a2, g2, threads, h);
    }

    /** The wakes of one thread, one after another. */
    method WakeAll(ws: seq<Wake>)
      requires Valid() && Ids(ws) <= h.due && forall k :: k in ws ==> k.id in w.specs && Wakes(w, k)
      modifies this
      ensures Valid() && Continues(old(threads), old(h), threads, h, Ids(ws)) && old(picks) <= picks
      decreases |bound| - |h.runs|, 3
    {
      hide Inv, WorldOk, Closed, OwnFinished, Ids, Picked, Wakes;
      NoIds(ws);
      RunsBounded(w, threads, h, bound);
      for i := 0 to |ws|
        invariant Valid() && Continues(old(threads), old(h), threads, h, Ids(ws[..i])) && old(picks) <= picks
      {
        ghost var a, g := threads, h;
        var k := ws[i];
        NextIsDue(ws, i, old(h).due, h.due);
        assert k in ws;
        WakeOne(k);
        ContinuesTwice(old(threads), old(h), a, g, threads, h, Ids(ws[..i]), multiset{k.id});
      }
      assert ws[..|ws|] == ws;
    }

    /** The declared thread of the name. */
    method FindOwn(name: Id) returns (p: nat)
      requires WorldOk(w) && name in w.specs
      ensures p < |w.order| && w.order[p] == name
    {
      p := 0;
      while w.order[p] != name
        invariant p < |w.order| && name in w.order[p..]
        decreases |w.order| - p
      {
        p := p + 1;
      }
    }

    /** The first serial from 2 on that no thread of the name has. */
    method FreshSerial(name: Id) returns (serial: nat)
      requires InOrder(w, threads)
      ensures serial == 2 + Named(threads, name)
    {
      serial := 2;
      assert threads[..|threads|] == threads;
      TakenIff(w, threads, |threads|, name, 2);
      while Taken(threads, name, serial)
        invariant 2 <= serial <= 2 + Named(threads, name)
        invariant Taken(threads, name, serial) <==> serial < 2 + Named(threads, name)
        decreases 2 + Named(threads, name) - serial
      {
        serial := serial + 1;
        TakenIff(w, threads, |threads|, name, serial);
      }
    }

    /** `spawn_thread` of a declared name: a waiting thread waits no longer, and
        otherwise there is a further thread of the name. */
    method WakeOne(k: Wake)
      requires Valid() && k.id in h.due && k.id in w.specs && Wakes(w, k)
      modifies this
      ensures Valid() && Continues(old(threads), old(h), threads, h, multiset{k.id}) && old(picks) <= picks
      decreases |bound| - |h.runs|, 2
    {
      hide WorldOk, Closed, Counted, Owed, Justified, EntryOk, Picked, Wakes;
      RunsBounded(w, threads, h, bound);
      ghost var a, g := threads, h;
      var p := FindOwn(k.id);
      if threads[p].thread.state.Waiting? {
        WakeKeeps(w, threads, h, p, k.priority);
        FinishedStays(w, threads, p, Awake(threads[p].thread, k.priority));
        threads := Put(threads, p, Awake(threads[p].thread, k.priority));
        h := WokenHistory(h, k.id);
        RunReady();
        WakeContinues(a, g, p, k.priority, threads, h);
      } else {
        var serial := FreshSerial(k.id);
        SpawnKeeps(w, threads, h, p, k);
        threads := threads + [Entry(k.id, serial, Thread(Pending, 0, k.priority, None, None))];
        h := WokenHistory(h, k.id);
        RunReady();
        SpawnContinues(a, g, k, threads, h);
      }
    }
  }

  function Declared(w: World, id: Id): Entry {
    var spec := if id in w.specs then w.specs[id] else Spec([], false, 0);
    Entry(id, 1, Thread(if spec.triggered then Waiting else Pending, 0, spec.priority, None, None))
  }

  function AllDeclared(w: World, names: seq<Id>): seq<Entry> {
    seq(|names|, p requires 0 <= p < |names| => Declared(w, names[p]))
  }

  lemma NothingRan(w: World, threads: seq<Entry>, h: History)
    requires WorldOk(w) && h == History([], multiset{}, multiset{}) && threads == AllDeclared(w, w.order)
    ensures Inv(w, threads, h)
    ensures forall p :: 0 <= p < |threads| ==> !threads[p].thread.state.Running?
  {
    hide WakesBy;
    forall t ensures Named(threads, t) == 0 && RanNamed(threads, t) == 0 {
      OwnAreNotFurther(w, threads, |threads|, t);
      assert threads[..|threads|] == threads;
      RanAtMostNamed(threads, t);
    }
  }

  lemma IsReady(w: World, threads: seq<Entry>, p: nat)
    requires RunsNext(w, threads, p)
    ensures Ready(w, threads, p)
  {}

  lemma PickedMany(w: World, picks: seq<Pick>, runs: seq<Run>)
    requires Picked(w, picks, runs)
    ensures |picks| == |runs|
  {}

  lemma AllIsOwn(w: World, threads: seq<Entry>)
    ensures AllFinished(threads) ==> OwnFinished(w, threads)
  {}

  lemma HasBehaviour(w: World, threads: seq<Entry>, h: History, p: nat)
    requires Inv(w, threads, h) && p < |threads|
    ensures threads[p].name in w.behave
  {
    assert EntryOk(w, threads[p], h);
  }

  /** A declared thread that is finished stays so. */
  lemma FinishedStays(w: World, threads: seq<Entry>, p: nat, t: Thread)
    requires p < |threads| && (threads[p].thread.state.Finished? ==> t.state.Finished?)
    ensures OwnFinished(w, threads) ==> OwnFinished(w, Put(threads, p, t))
  {}

  lemma {:induction false} IdsIn(ws: seq<Wake>, k: Wake)
    requires k in ws
    ensures k.id in Ids(ws)
  {
    var n := |ws| - 1;
    if ws[n] != k { IdsIn(ws[..n], k); }
  }

  lemma WakesAreDue(w: World, name: Id, due: multiset<Id>)
    requires WorldOk(w) && name in w.behave
    ensures var b := w.behave[name];
            && Ids(b.wakes) <= due + WakesBy(w, name)
            && (forall k :: k in b.wakes || k in b.after ==> k.id in w.specs && Wakes(w, k))
  {
    hide Ids;
    var b := w.behave[name];
    forall k | k in b.wakes || k in b.after ensures k.id in w.specs && Wakes(w, k) {
      if k in b.wakes { IdsIn(b.wakes, k); } else { IdsIn(b.after, k); }
      assert k.id in WakesBy(w, name);
    }
  }

  lemma AfterIsDue(due: multiset<Id>, b: Behaviour, left: multiset<Id>)
    requires due + (Ids(b.wakes) + Ids(b.after)) == left + Ids(b.wakes)
    ensures Ids(b.after) <= left
  {
    hide Ids;
    forall t ensures Ids(b.after)[t] <= left[t] {
      assert (due + (Ids(b.wakes) + Ids(b.after)))[t] == (left + Ids(b.wakes))[t];
    }
  }

  lemma NoIds(ws: seq<Wake>)
    ensures Ids(ws[..0]) == multiset{}
  {
    assert ws[..0] == [];
  }

  lemma NextIsDue(ws: seq<Wake>, i: nat, due: multiset<Id>, left: multiset<Id>)
    requires i < |ws| && Ids(ws) <= due && due == left + Ids(ws[..i])
    ensures ws[i].id in left && Ids(ws[..i + 1]) == Ids(ws[..i]) + multiset{ws[i].id}
  {
    assert ws[..i + 1][..i] == ws[..i];
    PrefixIds(ws, i + 1);
    hide Ids;
    assert Ids(ws[..i])[ws[i].id] + 1 <= due[ws[i].id];
  }

  lemma {:induction false} PrefixIds(ws: seq<Wake>, n: nat)
    requires n <= |ws|
    ensures Ids(ws[..n]) <= Ids(ws)
    decreases |ws|
  {
    if n < |ws| {
      PrefixIds(ws[..|ws| - 1], n);
      assert ws[..|ws| - 1][..n] == ws[..n];
    } else {
      assert ws[..n] == ws;
    }
  }

  /** How a thread ends, given what ran. */
  ghost predicate EndsAs(w: World, e: Entry, E: multiset<Run>) {
    && (e.thread.state.Finished? <==> (e.serial == 1 ==> Own(e.name) in E) && Succeeds(w, e.name))
    && (e.thread.state.Failed? <==> (e.serial == 1 ==> Own(e.name) in E) && !Succeeds(w, e.name))
    && !e.thread.state.Running? && e.thread.attempts <= 1
    && e.name in w.specs && e.name in w.behave && RightPriority(w, e) && RightOutput(w, e)
  }

  /** Creating a process runs it, and ends when some closed multiset of runs
      exists: what runs is the least one.  A declared thread runs at most once;
      a wake that finds it not waiting makes a further thread of its name, which
      runs whatever the dependencies.  The process is finished exactly when
      every declared thread has run and succeeded. */
  method CreateProcess(w: World) returns (p: Process)
    requires WorldOk(w) && exists E :: Closed(w, E)
    ensures fresh(p) && p.Valid() && p.w == w && IsLeast(w, multiset(p.h.runs))
    ensures forall q :: 0 <= q < |p.threads| ==> EndsAs(w, p.threads[q], multiset(p.h.runs))
    ensures forall t :: t in w.specs ==>
              Named(p.threads, t) == multiset(p.h.runs)[Again(t)]
                                  == Further(w, TotalWakes(w, w.order, multiset(p.h.runs), t), t)
    ensures p.finished <==> forall t :: t in w.specs ==> Own(t) in multiset(p.h.runs) && Succeeds(w, t)
    ensures p.finished <==> AllFinished(p.threads)
    ensures Picked(w, p.picks, p.h.runs)
  {
    ghost var E :| Closed(w, E);
    p := new Process(w, E);
    p.RunReady();
    EndIsLeast(w, p.threads, p.h);
    Outcome(w, p.threads, p.h);
    Finishing(w, p.threads, p.h);
  }

  lemma Outcome(w: World, threads: seq<Entry>, h: History)
    requires WorldOk(w) && Inv(w, threads, h) && AtRest(w, threads, h)
    ensures forall q :: 0 <= q < |threads| ==> EndsAs(w, threads[q], multiset(h.runs))
    ensures forall t :: t in w.specs ==>
              Named(threads, t) == multiset(h.runs)[Again(t)]
                                == Further(w, TotalWakes(w, w.order, multiset(h.runs), t), t)
  {
    hide Owed, Justified, WakesBy, TotalWakes;
    forall q | 0 <= q < |threads| ensures EndsAs(w, threads[q], multiset(h.runs)) {
      assert EntryOk(w, threads[q], h);
      assert !Ready(w, threads, q);
    }
    forall t | t in w.specs
      ensures Named(threads, t) == multiset(h.runs)[Again(t)]
                                == Further(w, TotalWakes(w, w.order, multiset(h.runs), t), t) {
      FurtherHaveRun(w, threads, h, t);
      OwedIsTotal(w, h.runs, t);
    }
  }

  lemma Finishing(w: World, threads: seq<Entry>, h: History)
    requires WorldOk(w) && Inv(w, threads, h) && AtRest(w, threads, h)
    requires forall q :: 0 <= q < |threads| ==> EndsAs(w, threads[q], multiset(h.runs))
    ensures OwnFinished(w, threads) <==> forall t :: t in w.specs ==> Own(t) in multiset(h.runs) && Succeeds(w, t)
    ensures OwnFinished(w, threads) <==> AllFinished(threads)
  {
    hide Owed, Justified, WakesBy, Counted, AtRest;
    if OwnFinished(w, threads) {
      forall t | t in w.specs ensures Own(t) in multiset(h.runs) && Succeeds(w, t) {
        var p := OwnPlace(w, t);
        assert threads[p].thread.state.Finished? && EndsAs(w, threads[p], multiset(h.runs));
      }
      forall q | 0 <= q < |threads| ensures threads[q].thread.state.Finished? { assert EntryOk(w, threads[q], h); }
    }
    if forall t :: t in w.specs ==> Own(t) in multiset(h.runs) && Succeeds(w, t) {
      forall q | 0 <= q < |threads| ensures threads[q].thread.state.Finished? { assert EntryOk(w, threads[q], h); }
    }
  }
}
