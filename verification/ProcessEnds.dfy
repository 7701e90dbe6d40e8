/** When the run of a process ends. */
module ProcessEnds {
  import opened Processes

  // ----- names that can run ------------------------------------------------------------------------

  predicate RunsIn(runs: seq<Run>, s: Id) { Own(s) in multiset(runs) || Again(s) in multiset(runs) }

  /** Some order of allowed runs holds a run of the name. */
  ghost predicate CanRun(w: World, s: Id) { exists runs :: Justified(w, runs) && RunsIn(runs, s) }

  function Rank(rank: map<Id, nat>, t: Id): nat { if t in rank then rank[t] else 0 }

  /** A wake between names that can run. */
  ghost predicate WakesOn(w: World, s: Id, t: Id) { CanRun(w, s) && CanRun(w, t) && t in WakesBy(w, s) }

  ghost predicate Walk(w: World, path: seq<Id>) { forall i :: 0 < i < |path| ==> WakesOn(w, path[i - 1], path[i]) }

  /** Names that can run, each waking the next, back to the first. */
  ghost predicate Circle(w: World, path: seq<Id>) { |path| >= 2 && path[0] == path[|path| - 1] && Walk(w, path) }

  /** A rank falls along every wake between names that can run. */
  ghost predicate Falls(w: World, rank: map<Id, nat>) {
    forall s, t :: WakesOn(w, s, t) ==> Rank(rank, t) < Rank(rank, s)
  }

  // ----- ranks and circles ----------------------------------------------------------------------------

  lemma {:induction false} FallsAlong(w: World, rank: map<Id, nat>, path: seq<Id>)
    requires Falls(w, rank) && Walk(w, path) && |path| >= 2
    ensures Rank(rank, path[|path| - 1]) < Rank(rank, path[0])
  {
    hide WakesOn, Rank;
    var n := |path| - 1;
    assert WakesOn(w, path[n - 1], path[n]);
    if n > 1 { FallsAlong(w, rank, path[..n]); }
  }

  ghost predicate GoesOn(w: World, names: set<Id>) {
    forall s :: s in names ==> exists t :: t in names && WakesOn(w, s, t)
  }

  lemma NoStep(w: World, s: Id)
    ensures Walk(w, [s])
  {}

  lemma GoOn(w: World, names: set<Id>, s: Id) returns (t: Id)
    requires GoesOn(w, names) && s in names
    ensures t in names && WakesOn(w, s, t)
  {
    hide WakesOn;
    t :| t in names && WakesOn(w, s, t);
  }

  lemma OneFurther(w: World, path: seq<Id>, t: Id)
    requires path != [] && Walk(w, path) && WakesOn(w, path[|path| - 1], t)
    ensures Walk(w, path + [t])
  {
    hide WakesOn;
  }

  lemma {:induction false} LongWalk(w: World, names: set<Id>, s: Id, n: nat) returns (path: seq<Id>)
    requires GoesOn(w, names) && s in names
    ensures |path| == n + 1 && Walk(w, path) && forall i :: 0 <= i < |path| ==> path[i] in names
    decreases n
  {
    hide WakesOn, GoesOn, Walk;
    if n == 0 {
      path := [s];
      assert Walk(w, path) by { NoStep(w, s); }
    } else {
      path := LongWalk(w, names, s, n - 1);
      var t := GoOn(w, names, path[n - 1]);
      OneFurther(w, path, t);
      path := path + [t];
    }
  }

  lemma {:induction false} SomeTwice(names: set<Id>, path: seq<Id>) returns (i: nat, j: nat)
    requires |path| > |names| && forall k :: 0 <= k < |path| ==> path[k] in names
    ensures i < j < |path| && path[i] == path[j]
    decreases |path|
  {
    var n := |path| - 1;
    if k :| 0 <= k < n && path[k] == path[n] {
      i, j := k, n;
    } else {
      i, j := SomeTwice(names - {path[n]}, path[..n]);
    }
  }

  lemma CircleIn(w: World, path: seq<Id>, i: nat, j: nat)
    requires Walk(w, path) && i < j < |path| && path[i] == path[j]
    ensures Circle(w, path[i..j + 1])
  {
    hide WakesOn;
  }

  /** Where some name always goes on there is a circle. */
  lemma GoingOnCircles(w: World, names: set<Id>)
    requires GoesOn(w, names) && names != {}
    ensures exists path :: Circle(w, path)
  {
    hide GoesOn, Walk, Circle;
    var s :| s in names;
    var path := LongWalk(w, names, s, |names|);
    var i, j := SomeTwice(names, path);
    CircleIn(w, path, i, j);
  }

  /** Without a circle the names can be ranked. */
  lemma {:induction false} RankNames(w: World, names: set<Id>) returns (rank: map<Id, nat>)
    requires !exists path :: Circle(w, path)
    ensures rank.Keys == names
    ensures forall s, t :: s in names && t in names && WakesOn(w, s, t) ==> Rank(rank, t) < Rank(rank, s)
    decreases |names|
  {
    hide Circle, WakesOn;
    if names == {} {
      rank := map[];
    } else {
      if GoesOn(w, names) { GoingOnCircles(w, names); }
      var x :| x in names && !exists t :: t in names && WakesOn(w, x, t);
      var less := RankNames(w, names - {x});
      rank := map t | t in names :: if t == x then 0 else Rank(less, t) + 1;
    }
  }

  lemma CanRunIsDeclared(w: World, s: Id)
    requires CanRun(w, s)
    ensures s in w.specs
  {
    hide Justified;
    var runs :| Justified(w, runs) && RunsIn(runs, s);
    RunsAreDeclared(w, runs, if Own(s) in multiset(runs) then Own(s) else Again(s));
  }

  lemma RankedFalls(w: World, rank: map<Id, nat>)
    requires forall s, t :: WakesOn(w, s, t) ==> Rank(rank, t) < Rank(rank, s)
    ensures Falls(w, rank)
  {}

  lemma FallsIffNoCircle(w: World)
    ensures (exists rank :: Falls(w, rank)) <==> !exists path :: Circle(w, path)
  {
    hide CanRun, WakesBy, Falls, Walk;
    if path :| Circle(w, path) {
      forall rank ensures !Falls(w, rank) { if Falls(w, rank) { FallsAlong(w, rank, path); } }
    } else {
      var rank := RankNames(w, w.specs.Keys);
      forall s, t | WakesOn(w, s, t) ensures Rank(rank, t) < Rank(rank, s) {
        CanRunIsDeclared(w, s);
        CanRunIsDeclared(w, t);
      }
      assert Falls(w, rank) by { RankedFalls(w, rank); }
    }
  }

  // ----- a falling rank bounds every run ------------------------------------------------------------

  function MaxRank(rank: map<Id, nat>, names: seq<Id>): (r: nat)
    ensures forall t :: t in names ==> Rank(rank, t) <= r
  {
    if names == [] then 0
    else
      var m := MaxRank(rank, names[1..]);
      if Rank(rank, names[0]) > m then Rank(rank, names[0]) else m
  }

  /** All wakes of one run of every thread. */
  function AllWakes(w: World, names: seq<Id>): nat {
    if names == [] then 0 else |WakesBy(w, names[0])| + AllWakes(w, names[1..])
  }

  /** Enough runs for a thread `level` below the top. */
  function Enough(all: nat, level: nat): nat { if level == 0 then 0 else Times(1 + Enough(all, level - 1), all) }

  function LevelOf(rank: map<Id, nat>, top: nat, t: Id): nat { if Rank(rank, t) <= top then top - Rank(rank, t) else 0 }

  /** Enough runs of every thread. */
  function Plenty(rank: map<Id, nat>, all: nat, top: nat, names: seq<Id>): multiset<Run> {
    if names == [] then multiset{}
    else
      var enough := Enough(all, LevelOf(rank, top, names[0]));
      Plenty(rank, all, top, names[1..])[Own(names[0]) := 1][Again(names[0]) := enough]
  }

  lemma {:induction false} PlentyIs(rank: map<Id, nat>, all: nat, top: nat, names: seq<Id>, t: Id)
    ensures Plenty(rank, all, top, names)[Own(t)] == if t in names then 1 else 0
    ensures Plenty(rank, all, top, names)[Again(t)] == if t in names then Enough(all, LevelOf(rank, top, t)) else 0
  {
    hide Enough, LevelOf;
    if names != [] { PlentyIs(rank, all, top, names[1..], t); }
  }

  lemma {:induction false} EnoughGrows(all: nat, a: nat, b: nat)
    requires a <= b
    ensures Enough(all, a) <= Enough(all, b)
    decreases b
  {
    hide Times;
    if a > 0 {
      EnoughGrows(all, a - 1, b - 1);
      TimesMore(1 + Enough(all, a - 1), 1 + Enough(all, b - 1), all);
    }
  }

  lemma TimesAdds(c: nat, m: nat, n: nat)
    ensures Times(c, m) + Times(c, n) == Times(c, m + n)
  {}

  lemma TimesLess(c: nat, m: nat, n: nat)
    requires m <= n
    ensures Times(c, m) <= Times(c, n)
  {
    assert c * (n - m) >= 0;
  }

  /** If every waker of `t` runs at most `c` times, `t` is woken at most `c` times the wakes there are. */
  lemma {:induction false} TotalAtMost(w: World, names: seq<Id>, E: multiset<Run>, t: Id, c: nat)
    requires forall s :: s in names && t in WakesBy(w, s) ==> E[Own(s)] + E[Again(s)] <= c
    ensures TotalWakes(w, names, E, t) <= Times(c, AllWakes(w, names))
  {
    hide Times, WakesBy;
    if names != [] {
      var s := names[0];
      TotalAtMost(w, names[1..], E, t, c);
      var n := WakesBy(w, s)[t];
      AtMostAll(WakesBy(w, s), t);
      TimesAdds(c, |WakesBy(w, s)|, AllWakes(w, names[1..]));
      TimesLess(c, n, |WakesBy(w, s)|);
      if n > 0 { TimesMore(E[Own(s)] + E[Again(s)], c, n); } else { TimesNothing(E[Own(s)] + E[Again(s)]); }
    }
  }

  lemma TimesNothing(c: nat)
    ensures Times(c, 0) == 0
  {}

  lemma AtMostAll(m: multiset<Id>, t: Id)
    ensures m[t] <= |m|
  {
    assert m == m[t := 0] + multiset{}[t := m[t]];
  }

  lemma TimesZero(n: nat)
    ensures Times(0, n) == 0
  {}

  lemma JustifiedCanRun(w: World, runs: seq<Run>, s: Id)
    requires Justified(w, runs) && RunsIn(runs, s)
    ensures CanRun(w, s)
  {}

  lemma LevelsFall(w: World, rank: map<Id, nat>, s: Id, t: Id)
    requires Falls(w, rank) && CanRun(w, s) && CanRun(w, t) && t in WakesBy(w, s) && s in w.order
    ensures LevelOf(rank, MaxRank(rank, w.order), s) < LevelOf(rank, MaxRank(rank, w.order), t)
  {
    hide CanRun, WakesBy;
  }

  function AtMost(w: World, rank: map<Id, nat>): multiset<Run> {
    Plenty(rank, AllWakes(w, w.order), MaxRank(rank, w.order), w.order)
  }

  /** While the runs so far are within bounds, so are the wakes they cause. */
  lemma WakesWithin(w: World, rank: map<Id, nat>, runs: seq<Run>, t: Id)
    requires WorldOk(w) && Falls(w, rank) && Justified(w, runs) && multiset(runs) <= AtMost(w, rank) && CanRun(w, t)
    ensures TotalWakes(w, w.order, multiset(runs), t)
         <= Enough(AllWakes(w, w.order), LevelOf(rank, MaxRank(rank, w.order), t))
  {
    hide Times, WakesBy, TotalWakes, Plenty, Falls, CanRun, LevelOf, MaxRank, AllWakes, WorldOk, Justified;
    var all, top := AllWakes(w, w.order), MaxRank(rank, w.order);
    var E, level := multiset(runs), LevelOf(rank, top, t);
    if level == 0 {
      forall s | s in w.order && t in WakesBy(w, s) ensures E[Own(s)] + E[Again(s)] <= 0 {
        if RunsIn(runs, s) {
          JustifiedCanRun(w, runs, s);
          LevelsFall(w, rank, s, t);
        }
      }
      TotalAtMost(w, w.order, E, t, 0);
      TimesZero(all);
    } else {
      forall s | s in w.order && t in WakesBy(w, s) ensures E[Own(s)] + E[Again(s)] <= 1 + Enough(all, level - 1) {
        if RunsIn(runs, s) {
          JustifiedCanRun(w, runs, s);
          LevelsFall(w, rank, s, t);
          PlentyIs(rank, all, top, w.order, s);
          EnoughGrows(all, LevelOf(rank, top, s), level - 1);
        }
      }
      TotalAtMost(w, w.order, E, t, 1 + Enough(all, level - 1));
    }
  }

  lemma NextWithin(w: World, rank: map<Id, nat>, runs: seq<Run>, x: Run)
    requires WorldOk(w) && Falls(w, rank) && Justified(w, runs) && Allowed(w, runs, x)
    requires multiset(runs) <= AtMost(w, rank)
    ensures multiset(runs) + multiset{x} <= AtMost(w, rank)
  {
    hide Falls, CanRun, TotalWakes, Plenty, Enough, LevelOf, MaxRank, AllWakes, Owed, Justified;
    OneMore(w, runs, x);
    JustifiedCanRun(w, runs + [x], x.name);
    WakesWithin(w, rank, runs, x.name);
    OwedIsTotal(w, runs, x.name);
    PlentyIs(rank, AllWakes(w, w.order), MaxRank(rank, w.order), w.order, x.name);
    assert multiset(runs)[x] + 1 <= AtMost(w, rank)[x];
  }

  lemma {:induction false} RunsWithin(w: World, rank: map<Id, nat>, runs: seq<Run>)
    requires WorldOk(w) && Falls(w, rank) && Justified(w, runs)
    ensures multiset(runs) <= AtMost(w, rank)
    decreases |runs|
  {
    hide WorldOk, Falls, AtMost, Allowed;
    if runs != [] {
      var n := |runs| - 1;
      RunsWithin(w, rank, runs[..n]);
      NextWithin(w, rank, runs[..n], runs[n]);
      assert runs == runs[..n] + [runs[n]];
    }
  }

  // ----- a bounded run can be completed ---------------------------------------------------------------

  ghost predicate Bounded(w: World, bound: multiset<Run>) {
    forall runs :: Justified(w, runs) ==> multiset(runs) <= bound
  }

  /** Something more is allowed until the runs are closed. */
  lemma NotClosedAllows(w: World, runs: seq<Run>) returns (x: Run)
    requires WorldOk(w) && Justified(w, runs) && !Closed(w, multiset(runs))
    ensures Allowed(w, runs, x)
  {
    hide TotalWakes, Owed, Justified, WorldOk;
    var E := multiset(runs);
    var t :| t in w.specs && !((Eligible(w, E, t) ==> Own(t) in E)
                               && Further(w, TotalWakes(w, w.order, E, t), t) <= E[Again(t)]);
    OwedIsTotal(w, runs, t);
    x := if Eligible(w, E, t) && Own(t) !in E then Own(t) else Again(t);
  }

  /** Runs that are bounded can be completed to a closed multiset. */
  lemma {:induction false} Complete(w: World, bound: multiset<Run>, runs: seq<Run>) returns (all: seq<Run>)
    requires WorldOk(w) && Bounded(w, bound) && Justified(w, runs)
    ensures Justified(w, all) && Closed(w, multiset(all))
    decreases |bound| - |runs|
  {
    hide Closed, Justified, WorldOk, Allowed;
    assert multiset(runs) <= bound;
    SubBag(multiset(runs), bound);
    if Closed(w, multiset(runs)) {
      all := runs;
    } else {
      var x := NotClosedAllows(w, runs);
      OneMore(w, runs, x);
      all := Complete(w, bound, runs + [x]);
    }
  }

  // ----- complete runs wake no one late ----------------------------------------------------------------

  /** One more than the place of the last run of the name; zero without one. */
  function LastAt(runs: seq<Run>, s: Id): (n: nat)
    ensures n <= |runs| && (n > 0 ==> runs[n - 1].name == s)
    ensures n > 0 <==> RunsIn(runs, s)
  {
    if runs == [] then 0
    else
      var n := |runs| - 1;
      assert runs == runs[..n] + [runs[n]];
      if runs[n].name == s then |runs| else LastAt(runs[..n], s)
  }

  lemma {:induction false} OwedGrows(w: World, runs: seq<Run>, k: nat, t: Id)
    requires k <= |runs|
    ensures Owed(w, runs[..k])[t] <= Owed(w, runs)[t]
    decreases |runs|
  {
    hide WakesBy;
    if k < |runs| {
      OwedGrows(w, runs[..|runs| - 1], k, t);
      assert runs[..|runs| - 1][..k] == runs[..k];
    } else {
      assert runs[..k] == runs;
    }
  }

  function First(w: World, t: Id): nat { if t in w.specs && w.specs[t].triggered then 1 else 0 }

  /** The wakes caused by `p` account for the runs of the name in `runs`. */
  ghost predicate Accounts(w: World, p: seq<Run>, runs: seq<Run>, t: Id) {
    && (Again(t) in multiset(runs) ==> multiset(runs)[Again(t)] + First(w, t) <= Owed(w, p)[t])
    && (Own(t) in multiset(runs) ==> First(w, t) <= Owed(w, p)[t])
  }

  lemma OtherAccounts(w: World, p: seq<Run>, init: seq<Run>, x: Run, t: Id)
    requires Accounts(w, p, init, t) && x.name != t
    ensures Accounts(w, p, init + [x], t)
  {
    hide Owed, First;
  }

  lemma LastAccounts(w: World, init: seq<Run>, x: Run)
    requires Allowed(w, init, x) && (RunsIn(init, x.name) ==> Accounts(w, init, init, x.name))
    ensures Accounts(w, init, init + [x], x.name)
  {
    hide Owed;
  }

  lemma AccountsLater(w: World, runs: seq<Run>, k: nat, t: Id)
    requires k <= |runs| && Accounts(w, runs[..k], runs, t)
    ensures Accounts(w, runs, runs, t)
  {
    hide Owed, First;
    OwedGrows(w, runs, k, t);
  }

  lemma LastOfMore(init: seq<Run>, x: Run, t: Id)
    ensures LastAt(init + [x], t) == if x.name == t then |init| + 1 else LastAt(init, t)
  {
    assert (init + [x])[..|init|] == init;
  }

  lemma JustifiedParts(w: World, init: seq<Run>, x: Run)
    requires Justified(w, init + [x])
    ensures Justified(w, init) && Allowed(w, init, x)
  {
    hide Allowed;
    assert (init + [x])[..|init|] == init;
  }

  /** The wakes before the last run of a name account for all its runs. */
  lemma {:induction false} RunsAreOwed(w: World, runs: seq<Run>, t: Id)
    requires Justified(w, runs) && LastAt(runs, t) > 0
    ensures Accounts(w, runs[..LastAt(runs, t) - 1], runs, t)
    decreases |runs|
  {
    hide Owed, Accounts, Justified, Allowed, LastAt;
    var n := |runs| - 1;
    var init, x := runs[..n], runs[n];
    assert runs == init + [x];
    JustifiedParts(w, init, x);
    LastOfMore(init, x, t);
    var k := LastAt(init, t);
    if x.name != t {
      RunsAreOwed(w, init, t);
      PrefixTwice(runs, n, k - 1);
      OtherAccounts(w, init[..k - 1], init, x, t);
    } else {
      if k > 0 {
        RunsAreOwed(w, init, t);
        AccountsLater(w, init, k - 1, t);
      }
      LastAccounts(w, init, x);
    }
  }

  /** In a closed run order the last run of a name comes after the last run of
      every name that wakes it. */
  lemma LastIsLater(w: World, all: seq<Run>, s: Id, t: Id)
    requires WorldOk(w) && Justified(w, all) && Closed(w, multiset(all))
    requires t in WakesBy(w, s) && LastAt(all, s) > 0 && LastAt(all, t) > 0
    ensures LastAt(all, s) < LastAt(all, t)
  {
    hide WakesBy, TotalWakes, Justified, Owed, LastAt, WorldOk;
    var i, j := LastAt(all, s), LastAt(all, t);
    WakesAfter(w, all, i);
    OwedGrows(w, all, i, t);
    OwedIsTotal(w, all, t);
    RunsAreOwed(w, all, t);
    WokenIsDeclared(w, s, t);
    if j <= i {
      OwedGrows(w, all[..i - 1], j - 1, t);
      PrefixTwice(all, i - 1, j - 1);
      ClosedAt(w, multiset(all), t);
    }
  }

  lemma PrefixTwice(all: seq<Run>, i: nat, j: nat)
    requires j <= i <= |all|
    ensures all[..i][..j] == all[..j]
  {}

  lemma WokenIsDeclared(w: World, s: Id, t: Id)
    requires WorldOk(w) && t in WakesBy(w, s)
    ensures t in w.specs
  {}

  lemma ClosedAt(w: World, E: multiset<Run>, t: Id)
    requires Closed(w, E) && t in w.specs
    ensures Further(w, TotalWakes(w, w.order, E, t), t) <= E[Again(t)]
  {
    hide TotalWakes;
  }

  lemma WakesAfter(w: World, all: seq<Run>, i: nat)
    requires 0 < i <= |all|
    ensures Owed(w, all[..i]) == Owed(w, all[..i - 1]) + WakesBy(w, all[i - 1].name)
  {
    hide WakesBy;
    OneMore(w, all[..i - 1], all[i - 1]);
    assert all[..i] == all[..i - 1] + [all[i - 1]];
  }

  lemma ClosedFalls(w: World, F: multiset<Run>) returns (rank: map<Id, nat>)
    requires WorldOk(w) && Closed(w, F)
    ensures Falls(w, rank)
  {
    hide Closed, Justified, LastAt, WakesBy;
    forall runs | Justified(w, runs) ensures multiset(runs) <= F { RunsAreForced(w, runs, F); }
    assert Justified(w, []) by { NothingJustified(w); }
    var all := Complete(w, F, []);
    rank := map t | t in w.specs :: |all| - LastAt(all, t);
    forall s, t | CanRun(w, s) && CanRun(w, t) && t in WakesBy(w, s) ensures Rank(rank, t) < Rank(rank, s) {
      CanRunRuns(w, all, s);
      CanRunRuns(w, all, t);
      LastIsLater(w, all, s, t);
    }
  }

  lemma NothingJustified(w: World)
    ensures Justified(w, [])
  {}

  lemma CanRunRuns(w: World, all: seq<Run>, s: Id)
    requires WorldOk(w) && Closed(w, multiset(all)) && CanRun(w, s)
    ensures LastAt(all, s) > 0 && s in w.specs
  {
    hide Closed, Justified, LastAt, WorldOk;
    var runs :| Justified(w, runs) && RunsIn(runs, s);
    RunsAreForced(w, runs, multiset(all));
    RunsAreDeclared(w, runs, if Own(s) in multiset(runs) then Own(s) else Again(s));
  }

  lemma {:induction false} RunsAreDeclared(w: World, runs: seq<Run>, x: Run)
    requires Justified(w, runs) && x in multiset(runs)
    ensures x.name in w.specs
    decreases |runs|
  {
    var n := |runs| - 1;
    assert runs == runs[..n] + [runs[n]];
    if x != runs[n] { RunsAreDeclared(w, runs[..n], x); }
  }

  // ----- the theorem ------------------------------------------------------------------------------------

  /** The run of a process ends, because some closed multiset of runs exists,
      exactly when the wakes between the names that can run go round in no circle. */
  lemma EndsIffNoCircle(w: World)
    requires WorldOk(w)
    ensures (exists E :: Closed(w, E)) <==> !exists path :: Circle(w, path)
  {
    hide Closed, Falls, Circle, WorldOk;
    FallsIffNoCircle(w);
    EndsIffRanked(w);
  }

  lemma EndsIffRanked(w: World)
    requires WorldOk(w)
    ensures (exists E :: Closed(w, E)) <==> (exists rank :: Falls(w, rank))
  {
    hide Closed, Falls, Justified, WorldOk, AtMost;
    if E :| Closed(w, E) {
      var rank := ClosedFalls(w, E);
    } else if rank :| Falls(w, rank) {
      forall runs | Justified(w, runs) ensures multiset(runs) <= AtMost(w, rank) { RunsWithin(w, rank, runs); }
      assert Justified(w, []) by { NothingJustified(w); }
      var all := Complete(w, AtMost(w, rank), []);
    }
  }

  /** If no name wakes itself, directly or through others, the run ends, whatever can run. */
  lemma RankedIsBounded(w: World, rank: map<Id, nat>)
    requires WorldOk(w) && forall s, t :: t in WakesBy(w, s) ==> Rank(rank, t) < Rank(rank, s)
    ensures exists E :: Closed(w, E)
  {
    hide Closed, WorldOk, CanRun, WakesBy;
    assert Falls(w, rank);
    EndsIffRanked(w);
  }

  /** One run of each declared thread. */
  function AllOwn(names: seq<Id>): multiset<Run> {
    if names == [] then multiset{} else AllOwn(names[1..]) + multiset{Own(names[0])}
  }

  lemma {:induction false} AllOwnIs(names: seq<Id>, t: Id)
    requires forall i, j :: 0 <= i < j < |names| ==> names[i] != names[j]
    ensures AllOwn(names)[Own(t)] == (if t in names then 1 else 0) && AllOwn(names)[Again(t)] == 0
  {
    if names != [] {
      AllOwnIs(names[1..], t);
      assert t in names <==> t == names[0] || t in names[1..];
    }
  }

  /** Each name is woken from one place, once, and waits for it. */
  ghost predicate WokenOnce(w: World) {
    && (forall s, t :: t in WakesBy(w, s) ==> t in w.specs && w.specs[t].triggered)
    && (forall s, t :: WakesBy(w, s)[t] <= 1)
    && forall r, s, t :: t in WakesBy(w, r) && t in WakesBy(w, s) ==> r == s
  }

  lemma {:induction false} WokenAtMostOnce(w: World, names: seq<Id>, E: multiset<Run>, t: Id)
    requires WokenOnce(w) && (forall i, j :: 0 <= i < j < |names| ==> names[i] != names[j])
    requires forall s :: s in names ==> E[Own(s)] + E[Again(s)] <= 1
    ensures TotalWakes(w, names, E, t) <= 1
    ensures TotalWakes(w, names, E, t) > 0 ==> exists s :: s in names && t in WakesBy(w, s)
  {
    hide WakesBy, Times;
    if names != [] {
      var s := names[0];
      WokenAtMostOnce(w, names[1..], E, t);
      NoOtherWaker(w, names, t);
      TimesOne(E[Own(s)] + E[Again(s)], WakesBy(w, s)[t]);
    }
  }

  lemma NoOtherWaker(w: World, names: seq<Id>, t: Id)
    requires WokenOnce(w) && names != [] && forall i, j :: 0 <= i < j < |names| ==> names[i] != names[j]
    ensures t in WakesBy(w, names[0]) ==> forall s :: s in names[1..] ==> t !in WakesBy(w, s)
  {
    hide WakesBy;
    forall s | s in names[1..] ensures s != names[0] {
      var i :| 0 <= i < |names[1..]| && names[1..][i] == s;
      assert names[i + 1] == s;
    }
  }

  lemma TimesOne(m: nat, n: nat)
    requires m <= 1
    ensures Times(m, n) <= n
  {}

  /** If each name is woken at most once, and only where it waits for that, the run ends. */
  lemma WokenOnceIsBounded(w: World)
    requires WorldOk(w) && WokenOnce(w)
    ensures exists E :: Closed(w, E)
  {
    hide TotalWakes, AllOwn, WakesBy;
    var E := AllOwn(w.order);
    forall s ensures E[Own(s)] == (if s in w.order then 1 else 0) && E[Again(s)] == 0 { AllOwnIs(w.order, s); }
    forall t | t in w.specs
      ensures Own(t) in E && Further(w, TotalWakes(w, w.order, E, t), t) <= E[Again(t)] {
      WokenAtMostOnce(w, w.order, E, t);
    }
    assert Closed(w, E);
  }

  lemma TimesAtLeast(m: nat, n: nat)
    requires n >= 1
    ensures Times(m, n) >= m
  {
    assert m * (n - 1) >= 0;
  }

  lemma {:induction false} WakesCount(w: World, names: seq<Id>, E: multiset<Run>, s: Id, t: Id)
    requires s in names && t in WakesBy(w, s)
    ensures TotalWakes(w, names, E, t) >= E[Own(s)] + E[Again(s)]
  {
    hide WakesBy, Times;
    if names[0] == s {
      TimesAtLeast(E[Own(s)] + E[Again(s)], WakesBy(w, s)[t]);
    } else {
      WakesCount(w, names[1..], E, s, t);
    }
  }

  lemma SelfCount(w: World, E: multiset<Run>, s: Id)
    requires Closed(w, E) && s in w.specs && !w.specs[s].triggered && w.specs[s].deps == []
    ensures E[Own(s)] >= 1 && E[Again(s)] >= TotalWakes(w, w.order, E, s)
  {
    hide TotalWakes;
    assert Eligible(w, E, s);
  }

  /** A declared thread that runs by itself and wakes its own name never comes
      to rest: a subscription to the event that announces its end does that. */
  lemma SelfWakeNeverRests(w: World, s: Id)
    requires WorldOk(w) && s in w.specs && !w.specs[s].triggered && w.specs[s].deps == [] && s in WakesBy(w, s)
    ensures forall E :: !Closed(w, E)
  {
    hide TotalWakes, WakesBy, Closed;
    forall E ensures !Closed(w, E) {
      if Closed(w, E) {
        SelfCount(w, E, s);
        WakesCount(w, w.order, E, s, s);
      }
    }
  }
}
