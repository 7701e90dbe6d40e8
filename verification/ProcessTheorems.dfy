/** What the outcome of a process does not depend on. */
module ProcessTheorems {
  import opened Processes

  // ----- order does not matter --------------------------------------------------------------------

  /** The same threads, dependencies and wakes, whatever the priorities and
      the order of declaration. */
  ghost predicate SameButOrder(v: World, w: World) {
    && v.specs.Keys == w.specs.Keys
    && (forall t :: t in v.specs ==> v.specs[t].triggered == w.specs[t].triggered
                                     && forall d :: d in v.specs[t].deps <==> d in w.specs[t].deps)
    && (forall t :: Succeeds(v, t) <==> Succeeds(w, t))
    && (forall t :: WakesBy(v, t) == WakesBy(w, t))
  }

  ghost predicate Distinct(names: seq<Id>) { forall i, j :: 0 <= i < j < |names| ==> names[i] != names[j] }

  function WithoutAt(names: seq<Id>, p: nat): seq<Id>
    requires p < |names|
  {
    names[..p] + names[p + 1..]
  }

  lemma {:induction false} TotalWithout(w: World, names: seq<Id>, p: nat, E: multiset<Run>, t: Id)
    requires p < |names|
    ensures TotalWakes(w, names, E, t)
         == TotalWakes(w, WithoutAt(names, p), E, t)
            + Times(E[Own(names[p])] + E[Again(names[p])], WakesBy(w, names[p])[t])
    decreases p
  {
    hide Times, WakesBy;
    if p == 0 {
      assert WithoutAt(names, 0) == names[1..];
    } else {
      TotalWithout(w, names[1..], p - 1, E, t);
      var rest := WithoutAt(names, p);
      assert rest[0] == names[0] && rest[1..] == WithoutAt(names[1..], p - 1);
    }
  }

  lemma {:induction false} TotalAnyOrder(v: World, w: World, xs: seq<Id>, ys: seq<Id>, E: multiset<Run>, t: Id)
    requires Distinct(xs) && Distinct(ys) && (forall x :: x in xs <==> x in ys)
    requires forall s :: WakesBy(v, s) == WakesBy(w, s)
    ensures TotalWakes(v, xs, E, t) == TotalWakes(w, ys, E, t)
    decreases |xs|
  {
    hide Times, WakesBy;
    if xs == [] {
      FirstIsIn(ys);
    } else {
      assert xs[0] in ys;
      var p :| 0 <= p < |ys| && ys[p] == xs[0];
      TotalWithout(w, ys, p, E, t);
      SameRest(xs, ys, p);
      TotalAnyOrder(v, w, xs[1..], WithoutAt(ys, p), E, t);
    }
  }

  lemma FirstIsIn(ys: seq<Id>)
    ensures ys == [] || ys[0] in ys
  {}

  lemma SameRest(xs: seq<Id>, ys: seq<Id>, p: nat)
    requires Distinct(xs) && Distinct(ys) && (forall x :: x in xs <==> x in ys)
    requires xs != [] && p < |ys| && ys[p] == xs[0]
    ensures Distinct(xs[1..]) && Distinct(WithoutAt(ys, p)) && forall x :: x in xs[1..] <==> x in WithoutAt(ys, p)
  {
    var rest := WithoutAt(ys, p);
    forall x | x in xs[1..] ensures x in rest {
      assert x in xs && x != xs[0];
      var q :| 0 <= q < |ys| && ys[q] == x;
      assert q != p && rest[if q < p then q else q - 1] == x;
    }
    forall x | x in rest ensures x in xs[1..] {
      var q :| 0 <= q < |rest| && rest[q] == x;
      assert rest[q] == ys[if q < p then q else q + 1];
      assert x in ys && x in xs && x != xs[0];
    }
  }

  lemma SameClosed(v: World, w: World, E: multiset<Run>)
    requires WorldOk(v) && WorldOk(w) && SameButOrder(v, w) && Closed(w, E)
    ensures Closed(v, E)
  {
    hide WakesBy, Succeeds, TotalWakes;
    forall t | t in v.specs
      ensures Eligible(v, E, t) ==> Own(t) in E
      ensures Further(v, TotalWakes(v, v.order, E, t), t) <= E[Again(t)] {
      TotalAnyOrder(v, w, v.order, w.order, E, t);
      assert Eligible(v, E, t) <==> Eligible(w, E, t);
    }
  }

  lemma SameIsSymmetric(v: World, w: World)
    requires SameButOrder(v, w)
    ensures SameButOrder(w, v)
  {}

  /** What runs, further threads included, does not depend on priorities or on
      the order of declaration. */
  lemma PrioritiesDontMatter(v: World, w: World, E: multiset<Run>, F: multiset<Run>)
    requires WorldOk(v) && WorldOk(w) && SameButOrder(v, w) && IsLeast(v, E) && IsLeast(w, F)
    ensures E == F
  {
    hide SameButOrder, Closed, WorldOk;
    SameIsSymmetric(v, w);
    SameClosed(v, w, F);
    SameClosed(w, v, E);
    assert E <= F && F <= E;
  }
}
