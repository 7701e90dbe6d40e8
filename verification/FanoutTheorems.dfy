/** Splitting a pipeline over the values of a field keeps its meaning, and
    exactly when. */
module FanoutTheorems {
  import opened Wrappers
  import opened Expr
  import opened Walk
  import opened Evaluation
  import opened Conditions
  import opened Text
  import opened Fanout
  import CompilerTheorems
  import WalkTheorems
  import P = Planning
  import S = Scan

  // ----- conservation ---------------------------------------------------------------------------------

  /** How many chunks hold the text. */
  function Homes(chunks: seq<seq<string>>, x: Option<string>): nat {
    if chunks == [] then 0 else (if x.Some? && x.value in chunks[0] then 1 else 0) + Homes(chunks[1..], x)
  }

  ghost predicate OneHomeEach(env: Env, f: string, chunks: seq<seq<string>>, ctxs: seq<Ctx>) {
    forall i :: 0 <= i < |ctxs| ==> Homes(chunks, Needle(env, f, ctxs[i])) == 1
  }

  lemma {:induction false} HavingCounts(env: Env, f: string, units: seq<string>, ctxs: seq<Ctx>, x: Ctx)
    ensures multiset(Having(env, f, units, ctxs))[x] == if HasUnit(env, f, units, x) then multiset(ctxs)[x] else 0
  {
    hide HasUnit;
    if ctxs != [] {
      HavingCounts(env, f, units, ctxs[1..], x);
      assert ctxs == [ctxs[0]] + ctxs[1..];
    }
  }

  lemma Distributes(m: nat, a: nat, b: nat)
    ensures m * a + m * b == m * (a + b)
  {}

  lemma UnitIsHome(env: Env, f: string, chunks: seq<seq<string>>, x: Ctx)
    requires chunks != []
    ensures Homes(chunks, Needle(env, f, x))
         == (if HasUnit(env, f, chunks[0], x) then 1 else 0) + Homes(chunks[1..], Needle(env, f, x))
  {
    hide Needle;
  }

  /** Every context is kept once for every chunk that holds its needle. */
  lemma {:induction false} FanoutCounts(env: Env, f: string, chunks: seq<seq<string>>, ctxs: seq<Ctx>, x: Ctx)
    ensures multiset(HavingAny(env, f, chunks, ctxs))[x] == multiset(ctxs)[x] * Homes(chunks, Needle(env, f, x))
  {
    hide Having, HasUnit, Needle;
    if chunks != [] {
      FanoutCounts(env, f, chunks[1..], ctxs, x);
      HavingCounts(env, f, chunks[0], ctxs, x);
      UnitIsHome(env, f, chunks, x);
      Distributes(
        multiset(ctxs)[x], if HasUnit(env, f, chunks[0], x) then 1 else 0, Homes(chunks[1..], Needle(env, f, x)));
    }
  }

  lemma OnceIff(m: nat, h: nat)
    requires m > 0
    ensures m * h == m <==> h == 1
  {
    if h > 1 { assert m * h >= m * 2 by { assert m * (h - 2) >= 0; } }
  }

  /** Whatever the chunks: no row is lost or doubled exactly when every row's
      needle is in exactly one chunk. */
  lemma ConservesIff(env: Env, f: string, chunks: seq<seq<string>>, ctxs: seq<Ctx>)
    ensures multiset(HavingAny(env, f, chunks, ctxs)) == multiset(ctxs) <==> OneHomeEach(env, f, chunks, ctxs)
  {
    hide HavingAny, Homes, Needle;
    var kept, all := multiset(HavingAny(env, f, chunks, ctxs)), multiset(ctxs);
    forall x | x in all ensures kept[x] == all[x] <==> Homes(chunks, Needle(env, f, x)) == 1 {
      FanoutCounts(env, f, chunks, ctxs, x);
      OnceIff(all[x], Homes(chunks, Needle(env, f, x)));
    }
    forall x | x !in all ensures kept[x] == 0 {
      FanoutCounts(env, f, chunks, ctxs, x);
    }
    if kept == all {
      forall i | 0 <= i < |ctxs| ensures Homes(chunks, Needle(env, f, ctxs[i])) == 1 { assert ctxs[i] in all; }
    } else {
      var x :| kept[x] != all[x];
      if x in all {
        var i :| 0 <= i < |ctxs| && ctxs[i] == x;
        assert Homes(chunks, Needle(env, f, ctxs[i])) != 1;
      }
    }
  }

  // ----- order --------------------------------------------------------------------------------------------

  /** The first chunk that holds the text. */
  function Home(chunks: seq<seq<string>>, x: Option<string>): nat {
    if chunks == [] || (x.Some? && x.value in chunks[0]) then 0 else 1 + Home(chunks[1..], x)
  }

  ghost predicate InHomeOrder(env: Env, f: string, chunks: seq<seq<string>>, ctxs: seq<Ctx>) {
    forall i, j :: 0 <= i <= j < |ctxs| ==>
      Home(chunks, Needle(env, f, ctxs[i])) <= Home(chunks, Needle(env, f, ctxs[j]))
  }

  lemma {:induction false} HavingConcat(env: Env, f: string, units: seq<string>, a: seq<Ctx>, b: seq<Ctx>)
    ensures Having(env, f, units, a + b) == Having(env, f, units, a) + Having(env, f, units, b)
  {
    hide HasUnit;
    if a == [] {
      assert a + b == b;
    } else {
      assert (a + b)[1..] == a[1..] + b;
      HavingConcat(env, f, units, a[1..], b);
    }
  }

  lemma {:induction false} HavingAll(env: Env, f: string, units: seq<string>, ctxs: seq<Ctx>, keep: bool)
    requires forall i :: 0 <= i < |ctxs| ==> HasUnit(env, f, units, ctxs[i]) == keep
    ensures Having(env, f, units, ctxs) == if keep then ctxs else []
  {
    hide HasUnit;
    if ctxs != [] {
      HavingAll(env, f, units, ctxs[1..], keep);
      assert ctxs == [ctxs[0]] + ctxs[1..];
    }
  }

  lemma {:induction false} HavingOnly(env: Env, f: string, units: seq<string>, ctxs: seq<Ctx>)
    ensures forall x :: x in Having(env, f, units, ctxs) ==> x in ctxs && HasUnit(env, f, units, x)
  {
    hide HasUnit;
    if ctxs != [] { HavingOnly(env, f, units, ctxs[1..]); }
  }

  /** Contexts at home in no chunk change nothing. */
  lemma {:induction false} HomelessSkipped(env: Env, f: string, chunks: seq<seq<string>>, p: seq<Ctx>, q: seq<Ctx>)
    requires forall i :: 0 <= i < |p| ==> Homes(chunks, Needle(env, f, p[i])) == 0
    ensures HavingAny(env, f, chunks, p + q) == HavingAny(env, f, chunks, q)
  {
    hide Having, Needle, HasUnit;
    if chunks != [] {
      forall i | 0 <= i < |p|
        ensures !HasUnit(env, f, chunks[0], p[i]) && Homes(chunks[1..], Needle(env, f, p[i])) == 0 {
        UnitIsHome(env, f, chunks, p[i]);
      }
      HomelessSkipped(env, f, chunks[1..], p, q);
      HavingConcat(env, f, chunks[0], p, q);
      HavingAll(env, f, chunks[0], p, false);
    }
  }

  /** How many contexts at the front are at home in these units. */
  function Leading(env: Env, f: string, units: seq<string>, ctxs: seq<Ctx>): (n: nat)
    ensures n <= |ctxs|
    ensures forall i :: 0 <= i < n ==> HasUnit(env, f, units, ctxs[i])
    ensures n < |ctxs| ==> !HasUnit(env, f, units, ctxs[n])
  {
    if ctxs == [] || !HasUnit(env, f, units, ctxs[0]) then 0 else 1 + Leading(env, f, units, ctxs[1..])
  }

  lemma HomeStep(env: Env, f: string, chunks: seq<seq<string>>, x: Ctx)
    requires chunks != []
    ensures HasUnit(env, f, chunks[0], x) ==> Home(chunks, Needle(env, f, x)) == 0
    ensures !HasUnit(env, f, chunks[0], x) ==>
              Home(chunks, Needle(env, f, x)) == 1 + Home(chunks[1..], Needle(env, f, x))
  {
    hide Needle;
  }

  lemma {:induction false} OrderedIsKept(env: Env, f: string, chunks: seq<seq<string>>, ctxs: seq<Ctx>)
    requires OneHomeEach(env, f, chunks, ctxs) && InHomeOrder(env, f, chunks, ctxs)
    ensures HavingAny(env, f, chunks, ctxs) == ctxs
    decreases |chunks|
  {
    hide Having, HasUnit, Needle, Homes, Home, HavingAny, Leading, InHomeOrder;
    if chunks == [] {
      NoChunks(env, f, ctxs);
    } else {
      var n := Leading(env, f, chunks[0], ctxs);
      var p, q := ctxs[..n], ctxs[n..];
      assert p + q == ctxs;
      FirstHome(env, f, chunks, ctxs, n);
      RestIsOrdered(env, f, chunks, ctxs, n);
      HavingConcat(env, f, chunks[0], p, q);
      HavingAll(env, f, chunks[0], p, true);
      HavingAll(env, f, chunks[0], q, false);
      HomelessSkipped(env, f, chunks[1..], p, q);
      OrderedIsKept(env, f, chunks[1..], q);
      GatherStep(env, f, chunks, ctxs);
    }
  }

  lemma GatherStep(env: Env, f: string, chunks: seq<seq<string>>, ctxs: seq<Ctx>)
    requires chunks != []
    ensures HavingAny(env, f, chunks, ctxs) == Having(env, f, chunks[0], ctxs) + HavingAny(env, f, chunks[1..], ctxs)
  {
    hide Having;
  }

  lemma NoChunks(env: Env, f: string, ctxs: seq<Ctx>)
    requires OneHomeEach(env, f, [], ctxs)
    ensures ctxs == [] && HavingAny(env, f, [], ctxs) == []
  {
    hide Needle, Homes;
    if |ctxs| > 0 { NoHome(Needle(env, f, ctxs[0])); }
  }

  lemma NoHome(x: Option<string>)
    ensures Homes([], x) == 0
  {}

  /** The leading contexts are at home in the first chunk only, the others not in it. */
  lemma FirstHome(env: Env, f: string, chunks: seq<seq<string>>, ctxs: seq<Ctx>, n: nat)
    requires chunks != [] && n == Leading(env, f, chunks[0], ctxs)
    requires OneHomeEach(env, f, chunks, ctxs) && InHomeOrder(env, f, chunks, ctxs)
    ensures forall i :: 0 <= i < |ctxs[..n]| ==>
              HasUnit(env, f, chunks[0], ctxs[..n][i]) && Homes(chunks[1..], Needle(env, f, ctxs[..n][i])) == 0
    ensures forall j :: 0 <= j < |ctxs[n..]| ==> !HasUnit(env, f, chunks[0], ctxs[n..][j])
  {
    hide HasUnit, Needle, Homes, Home, Leading;
    forall i | 0 <= i < n
      ensures HasUnit(env, f, chunks[0], ctxs[i]) && Homes(chunks[1..], Needle(env, f, ctxs[i])) == 0 {
      UnitIsHome(env, f, chunks, ctxs[i]);
    }
    forall j | n <= j < |ctxs| ensures !HasUnit(env, f, chunks[0], ctxs[j]) {
      HomeStep(env, f, chunks, ctxs[n]);
      HomeStep(env, f, chunks, ctxs[j]);
    }
  }

  lemma RestIsOrdered(env: Env, f: string, chunks: seq<seq<string>>, ctxs: seq<Ctx>, n: nat)
    requires chunks != [] && n <= |ctxs|
    requires OneHomeEach(env, f, chunks, ctxs) && InHomeOrder(env, f, chunks, ctxs)
    requires forall j :: 0 <= j < |ctxs[n..]| ==> !HasUnit(env, f, chunks[0], ctxs[n..][j])
    ensures OneHomeEach(env, f, chunks[1..], ctxs[n..]) && InHomeOrder(env, f, chunks[1..], ctxs[n..])
  {
    hide HasUnit, Needle, Homes, Home;
    var q := ctxs[n..];
    forall j | 0 <= j < |q|
      ensures Homes(chunks[1..], Needle(env, f, q[j])) == 1
      ensures Home(chunks, Needle(env, f, q[j])) == 1 + Home(chunks[1..], Needle(env, f, q[j])) {
      assert q[j] == ctxs[n + j];
      UnitIsHome(env, f, chunks, q[j]);
      HomeStep(env, f, chunks, q[j]);
    }
    forall i, j | 0 <= i <= j < |q|
      ensures Home(chunks[1..], Needle(env, f, q[i])) <= Home(chunks[1..], Needle(env, f, q[j])) {
      assert q[i] == ctxs[n + i] && q[j] == ctxs[n + j];
    }
  }

  /** What is gathered comes out in the order of the chunks. */
  lemma {:induction false} GatheredInOrder(env: Env, f: string, chunks: seq<seq<string>>, ctxs: seq<Ctx>)
    requires forall i :: 0 <= i < |ctxs| ==> Homes(chunks, Needle(env, f, ctxs[i])) <= 1
    ensures var out := HavingAny(env, f, chunks, ctxs);
            OneHomeEach(env, f, chunks, out) && InHomeOrder(env, f, chunks, out) && forall x :: x in out ==> x in ctxs
    decreases |chunks|
  {
    hide Having, HasUnit, Needle, Homes, Home;
    if chunks != [] {
      var a, b := Having(env, f, chunks[0], ctxs), HavingAny(env, f, chunks[1..], ctxs);
      forall i | 0 <= i < |ctxs| ensures Homes(chunks[1..], Needle(env, f, ctxs[i])) <= 1 {
        UnitIsHome(env, f, chunks, ctxs[i]);
      }
      GatheredInOrder(env, f, chunks[1..], ctxs);
      HavingOnly(env, f, chunks[0], ctxs);
      forall i | 0 <= i < |a|
        ensures Homes(chunks, Needle(env, f, a[i])) == 1 && Home(chunks, Needle(env, f, a[i])) == 0 {
        assert a[i] in a;
        AtHome(env, f, chunks, ctxs, a[i]);
      }
      forall i | 0 <= i < |b|
        ensures Homes(chunks, Needle(env, f, b[i])) == 1
        ensures Home(chunks, Needle(env, f, b[i])) == 1 + Home(chunks[1..], Needle(env, f, b[i])) {
        assert b[i] in b;
        AtHomeLater(env, f, chunks, ctxs, b[i]);
      }
      hide HavingAny;
      EndToEnd(env, f, chunks, a, b);
      GatherStep(env, f, chunks, ctxs);
    }
  }

  lemma AtHome(env: Env, f: string, chunks: seq<seq<string>>, ctxs: seq<Ctx>, x: Ctx)
    requires chunks != [] && x in ctxs && HasUnit(env, f, chunks[0], x)
    requires forall i :: 0 <= i < |ctxs| ==> Homes(chunks, Needle(env, f, ctxs[i])) <= 1
    ensures Homes(chunks, Needle(env, f, x)) == 1 && Home(chunks, Needle(env, f, x)) == 0
  {
    hide HasUnit, Needle, Homes, Home;
    UnitIsHome(env, f, chunks, x);
    HomeStep(env, f, chunks, x);
  }

  lemma AtHomeLater(env: Env, f: string, chunks: seq<seq<string>>, ctxs: seq<Ctx>, x: Ctx)
    requires chunks != [] && x in ctxs && Homes(chunks[1..], Needle(env, f, x)) == 1
    requires forall i :: 0 <= i < |ctxs| ==> Homes(chunks, Needle(env, f, ctxs[i])) <= 1
    ensures Homes(chunks, Needle(env, f, x)) == 1
    ensures Home(chunks, Needle(env, f, x)) == 1 + Home(chunks[1..], Needle(env, f, x))
  {
    hide HasUnit, Needle, Homes, Home;
    UnitIsHome(env, f, chunks, x);
    HomeStep(env, f, chunks, x);
  }

  lemma EndToEnd(env: Env, f: string, chunks: seq<seq<string>>, a: seq<Ctx>, b: seq<Ctx>)
    requires chunks != [] && InHomeOrder(env, f, chunks[1..], b)
    requires forall i :: 0 <= i < |a| ==>
               Homes(chunks, Needle(env, f, a[i])) == 1 && Home(chunks, Needle(env, f, a[i])) == 0
    requires forall i :: 0 <= i < |b| ==> Homes(chunks, Needle(env, f, b[i])) == 1
    requires forall i :: 0 <= i < |b| ==>
               Home(chunks, Needle(env, f, b[i])) == 1 + Home(chunks[1..], Needle(env, f, b[i]))
    ensures OneHomeEach(env, f, chunks, a + b) && InHomeOrder(env, f, chunks, a + b)
  {
    hide Needle, Homes, Home;
  }

  /** Whatever the chunks: the tasks' rows end to end are the original rows, in
      order, exactly when every needle has one home and the homes ascend. */
  lemma OrderIff(env: Env, f: string, chunks: seq<seq<string>>, ctxs: seq<Ctx>)
    ensures HavingAny(env, f, chunks, ctxs) == ctxs
       <==> OneHomeEach(env, f, chunks, ctxs) && InHomeOrder(env, f, chunks, ctxs)
  {
    hide HavingAny, Homes, Home, Needle;
    if HavingAny(env, f, chunks, ctxs) == ctxs {
      ConservesIff(env, f, chunks, ctxs);
      GatheredInOrder(env, f, chunks, ctxs);
    } else if OneHomeEach(env, f, chunks, ctxs) && InHomeOrder(env, f, chunks, ctxs) {
      OrderedIsKept(env, f, chunks, ctxs);
    }
  }

  // ----- records that name their value ---------------------------------------------------------------------

  /** Every record has the field, as a non-empty string. */
  predicate AllNamed(f: string, rs: seq<Record>) {
    forall i :: 0 <= i < |rs| ==> match Get(rs[i].v, f) case Some(VStr(s)) => s != "" case _ => false
  }

  function Values(rs: seq<Record>): seq<Value> {
    if rs == [] then [] else [rs[0].v] + Values(rs[1..])
  }

  function FieldText(env: Env, f: string, v: Value): Option<string> {
    match Get(v, f) case None => None case Some(x) => ValueText(env, x)
  }

  /** Record by record, `u` is the text of the field. */
  predicate Matched(env: Env, f: string, u: seq<string>, rs: seq<Record>) {
    |u| == |rs| && forall i :: 0 <= i < |rs| ==> FieldText(env, f, rs[i].v) == Some(u[i])
  }

  lemma {:induction false} UniverseOfNamed(env: Env, f: string, rs: seq<Record>, ser: Value -> string)
    requires AllNamed(f, rs)
    ensures Matched(env, f, P.Universe(Values(rs), Some(f), ser), rs)
  {
    if rs != [] {
      UniverseOfNamed(env, f, rs[1..], ser);
      assert Values(rs)[1..] == Values(rs[1..]);
      assert P.UnitOf(Values(rs)[0], Some(f), ser) != "";
    }
  }

  /** No unwind rule calls its element by the name of the field. */
  predicate Unshadowed(f: string, d: P.Dataset) {
    d.unwound ==> forall k :: 0 <= k < |d.rules| ==> S.AliasOf(d.rules[k]) != f
  }

  predicate OfRecord(f: string, r: Record, ctxs: seq<Ctx>) {
    forall i :: 0 <= i < |ctxs| ==> ctxs[i].base == r.v && ctxs[i].alias != Some(f)
  }

  lemma {:induction false} ElemsOfRecord(w: S.World, f: string, r: Record, rule: S.Rule, items: seq<Value>)
    requires S.AliasOf(rule) != f
    ensures OfRecord(f, r, S.ElemCtxs(w, r, rule, items))
  {
    if items != [] { ElemsOfRecord(w, f, r, rule, items[1..]); }
  }

  lemma {:induction false} RulesOfRecord(w: S.World, f: string, r: Record, rules: seq<S.Rule>)
    requires forall k :: 0 <= k < |rules| ==> S.AliasOf(rules[k]) != f
    ensures OfRecord(f, r, S.RulesCtxs(w, r, rules))
  {
    hide S.ElemCtxs, S.RuleItems, S.AliasOf;
    if rules != [] {
      ElemsOfRecord(w, f, r, rules[0], S.RuleItems(w, r, rules[0]));
      RulesOfRecord(w, f, r, rules[1..]);
    }
  }

  /** What one record offers the dataset, without the task. */
  function Offered(w: S.World, d: P.Dataset, r: Record): seq<Ctx> { Bared(S.Offers(w, Compiled(d), r)) }

  lemma {:induction false} BaredAt(ctxs: seq<Ctx>)
    ensures |Bared(ctxs)| == |ctxs| && forall i :: 0 <= i < |ctxs| ==> Bared(ctxs)[i] == Bare(ctxs[i])
  {
    hide Bare;
    if ctxs != [] { BaredAt(ctxs[1..]); }
  }

  /** Without an alias in the way, all a record offers has the record's needle. */
  lemma OfferedNeedles(w: S.World, d: P.Dataset, f: string, r: Record)
    requires Unshadowed(f, d)
    ensures forall i :: 0 <= i < |Offered(w, d, r)| ==>
              Needle(w.env, f, Offered(w, d, r)[i]) == FieldText(w.env, f, r.v)
  {
    hide Needle, ValueText, Bared, S.RulesCtxs;
    var offers := S.Offers(w, Compiled(d), r);
    if d.unwound { RulesOfRecord(w, f, r, d.rules); }
    BaredAt(offers);
    forall i | 0 <= i < |offers| ensures Needle(w.env, f, Bare(offers[i])) == FieldText(w.env, f, r.v) {
      NeedleIs(w.env, f, Bare(offers[i]));
    }
  }

  /** The rows of a dataset without a filter, record after record. */
  lemma WholeIsOffered(w: S.World, d: P.Dataset, rs: seq<Record>)
    requires d.filter.None?
    ensures rs == [] ==> Whole(w, d, rs) == []
    ensures rs != [] ==> Whole(w, d, rs) == Offered(w, d, rs[0]) + Whole(w, d, rs[1..])
  {
    hide S.Offers, S.KeptOf;
    var ds := Compiled(d);
    if rs != [] {
      hide Bared;
      NoFilterKeepsAll(w, ds, S.Offers(w, ds, rs[0]));
      BaredConcat(S.Offers(w, ds, rs[0]), S.RowCtxs(w, ds, rs[1..]));
    }
  }

  /** The records that rows `i` and `j` come from. */
  lemma {:induction false} RecordsOf(w: S.World, d: P.Dataset, f: string, u: seq<string>, rs: seq<Record>, i: nat,
                                     j: nat)
    returns (m: nat, n: nat)
    requires d.filter.None? && Unshadowed(f, d) && Matched(w.env, f, u, rs) && i <= j < |Whole(w, d, rs)|
    ensures m <= n < |rs| && Offered(w, d, rs[m]) != [] && Offered(w, d, rs[n]) != []
    ensures Needle(w.env, f, Whole(w, d, rs)[i]) == Some(u[m]) && Needle(w.env, f, Whole(w, d, rs)[j]) == Some(u[n])
    decreases |rs|
  {
    hide Whole, Offered, Needle, FieldText, Unshadowed;
    WholeIsOffered(w, d, rs);
    OfferedNeedles(w, d, f, rs[0]);
    var first := Offered(w, d, rs[0]);
    if j < |first| {
      m, n := 0, 0;
    } else {
      MatchedRest(w.env, f, u, rs);
      var m', n' := RecordsOf(w, d, f, u[1..], rs[1..], if i < |first| then j - |first| else i - |first|, j - |first|);
      m, n := if i < |first| then 0 else m' + 1, n' + 1;
    }
  }

  lemma MatchedRest(env: Env, f: string, u: seq<string>, rs: seq<Record>)
    requires Matched(env, f, u, rs) && rs != []
    ensures Matched(env, f, u[1..], rs[1..])
  {
    hide FieldText;
  }

  /** A row that record `m` is offered as. */
  lemma {:induction false} RowOf(w: S.World, d: P.Dataset, f: string, u: seq<string>, rs: seq<Record>, m: nat)
    returns (i: nat)
    requires d.filter.None? && Unshadowed(f, d) && Matched(w.env, f, u, rs) && m < |rs| && Offered(w, d, rs[m]) != []
    ensures i < |Whole(w, d, rs)| && Needle(w.env, f, Whole(w, d, rs)[i]) == Some(u[m])
    decreases |rs|
  {
    hide Whole, Offered, Needle, FieldText, Unshadowed;
    WholeIsOffered(w, d, rs);
    OfferedNeedles(w, d, f, rs[0]);
    if m == 0 {
      i := 0;
    } else {
      MatchedRest(w.env, f, u, rs);
      var i' := RowOf(w, d, f, u[1..], rs[1..], m - 1);
      i := |Offered(w, d, rs[0])| + i';
    }
  }

  /** Every record that offers anything has its value in one chunk. */
  ghost predicate OneHomePerRecord(w: S.World, d: P.Dataset, u: seq<string>, chunks: seq<seq<string>>, rs: seq<Record>)
    requires |u| == |rs|
  {
    forall m :: 0 <= m < |rs| && Offered(w, d, rs[m]) != [] ==> Homes(chunks, Some(u[m])) == 1
  }

  lemma RecordsHaveHomes(w: S.World, d: P.Dataset, f: string, u: seq<string>, chunks: seq<seq<string>>, rs: seq<Record>)
    requires d.filter.None? && Unshadowed(f, d) && Matched(w.env, f, u, rs)
    ensures OneHomeEach(w.env, f, chunks, Whole(w, d, rs)) <==> OneHomePerRecord(w, d, u, chunks, rs)
  {
    hide Whole, Offered, Needle, Matched, Unshadowed, Homes;
    MatchedLength(w.env, f, u, rs);
    var whole := Whole(w, d, rs);
    if OneHomeEach(w.env, f, chunks, whole) {
      forall m | 0 <= m < |rs| && Offered(w, d, rs[m]) != [] ensures Homes(chunks, Some(u[m])) == 1 {
        var i := RowOf(w, d, f, u, rs, m);
      }
    }
    if OneHomePerRecord(w, d, u, chunks, rs) {
      forall i | 0 <= i < |whole| ensures Homes(chunks, Needle(w.env, f, whole[i])) == 1 {
        var m, n := RecordsOf(w, d, f, u, rs, i, i);
      }
    }
  }

  lemma MatchedLength(env: Env, f: string, u: seq<string>, rs: seq<Record>)
    requires Matched(env, f, u, rs)
    ensures |u| == |rs|
  {}

  // ----- homes in consecutive slices --------------------------------------------------------------------------

  /** The chunk position `j` lies in. */
  lemma SliceHolding(u: seq<string>, k: nat, j: nat) returns (d: nat)
    requires k >= 1 && j < |u|
    ensures d < k && P.ChunkStart(|u|, k, d) <= j < P.ChunkStart(|u|, k, d + 1)
    ensures u[j] in P.Slices(u, k)[d]
  {
    hide P.ChunkStart, P.ChunkLen, P.SliceAt;
    d := 0;
    P.ChunkEnds(|u|, k);
    while d < k - 1 && P.ChunkStart(|u|, k, d + 1) <= j
      invariant d < k && P.ChunkStart(|u|, k, d) <= j
    {
      d := d + 1;
    }
    P.SliceIs(u, k, d);
    var i := P.ChunkStart(|u|, k, d);
    assert P.SliceAt(u, k, d)[j - i] == u[j];
  }

  lemma {:induction false} OnlyHome(chunks: seq<seq<string>>, c: nat, x: string)
    requires c < |chunks| && x in chunks[c] && Homes(chunks, Some(x)) <= 1
    ensures Home(chunks, Some(x)) == c
  {
    if c > 0 {
      HomeAt(chunks[1..], c - 1, x);
      OnlyHome(chunks[1..], c - 1, x);
    }
  }

  lemma {:induction false} HomeAt(chunks: seq<seq<string>>, c: nat, x: string)
    requires c < |chunks| && x in chunks[c]
    ensures Homes(chunks, Some(x)) >= 1
  {
    if c > 0 { HomeAt(chunks[1..], c - 1, x); }
  }

  lemma {:induction false} TwoHomes(chunks: seq<seq<string>>, c: nat, d: nat, x: string)
    requires c < d < |chunks| && x in chunks[c] && x in chunks[d]
    ensures Homes(chunks, Some(x)) >= 2
  {
    if c == 0 { HomeAt(chunks[1..], d - 1, x); } else { TwoHomes(chunks[1..], c - 1, d - 1, x); }
  }

  lemma {:induction false} StartsGrow(n: nat, k: nat, c: nat, d: nat)
    requires k >= 1 && c <= d <= k
    ensures P.ChunkStart(n, k, c) <= P.ChunkStart(n, k, d)
    decreases d - c
  {
    hide P.ChunkStart;
    if c < d { P.ChunkSteps(n, k, c); StartsGrow(n, k, c + 1, d); }
  }

  /** Values with one home each have homes that ascend. */
  lemma HomesAscend(u: seq<string>, k: nat, i: nat, j: nat)
    requires k >= 1 && i <= j < |u|
    requires Homes(P.Slices(u, k), Some(u[i])) == 1 && Homes(P.Slices(u, k), Some(u[j])) == 1
    ensures Home(P.Slices(u, k), Some(u[i])) <= Home(P.Slices(u, k), Some(u[j]))
  {
    hide P.ChunkStart, P.Slices, Homes, Home;
    var c := SliceHolding(u, k, i);
    var d := SliceHolding(u, k, j);
    OnlyHome(P.Slices(u, k), c, u[i]);
    OnlyHome(P.Slices(u, k), d, u[j]);
    if d < c { StartsGrow(|u|, k, d + 1, c); }
  }

  lemma RecordsInOrder(w: S.World, d: P.Dataset, f: string, u: seq<string>, k: nat, rs: seq<Record>)
    requires k >= 1 && d.filter.None? && Unshadowed(f, d) && Matched(w.env, f, u, rs)
    requires OneHomePerRecord(w, d, u, P.Slices(u, k), rs)
    ensures InHomeOrder(w.env, f, P.Slices(u, k), Whole(w, d, rs))
  {
    hide Whole, Offered, Needle, Matched, Unshadowed, Homes, Home, P.Slices;
    var whole, chunks := Whole(w, d, rs), P.Slices(u, k);
    forall i, j | 0 <= i <= j < |whole|
      ensures Home(chunks, Needle(w.env, f, whole[i])) <= Home(chunks, Needle(w.env, f, whole[j])) {
      var m, n := RecordsOf(w, d, f, u, rs, i, j);
      MatchedLength(w.env, f, u, rs);
      HomesAscend(u, k, m, n);
    }
  }

  /** No value is in two chunks. */
  predicate NoStraddle(chunks: seq<seq<string>>) {
    forall c, d, x | 0 <= c < d < |chunks| && x in chunks[c] :: x !in chunks[d]
  }

  lemma {:induction false} NowhereHome(chunks: seq<seq<string>>, x: string)
    requires forall c :: 0 <= c < |chunks| ==> x !in chunks[c]
    ensures Homes(chunks, Some(x)) == 0
  {
    if chunks != [] { NowhereHome(chunks[1..], x); }
  }

  lemma {:induction false} AtMostOneHome(chunks: seq<seq<string>>, x: string)
    requires NoStraddle(chunks)
    ensures Homes(chunks, Some(x)) <= 1
  {
    if chunks != [] {
      if x in chunks[0] { NowhereHome(chunks[1..], x); } else { AtMostOneHome(chunks[1..], x); }
    }
  }

  lemma OneHomeWithoutStraddle(u: seq<string>, k: nat, j: nat)
    requires k >= 1 && j < |u| && NoStraddle(P.Slices(u, k))
    ensures Homes(P.Slices(u, k), Some(u[j])) == 1
  {
    hide P.Slices, Homes, P.ChunkStart;
    var d := SliceHolding(u, k, j);
    HomeAt(P.Slices(u, k), d, u[j]);
    AtMostOneHome(P.Slices(u, k), u[j]);
  }

  lemma SliceValues(u: seq<string>, k: nat, c: nat, x: string) returns (j: nat)
    requires k >= 1 && c < k && x in P.Slices(u, k)[c]
    ensures j < |u| && u[j] == x
  {
    hide P.SliceAt, P.ChunkStart, P.ChunkLen;
    P.SliceIs(u, k, c);
    assert P.Slices(u, k)[c] == P.SliceAt(u, k, c);
    var i, n := P.ChunkStart(|u|, k, c), P.ChunkLen(|u|, k, c);
    var p :| 0 <= p < n && u[i..i + n][p] == x;
    j := i + p;
  }

  lemma DistinctDontStraddle(u: seq<string>, k: nat)
    requires k >= 1 && forall i, j :: 0 <= i < j < |u| ==> u[i] != u[j]
    ensures NoStraddle(P.Slices(u, k))
  {
    hide P.Slices;
    var chunks := P.Slices(u, k);
    forall c, d, x | 0 <= c < d < |chunks| && x in chunks[c] ensures x !in chunks[d] {
      if x in chunks[d] { SlicesApart(u, k, c, d, x); }
    }
  }

  lemma SlicesApart(u: seq<string>, k: nat, c: nat, d: nat, x: string)
    requires k >= 1 && c < d < k && forall i, j :: 0 <= i < j < |u| ==> u[i] != u[j]
    requires x in P.Slices(u, k)[c]
    ensures x !in P.Slices(u, k)[d]
  {
    hide P.SliceAt, P.ChunkStart, P.ChunkLen;
    P.SliceIs(u, k, c);
    P.SliceIs(u, k, d);
    StartsGrow(|u|, k, c + 1, d);
    var a, n := P.ChunkStart(|u|, k, c), P.ChunkLen(|u|, k, c);
    var b, m := P.ChunkStart(|u|, k, d), P.ChunkLen(|u|, k, d);
    assert P.Slices(u, k)[c] == u[a..a + n] && P.Slices(u, k)[d] == u[b..b + m];
    var p :| 0 <= p < n && u[a..a + n][p] == x;
    var other := u[b..b + m];
    forall q | 0 <= q < m ensures other[q] != x { assert other[q] == u[b + q]; }
  }

  /** When every record offers something, one home per record is no straddling. */
  lemma StraddleIff(w: S.World, d: P.Dataset, u: seq<string>, k: nat, rs: seq<Record>)
    requires k >= 1 && |u| == |rs|
    ensures NoStraddle(P.Slices(u, k)) ==> OneHomePerRecord(w, d, u, P.Slices(u, k), rs)
    ensures (forall m :: 0 <= m < |rs| ==> Offered(w, d, rs[m]) != []) && OneHomePerRecord(w, d, u, P.Slices(u, k), rs)
        ==> NoStraddle(P.Slices(u, k))
  {
    hide Offered, Homes, P.Slices;
    var chunks := P.Slices(u, k);
    if NoStraddle(chunks) {
      hide NoStraddle;
      forall m | 0 <= m < |rs| ensures Homes(chunks, Some(u[m])) == 1 { OneHomeWithoutStraddle(u, k, m); }
    } else {
      var c, e, x :| 0 <= c < e < |chunks| && x in chunks[c] && x in chunks[e];
      TwoHomes(chunks, c, e, x);
      var j := SliceValues(u, k, c, x);
      assert Homes(chunks, Some(u[j])) != 1;
    }
  }

  // ----- the theorem ------------------------------------------------------------------------------------------

  /** Fanning a pipeline out over `k` workers by field `f`, for a dataset
      without a filter of its own, unwound or not:
      - no row is lost or doubled exactly when each row's needle is in one chunk;
      - the tasks' rows in chunk order are the original rows exactly when,
        besides, the homes of the needles ascend;
      - when the dataset reads the records the universe comes from, all have
        `f` as a non-empty string and no alias hides it, that is exactly when
        each record that offers rows has its value in one chunk;
      - so it is when no value is in two chunks, only then if every record
        offers rows, and always when the values are distinct. */
  lemma FanoutPreservesMeaning(w: S.World, pipe: P.Pipeline, name: string, src: string, f: string, k: nat, m: nat,
                               stage: nat, job: Value, d: nat, rs: seq<Record>, ser: Value -> string)
    requires SegOk(Key(f)) && Splits(pipe, d) && Blind(w, pipe.datasets[d].rules) && k >= 1
    ensures var u := P.Universe(Values(rs), Some(f), ser);
            var chunks := P.Slices(u, k);
            var whole := Whole(w, pipe.datasets[d], rs);
            var out := Gathered(w, P.FanoutTasks(pipe, name, src, Some(f), chunks, 0, m, stage), job, d, rs);
            && (multiset(out) == multiset(whole) <==> OneHomeEach(w.env, f, chunks, whole))
            && (out == whole <==> OneHomeEach(w.env, f, chunks, whole) && InHomeOrder(w.env, f, chunks, whole))
            && (AllNamed(f, rs) && Unshadowed(f, pipe.datasets[d]) ==>
                  && |u| == |rs|
                  && (out == whole <==> OneHomePerRecord(w, pipe.datasets[d], u, chunks, rs))
                  && (NoStraddle(chunks) ==> out == whole)
                  && ((forall i :: 0 <= i < |rs| ==> Offered(w, pipe.datasets[d], rs[i]) != []) ==>
                        (out == whole <==> NoStraddle(chunks)))
                  && ((forall i, j :: 0 <= i < j < |u| ==> u[i] != u[j]) ==> out == whole))
  {
    hide Gathered, P.FanoutTasks, HavingAny, OneHomeEach, InHomeOrder, NoStraddle, P.Slices, P.Universe, SegOk,
        AllNamed,
      Unshadowed, Whole, Offered, OneHomePerRecord, Blind;
    var ds := pipe.datasets[d];
    var u := P.Universe(Values(rs), Some(f), ser);
    var chunks := P.Slices(u, k);
    FanoutGathers(w, pipe, name, src, f, chunks, 0, m, stage, job, d, rs);
    assert chunks[0..] == chunks;
    ConservesIff(w.env, f, chunks, Whole(w, ds, rs));
    OrderIff(w.env, f, chunks, Whole(w, ds, rs));
    if AllNamed(f, rs) && Unshadowed(f, ds) {
      UniverseOfNamed(w.env, f, rs, ser);
      MatchedLength(w.env, f, u, rs);
      RecordsHaveHomes(w, ds, f, u, chunks, rs);
      if OneHomePerRecord(w, ds, u, chunks, rs) { RecordsInOrder(w, ds, f, u, k, rs); }
      StraddleIff(w, ds, u, k, rs);
      if forall i, j :: 0 <= i < j < |u| ==> u[i] != u[j] { DistinctDontStraddle(u, k); }
    }
  }

  // ----- an alias with the field's name --------------------------------------------------------------------------

  /** Every unwind rule calls its element by the name of the field. */
  predicate Shadowed(f: string, d: P.Dataset) {
    d.unwound && forall k :: 0 <= k < |d.rules| ==> S.AliasOf(d.rules[k]) == f
  }

  predicate OfElements(f: string, ctxs: seq<Ctx>) {
    forall i :: 0 <= i < |ctxs| ==> ctxs[i].elem.Some? && ctxs[i].alias == Some(f)
  }

  lemma {:induction false} ElemsAliased(w: S.World, f: string, r: Record, rule: S.Rule, items: seq<Value>)
    requires S.AliasOf(rule) == f
    ensures OfElements(f, S.ElemCtxs(w, r, rule, items))
  {
    if items != [] { ElemsAliased(w, f, r, rule, items[1..]); }
  }

  lemma {:induction false} RulesAliased(w: S.World, f: string, r: Record, rules: seq<S.Rule>)
    requires forall k :: 0 <= k < |rules| ==> S.AliasOf(rules[k]) == f
    ensures OfElements(f, S.RulesCtxs(w, r, rules))
  {
    hide S.ElemCtxs, S.RuleItems, S.AliasOf;
    if rules != [] {
      ElemsAliased(w, f, r, rules[0], S.RuleItems(w, r, rules[0]));
      RulesAliased(w, f, r, rules[1..]);
    }
  }

  lemma {:induction false} WholeAliased(w: S.World, d: P.Dataset, f: string, rs: seq<Record>)
    requires d.filter.None? && Shadowed(f, d)
    ensures OfElements(f, Whole(w, d, rs))
  {
    hide Whole, Bared, S.RulesCtxs;
    WholeIsOffered(w, d, rs);
    if rs != [] {
      WholeAliased(w, d, f, rs[1..]);
      RulesAliased(w, f, rs[0], d.rules);
      BaredAt(S.RulesCtxs(w, rs[0], d.rules));
    }
  }

  ghost predicate OneHomePerElement(env: Env, chunks: seq<seq<string>>, ctxs: seq<Ctx>) {
    forall i :: 0 <= i < |ctxs| && ctxs[i].elem.Some? ==> Homes(chunks, ValueText(env, ctxs[i].elem.value)) == 1
  }

  /** Every element that becomes a row has one of the values as its text. */
  ghost predicate ElementsNamed(env: Env, u: seq<string>, ctxs: seq<Ctx>) {
    forall i :: 0 <= i < |ctxs| && ctxs[i].elem.Some? ==>
      match ValueText(env, ctxs[i].elem.value) case None => false case Some(x) => x in u
  }

  lemma {:induction false} OneHomeIfNamed(u: seq<string>, k: nat, x: Option<string>)
    requires k >= 1 && forall i, j :: 0 <= i < j < |u| ==> u[i] != u[j]
    ensures Homes(P.Slices(u, k), x) == 1 <==> x.Some? && x.value in u
  {
    hide P.Slices;
    DistinctDontStraddle(u, k);
    var chunks := P.Slices(u, k);
    if x.None? {
      NoNameNoHome(chunks);
    } else if x.value in u {
      var j :| 0 <= j < |u| && u[j] == x.value;
      OneHomeWithoutStraddle(u, k, j);
    } else {
      forall c | 0 <= c < k ensures x.value !in chunks[c] {
        if x.value in chunks[c] { var j := SliceValues(u, k, c, x.value); }
      }
      NowhereHome(chunks, x.value);
    }
  }

  lemma {:induction false} NoNameNoHome(chunks: seq<seq<string>>)
    ensures Homes(chunks, None) == 0
  {
    if chunks != [] { NoNameNoHome(chunks[1..]); }
  }

  /** When the alias of every rule is the field, the filter tests the unwound
      elements and not the records: no row is lost or doubled exactly when each
      element's text is in one chunk, which for distinct values is when each
      element's text is one of the values. */
  lemma ShadowedFanoutConservesIff(w: S.World, pipe: P.Pipeline, name: string, src: string, f: string, u: seq<string>,
                                   k: nat, m: nat, stage: nat, job: Value, d: nat, rs: seq<Record>)
    requires SegOk(Key(f)) && Splits(pipe, d) && Blind(w, pipe.datasets[d].rules) && k >= 1
    requires Shadowed(f, pipe.datasets[d])
    ensures var chunks := P.Slices(u, k);
            var whole := Whole(w, pipe.datasets[d], rs);
            var out := Gathered(w, P.FanoutTasks(pipe, name, src, Some(f), chunks, 0, m, stage), job, d, rs);
            && (multiset(out) == multiset(whole) <==> OneHomePerElement(w.env, chunks, whole))
            && ((forall i, j :: 0 <= i < j < |u| ==> u[i] != u[j]) ==>
                  (multiset(out) == multiset(whole) <==> ElementsNamed(w.env, u, whole)))
  {
    hide Gathered, P.FanoutTasks, HavingAny, P.Slices, SegOk, Whole, Blind, Needle, ValueText, Homes, Shadowed;
    var chunks := P.Slices(u, k);
    var whole := Whole(w, pipe.datasets[d], rs);
    FanoutGathers(w, pipe, name, src, f, chunks, 0, m, stage, job, d, rs);
    assert chunks[0..] == chunks;
    ConservesIff(w.env, f, chunks, whole);
    WholeAliased(w, pipe.datasets[d], f, rs);
    forall i | 0 <= i < |whole| ensures Needle(w.env, f, whole[i]) == ValueText(w.env, whole[i].elem.value) {
      NeedleIs(w.env, f, whole[i]);
    }
    if forall i, j :: 0 <= i < j < |u| ==> u[i] != u[j] {
      forall i | 0 <= i < |whole|
        ensures var x := ValueText(w.env, whole[i].elem.value); Homes(chunks, x) == 1 <==> x.Some? && x.value in u {
        OneHomeIfNamed(u, k, ValueText(w.env, whole[i].elem.value));
      }
    }
  }

  /** A record named `A` with one leg `x`, unwound under the alias `u`, which
      is also the field. */
  function LegRecord(): Record { Record(VObj([("u", VStr("A")), ("legs", VArr([VStr("x")]))]), "") }

  function LegRule(): S.Rule { S.Rule("leg", "$.legs[0]", "$.legs", "u") }

  function LegPipe(): P.Pipeline {
    P.Pipeline(None, [], [P.Dataset("legs", true, [LegRule()], None, false, [], None)])
  }

  function FirstLeg(): Node { Path([Key("legs"), Idx(0)]) }

  lemma LegCondition()
    ensures ParseCond("$.legs[0]") == IsTrue(FirstLeg()) && CondTaskFree(ParseCond("$.legs[0]"))
  {
    hide Compile, FindText, Lowered, Trim, ParseCond;
    LegCondIsPlain();
    PlainCondition("$.legs[0]");
    LegCompiles();
  }

  lemma LegCompiles()
    ensures Trim("$.legs[0]") == "$.legs[0]" && Compile("$.legs[0]") == FirstLeg()
  {
    TrimIsIdentity("$.legs[0]");
    FirstLegPrints();
    hide Compile, Print, Trim;
    assert Operand(FirstLeg()) by { assert SegsOk([Key("legs"), Idx(0)]); }
    CompilerTheorems.CompilerRoundTrip(FirstLeg());
  }

  lemma FirstLegPrints()
    ensures Print(FirstLeg()) == "$.legs[0]"
  {
    assert [Key("legs"), Idx(0)][1..] == [Idx(0)] && [Idx(0)][1..] == [];
    assert Decimal(0) == "0";
    assert PrintSegs([Idx(0)]) == "[0]" + "";
    assert PrintSegs([Key("legs"), Idx(0)]) == ".legs" + "[0]";
  }

  /** The condition is too short for the word `contains`, but for two places. */
  lemma LegCondIsPlain()
    ensures FindText(Lowered("$.legs[0]"), CONTAINS).None? && '=' !in "$.legs[0]"
  {
    var cond := "$.legs[0]";
    TrimIsIdentity(cond);
    var s := Lowered(cond);
    LoweredLegs();
    FindsFirst(s, CONTAINS);
    assert s[0] != 'c' && s[1] != 'c';
    forall i: nat ensures !OccursAt(s, CONTAINS, i) {
      if i + |CONTAINS| <= |s| { assert s[i..i + |CONTAINS|][0] == s[i]; }
    }
  }

  lemma LoweredLegs()
    ensures Lowered("$.legs[0]") == "$.legs[0]"
  {
    var cond := "$.legs[0]";
    TrimIsIdentity(cond);
    CompilerTheorems.LowerIsLower(cond);
  }

  lemma LegCondHolds(w: S.World)
    ensures Holds(w.env, "$.legs[0]", RecordCtx(LegRecord(), w.task))
  {
    hide ParseCond, Eval, LegRecord, FirstLeg;
    LegCondition();
    FirstLegIs(w.env, RecordCtx(LegRecord(), w.task));
  }

  lemma FirstLegIs(env: Env, ctx: Ctx)
    requires ctx.base == LegRecord().v && ctx.alias == None
    ensures Eval(env, FirstLeg(), ctx) == LStr("x")
  {
    hide LegRecord, Get, Collect;
    var segs := [Key("legs"), Idx(0)];
    WalkTheorems.SingleWalkIsCollect(ctx, segs);
    LegsField();
    assert segs[1..] == [Idx(0)] && [Idx(0)][1..] == [];
    assert Child(Base(ctx), Key("legs")) == Some(Ref(VArr([VStr("x")]), false));
    assert Follow(Base(ctx), segs) == Some(Ref(VStr("x"), false));
  }

  lemma LegsField()
    ensures Get(LegRecord().v, "legs") == Some(VArr([VStr("x")]))
  {
    var fields := LegRecord().v.fields;
    assert fields[1..] == [("legs", VArr([VStr("x")]))];
    assert "u"[0] != "legs"[0];
    assert Find(fields, "legs") == Find(fields[1..], "legs") == Some(VArr([VStr("x")]));
  }

  lemma LegItems(w: S.World)
    ensures S.RuleItems(w, LegRecord(), LegRule()) == [VStr("x")]
  {
    var ctx := RecordCtx(LegRecord(), w.task);
    LegCondHolds(w);
    hide Holds;
    var segs := [Key("legs")];
    hide TextNode;
    LegPath();
    WalkTheorems.TextWalkAgrees(ctx, segs);
    assert segs[1..] == [];
    LegsField();
  }

  lemma LegPath()
    ensures SegsOk([Key("legs")]) && WalkTheorems.NoWild([Key("legs")]) && WalkTheorems.NamesOnly([Key("legs")])
    ensures WalkTheorems.PathText([Key("legs")]) == "$.legs"
  {
    assert PrintSegs([Key("legs")]) == ".legs" + PrintSegs([]);
  }

  lemma LegWhole(w: S.World)
    ensures Whole(w, LegPipe().datasets[0], [LegRecord()])
         == [Ctx(LegRecord().v, "", Some(VStr("x")), Some("u"), None)]
  {
    var d := LegPipe().datasets[0];
    var r := LegRecord();
    LegOffers(w);
    var c := S.ElemCtx(w, r, LegRule(), VStr("x"));
    assert Bared([c]) == [Bare(c)] by { assert [c][1..] == []; }
    hide S.Offers, Whole, LegRecord;
    WholeIsOffered(w, d, [r]);
    WholeIsOffered(w, d, [r][1..]);
  }

  lemma LegOffers(w: S.World)
    ensures S.Offers(w, Compiled(LegPipe().datasets[0]), LegRecord())
         == [S.ElemCtx(w, LegRecord(), LegRule(), VStr("x"))]
  {
    LegItems(w);
    hide S.RuleItems, LegRecord, LegRule, S.ElemCtx;
    var items, rules := [VStr("x")], [LegRule()];
    var one := S.ElemCtxs(w, LegRecord(), LegRule(), items);
    assert items[1..] == [] && rules[1..] == [];
    assert items[0] == VStr("x") && S.ElemCtxs(w, LegRecord(), LegRule(), items[1..]) == [];
    assert one == [S.ElemCtx(w, LegRecord(), LegRule(), VStr("x"))];
    assert S.RulesCtxs(w, LegRecord(), rules) == one + S.RulesCtxs(w, LegRecord(), []) == one;
    assert Compiled(LegPipe().datasets[0]).rules == rules;
  }

  /** Named records and distinct values are not enough then: this fan-out, over
      any number of workers and whatever task scans it, keeps nothing of the one
      row there is. */
  lemma AliasCanLoseRows(w: S.World, name: string, src: string, k: nat, m: nat, stage: nat, job: Value,
                         ser: Value -> string)
    requires k >= 1
    ensures var u := P.Universe(Values([LegRecord()]), Some("u"), ser);
            && AllNamed("u", [LegRecord()]) && u == ["A"]
            && |Whole(w, LegPipe().datasets[0], [LegRecord()])| == 1
            && Gathered(w, P.FanoutTasks(LegPipe(), name, src, Some("u"), P.Slices(u, k), 0, m, stage), job, 0,
                        [LegRecord()]) == []
  {
    LegWhole(w);
    LegNamed(ser);
    hide Whole, Values, P.Universe, AllNamed, LegRecord;
    var whole := Whole(w, LegPipe().datasets[0], [LegRecord()]);
    LegNeedle(w.env, whole[0]);
    LegGathers(w, name, src, k, m, stage, job, whole);
  }

  lemma LegNamed(ser: Value -> string)
    ensures AllNamed("u", [LegRecord()]) && P.Universe(Values([LegRecord()]), Some("u"), ser) == ["A"]
  {
    var rs := [LegRecord()];
    assert rs[1..] == [] && Values(rs) == [LegRecord().v] && Values(rs)[1..] == [];
  }

  lemma LegNeedle(env: Env, ctx: Ctx)
    requires ctx.elem == Some(VStr("x")) && ctx.alias == Some("u")
    ensures Needle(env, "u", ctx) == Some("x")
  {
    hide Needle;
    NeedleIs(env, "u", ctx);
  }

  lemma LegGathers(w: S.World, name: string, src: string, k: nat, m: nat, stage: nat, job: Value, whole: seq<Ctx>)
    requires k >= 1 && whole == Whole(w, LegPipe().datasets[0], [LegRecord()])
    requires |whole| == 1 && Needle(w.env, "u", whole[0]) == Some("x")
    ensures Gathered(w, P.FanoutTasks(LegPipe(), name, src, Some("u"), P.Slices(["A"], k), 0, m, stage), job, 0,
                     [LegRecord()]) == []
  {
    hide P.Slices, Whole, Gathered, P.FanoutTasks, HavingAny, Homes, Needle, Blind, LegRecord, LegRule;
    var chunks := P.Slices(["A"], k);
    assert Blind(w, [LegRule()]) by { LegIsBlind(w); }
    FanoutGathers(w, LegPipe(), name, src, "u", chunks, 0, m, stage, job, 0, [LegRecord()]);
    assert chunks[0..] == chunks;
    NotAUnit(k);
    HomelessSkipped(w.env, "u", chunks, whole, []);
    assert whole + [] == whole;
    NothingHad(w.env, "u", chunks);
  }

  lemma LegIsBlind(w: S.World)
    ensures Blind(w, [LegRule()])
  {
    LegCondition();
    TaskFreeIsBlind(w, [LegRule()]);
  }

  lemma NotAUnit(k: nat)
    requires k >= 1
    ensures Homes(P.Slices(["A"], k), Some("x")) == 0
  {
    hide P.Slices;
    forall c | 0 <= c < k ensures "x" !in P.Slices(["A"], k)[c] {
      if "x" in P.Slices(["A"], k)[c] { var j := SliceValues(["A"], k, c, "x"); }
    }
    NowhereHome(P.Slices(["A"], k), "x");
  }

  lemma {:induction false} NothingHad(env: Env, f: string, chunks: seq<seq<string>>)
    ensures HavingAny(env, f, chunks, []) == []
  {
    if chunks != [] { NothingHad(env, f, chunks[1..]); }
  }
}
