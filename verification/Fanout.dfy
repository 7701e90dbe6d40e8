/** Splitting a pipeline over the values of a field: what the filter given to a
    chunk's task tests, and what the tasks of a fan-out keep together. */
module Fanout {
  import opened Wrappers
  import opened Text
  import opened Expr
  import opened Walk
  import opened Evaluation
  import opened Conditions
  import opened Json
  import opened WalkTheorems
  import P = Planning
  import S = Scan
  import CompilerTheorems

  // ----- what a task's worker sees ------------------------------------------------------------

  function Strs(units: seq<string>): seq<Value> {
    if units == [] then [] else [VStr(units[0])] + Strs(units[1..])
  }

  function ChunkInfo(c: P.Chunk): Value {
    VObj([
      ("units", VArr(Strs(c.units))),
      ("partition", VObj([("index", VInt(c.index)), ("of", VInt(c.total))])),
      ("universe",
        VObj([("source", VStr(c.source)), ("field", match c.field case Some(f) => VStr(f) case None => VNull)]))])
  }

  /** The payload of a task as its worker sees it in `$task`. */
  function TaskInfo(t: P.PlannedTask, job: Value): Value {
    VObj([("kind", VStr("etl")), ("job", job),
          ("ctx", match t.chunk case Some(c) => ChunkInfo(c) case None => VNull), ("id", VStr(t.id))])
  }

  function CompileField(f: P.Field): S.Field { S.Field(Compile(f.expression), f.kind) }

  /** The dataset a scan works on: the config's, with every expression compiled. */
  function Compiled(d: P.Dataset): S.Dataset {
    S.Dataset(
      d.unwound, d.rules,
      match d.filter case None => None case Some(text) => Some(Compile(text)),
      d.rowRoot,
      seq(|d.fields|, i requires 0 <= i < |d.fields| => CompileField(d.fields[i])),
      match d.leftKey case None => None case Some(text) => Some(Compile(text)))
  }

  // ----- what the injected filter tests ---------------------------------------------------------

  /** What the filter compares: the text the path `$.f` has in the context. */
  function Needle(env: Env, f: string, ctx: Ctx): Option<string> { ScalarText(Eval(env, Path([Key(f)]), ctx)) }

  /** The text of a value that is not a whole record. */
  function ValueText(env: Env, v: Value): Option<string> {
    ScalarText(ToLazy(env, Ctx(v, "", None, None, None), Ref(v, false)))
  }

  predicate HasUnit(env: Env, f: string, units: seq<string>, ctx: Ctx) {
    Needle(env, f, ctx).Some? && Needle(env, f, ctx).value in units
  }

  lemma ValueTextIs(env: Env, ctx: Ctx, v: Value)
    ensures ScalarText(ToLazy(env, ctx, Ref(v, false))) == ValueText(env, v)
  {}

  /** The needle is the text of the record's field, unless the field's name is
      the alias of an unwound element: then it is the text of that element. */
  lemma NeedleIs(env: Env, f: string, ctx: Ctx)
    ensures ctx.alias == Some(f) && ctx.elem.Some? ==> Needle(env, f, ctx) == ValueText(env, ctx.elem.value)
    ensures ctx.alias != Some(f) ==>
              Needle(env, f, ctx) == (match Get(ctx.base, f) case None => None case Some(v) => ValueText(env, v))
  {
    hide ToLazy, ScalarText, ValueText;
    var segs := [Key(f)];
    SingleWalkIsCollect(ctx, segs);
    assert segs[1..] == [];
    if ctx.alias == Some(f) && ctx.elem.Some? {
      assert PathNodes(ctx, segs) == [Ref(ctx.elem.value, false)];
      ValueTextIs(env, ctx, ctx.elem.value);
    }
    if ctx.alias != Some(f) {
      assert Follow(Base(ctx), segs) == Child(Base(ctx), Key(f));
      var v := Get(ctx.base, f);
      if v.Some? { ValueTextIs(env, ctx, v.value); } else { NoText(); }
    }
  }

  lemma NoText()
    ensures ScalarText(LNull) == None
  {}

  lemma {:induction false} StrsTexts(env: Env, ctx: Ctx, units: seq<string>)
    ensures ItemTexts(env, ctx, Strs(units)) == units
  {
    if units != [] {
      StrsTexts(env, ctx, units[1..]);
      assert Strs(units)[1..] == Strs(units[1..]);
      assert ToLazy(env, ctx, Ref(VStr(units[0]), false)) == LStr(units[0]);
      assert [units[0]] + units[1..] == units;
    }
  }

  lemma {:induction false} FindAt(fields: seq<(string, Value)>, i: nat)
    requires i < |fields| && forall j :: 0 <= j < i ==> fields[j].0 != fields[i].0
    ensures Find(fields, fields[i].0) == Some(fields[i].1)
  {
    if i > 0 { FindAt(fields[1..], i - 1); }
  }

  /** The fields of the payload and of its chunk. */
  lemma TaskFields(t: P.PlannedTask, job: Value)
    ensures var info := TaskInfo(t, job);
            && Get(info, "kind") == Some(VStr("etl")) && Get(info, "job") == Some(job)
            && Get(info, "id") == Some(VStr(t.id))
            && Get(info, "ctx") == Some(match t.chunk case Some(c) => ChunkInfo(c) case None => VNull)
  {
    var fields := TaskInfo(t, job).fields;
    assert "kind"[0] != "ctx"[0] && "kind"[0] != "id"[0] && "job"[0] != "ctx"[0] && "job"[0] != "id"[0];
    assert "kind"[0] != "job"[0] && "ctx"[0] != "id"[0];
    FindAt(fields, 0);
    FindAt(fields, 1);
    FindAt(fields, 2);
    FindAt(fields, 3);
  }

  lemma ChunkFields(c: P.Chunk)
    ensures var info := ChunkInfo(c);
            && Get(info, "units") == Some(VArr(Strs(c.units)))
            && (var part := Get(info, "partition");
                part.Some? && Get(part.value, "index") == Some(VInt(c.index))
                && Get(part.value, "of") == Some(VInt(c.total)))
            && (var from := Get(info, "universe");
                from.Some? && Get(from.value, "source") == Some(VStr(c.source))
                && Get(from.value, "field") == Some(match c.field case Some(f) => VStr(f) case None => VNull))
  {
    var fields := ChunkInfo(c).fields;
    assert "units"[0] != "partition"[0] && "universe"[0] != "partition"[0] && "units"[3] != "universe"[3];
    assert "index"[0] != "of"[0] && "source"[0] != "field"[0];
    FindAt(fields, 0);
    FindAt(fields, 1);
    FindAt(fields, 2);
    FindAt(fields[1].1.fields, 0);
    FindAt(fields[1].1.fields, 1);
    FindAt(fields[2].1.fields, 0);
    FindAt(fields[2].1.fields, 1);
  }

  lemma UnitsNode(t: P.PlannedTask, job: Value)
    requires t.chunk.Some?
    ensures Follow(Ref(TaskInfo(t, job), false), [Key("ctx"), Key("units")])
         == Some(Ref(VArr(Strs(t.chunk.value.units)), false))
  {
    var segs := [Key("ctx"), Key("units")];
    var info := ChunkInfo(t.chunk.value);
    assert Get(TaskInfo(t, job), "ctx") == Some(info) by { TaskFields(t, job); }
    assert Child(Ref(TaskInfo(t, job), false), segs[0]) == Some(Ref(info, false));
    assert Child(Ref(info, false), Key("units")) == Some(Ref(VArr(Strs(t.chunk.value.units)), false));
    assert segs[1..] == [Key("units")] && segs[1..][1..] == [];
  }

  function Keys(names: seq<string>): seq<Seg> {
    if names == [] then [] else [Key(names[0])] + Keys(names[1..])
  }

  /** `$task`, followed by the names, is the value. */
  predicate TaskReads(t: P.PlannedTask, job: Value, names: seq<string>, v: Value) {
    Follow(Ref(TaskInfo(t, job), false), Keys(names)) == Some(Ref(v, false))
  }

  lemma OneDown(v: Value, name: string, rest: seq<string>, below: Value)
    requires Get(v, name) == Some(below)
    ensures Follow(Ref(v, false), Keys([name] + rest)) == Follow(Ref(below, false), Keys(rest))
  {
    assert Child(Ref(v, false), Key(name)) == Some(Ref(below, false));
    assert ([name] + rest)[1..] == rest;
    assert ([Key(name)] + Keys(rest))[1..] == Keys(rest);
  }

  lemma ReadsTop(t: P.PlannedTask, job: Value, name: string, v: Value)
    requires Get(TaskInfo(t, job), name) == Some(v)
    ensures TaskReads(t, job, [name], v)
  {
    OneDown(TaskInfo(t, job), name, [], v);
    assert [name] + [] == [name];
  }

  lemma ReadsChunk(t: P.PlannedTask, job: Value, mid: string, low: string, v: Value)
    requires t.chunk.Some?
    requires var m := Get(ChunkInfo(t.chunk.value), mid); m.Some? && Get(m.value, low) == Some(v)
    ensures TaskReads(t, job, ["ctx", mid, low], v)
  {
    hide ChunkInfo, TaskInfo, Follow;
    TaskFields(t, job);
    var info := ChunkInfo(t.chunk.value);
    OneDown(TaskInfo(t, job), "ctx", [mid, low], info);
    OneDown(info, mid, [low], Get(info, mid).value);
    OneDown(Get(info, mid).value, low, [], v);
    assert ["ctx"] + [mid, low] == ["ctx", mid, low] && [mid] + [low] == [mid, low] && [low] + [] == [low];
    AtEnd(v);
  }

  lemma AtEnd(v: Value)
    ensures Follow(Ref(v, false), Keys([])) == Some(Ref(v, false))
  {}

  /** What a worker reads from its task besides the units: its id and job, and
      of a chunk which of how many it is and what was split. */
  lemma TaskSays(t: P.PlannedTask, job: Value)
    ensures TaskReads(t, job, ["kind"], VStr("etl")) && TaskReads(t, job, ["id"], VStr(t.id))
    ensures TaskReads(t, job, ["job"], job) && (t.chunk.None? ==> TaskReads(t, job, ["ctx"], VNull))
    ensures t.chunk.Some? ==>
              var c := t.chunk.value;
              && TaskReads(t, job, ["ctx", "partition", "index"], VInt(c.index))
              && TaskReads(t, job, ["ctx", "partition", "of"], VInt(c.total))
              && TaskReads(t, job, ["ctx", "universe", "source"], VStr(c.source))
              && TaskReads(t, job, ["ctx", "universe", "field"],
                           match c.field case Some(f) => VStr(f) case None => VNull)
  {
    hide TaskReads, TaskInfo, ChunkInfo, Get;
    TaskFields(t, job);
    ReadsTop(t, job, "kind", VStr("etl"));
    ReadsTop(t, job, "id", VStr(t.id));
    ReadsTop(t, job, "job", job);
    match t.chunk
    case None => ReadsTop(t, job, "ctx", VNull);
    case Some(c) =>
      ChunkFields(c);
      ReadsChunk(t, job, "partition", "index", VInt(c.index));
      ReadsChunk(t, job, "partition", "of", VInt(c.total));
      ReadsChunk(t, job, "universe", "source", VStr(c.source));
      ReadsChunk(t, job, "universe", "field", match c.field case Some(f) => VStr(f) case None => VNull);
  }

  lemma UnitsOf(env: Env, ctx: Ctx, t: P.PlannedTask, job: Value)
    requires t.chunk.Some? && ctx.task == Some(TaskInfo(t, job))
    ensures EvalVec(env, Task([Key("ctx"), Key("units")]), ctx) == t.chunk.value.units
  {
    hide ItemTexts, Follow, ToLazy;
    var segs := [Key("ctx"), Key("units")];
    UnitsNode(t, job);
    SingleWalkIsCollect(ctx, segs);
    var r := Ref(VArr(Strs(t.chunk.value.units)), false);
    assert TaskNodes(ctx, segs) == [r] by { hide Collect; }
    StrsTexts(env, ctx, t.chunk.value.units);
    AllTextsOfOne(env, ctx, Some(r));
  }

  lemma FilterEval(env: Env, f: string, ctx: Ctx)
    ensures Eval(env, ChunkFilter(f), ctx)
         == (match Needle(env, f, ctx)
             case None => LBool(false)
             case Some(needle) => LBool(needle in EvalVec(env, Task([Key("ctx"), Key("units")]), ctx)))
  {}

  /** In every context, unwound or not, the injected filter lets through exactly
      those whose needle is one of the chunk's units. */
  lemma ChunkFilterMeans(env: Env, f: string, ctx: Ctx, t: P.PlannedTask, job: Value)
    requires SegOk(Key(f))
    requires t.chunk.Some? && ctx.task == Some(TaskInfo(t, job))
    ensures Truthy(Eval(env, Compile(FilterText(f)), ctx)) <==> HasUnit(env, f, t.chunk.value.units, ctx)
  {
    hide Compile, Needle, EvalVec, TaskInfo, SegOk;
    CompilerTheorems.ChunkFilterCompiles(f);
    UnitsOf(env, ctx, t, job);
    FilterEval(env, f, ctx);
  }

  // ----- contexts without their task -----------------------------------------------------------------

  function Bare(ctx: Ctx): Ctx { ctx.(task := None) }

  function Bared(ctxs: seq<Ctx>): seq<Ctx> { if ctxs == [] then [] else [Bare(ctxs[0])] + Bared(ctxs[1..]) }

  lemma LazyIgnoresTask(env: Env, ctx: Ctx, r: Ref)
    ensures ToLazy(env, Bare(ctx), r) == ToLazy(env, ctx, r)
  {}

  /** The expression does not read `$task`. */
  predicate TaskFree(n: Node) {
    match n
    case Task(_) => false
    case Coalesce(args) => forall i :: 0 <= i < |args| ==> TaskFree(args[i])
    case Cast(inner, _) => TaskFree(inner)
    case ToJson(inner) => TaskFree(inner)
    case CartProd(left, right, _) => TaskFree(left) && TaskFree(right)
    case In(left, right) => TaskFree(left) && TaskFree(right)
    case _ => true
  }

  lemma {:induction false} TextsIgnoreTask(env: Env, ctx: Ctx, items: seq<Value>)
    ensures ItemTexts(env, Bare(ctx), items) == ItemTexts(env, ctx, items)
  {
    hide ToLazy, ScalarText;
    if items != [] {
      LazyIgnoresTask(env, ctx, Ref(items[0], false));
      TextsIgnoreTask(env, ctx, items[1..]);
    }
  }

  lemma {:induction false} NodesIgnoreTask(env: Env, ctx: Ctx, nodes: seq<Ref>)
    ensures FirstLazy(env, Bare(ctx), nodes) == FirstLazy(env, ctx, nodes)
    ensures AllTexts(env, Bare(ctx), nodes) == AllTexts(env, ctx, nodes)
  {
    hide ToLazy, ScalarText;
    if nodes != [] {
      LazyIgnoresTask(env, ctx, nodes[0]);
      if nodes[0].v.VArr? { TextsIgnoreTask(env, ctx, nodes[0].v.items); }
      NodesIgnoreTask(env, ctx, nodes[1..]);
    }
  }

  lemma {:induction false} EvalIgnoresTask(env: Env, n: Node, ctx: Ctx)
    requires TaskFree(n)
    ensures Eval(env, n, Bare(ctx)) == Eval(env, n, ctx)
    ensures EvalVec(env, n, Bare(ctx)) == EvalVec(env, n, ctx)
    decreases n, 0
  {
    hide ToLazy, ScalarText, ToCell, JsonOf, ArrayText, Pairs, AllTexts, FirstLazy;
    match n
    case Root => RootIgnoresTask(env, ctx);
    case Path(segs) => NodesIgnoreTask(env, ctx, PathNodes(ctx, segs));
    case Literal(_) =>
    case Coalesce(args) => FirstIgnoresTask(env, n, 0, ctx);
    case Cast(inner, kind) => EvalIgnoresTask(env, inner, ctx);
    case ToJson(inner) => EvalIgnoresTask(env, inner, ctx);
    case CartProd(left, right, cond) =>
      EvalIgnoresTask(env, left, ctx);
      EvalIgnoresTask(env, right, ctx);
    case In(left, right) =>
      EvalIgnoresTask(env, left, ctx);
      EvalIgnoresTask(env, right, ctx);
  }

  lemma RootIgnoresTask(env: Env, ctx: Ctx)
    ensures Texts(env, Bare(ctx), Base(ctx)) == Texts(env, ctx, Base(ctx))
  {
    hide ToLazy, ScalarText;
    LazyIgnoresTask(env, ctx, Base(ctx));
    if ctx.base.VArr? { TextsIgnoreTask(env, ctx, ctx.base.items); }
  }

  lemma {:induction false} FirstIgnoresTask(env: Env, n: Node, i: nat, ctx: Ctx)
    requires n.Coalesce? && TaskFree(n) && i <= |n.args|
    ensures FirstOf(env, n, i, Bare(ctx)) == FirstOf(env, n, i, ctx)
    decreases n, 0, |n.args| - i
  {
    hide Eval;
    if i < |n.args| {
      EvalIgnoresTask(env, n.args[i], ctx);
      FirstIgnoresTask(env, n, i + 1, ctx);
    }
  }

  function Under(w: S.World, task: Value): S.World { w.(task := Some(task)) }

  predicate CondTaskFree(c: Cond) {
    match c
    case Contains(left, right) => TaskFree(left) && TaskFree(right)
    case Equals(left, right) => TaskFree(left) && TaskFree(right)
    case IsTrue(node) => TaskFree(node)
  }

  /** The unwind conditions of the dataset do not depend on the task. */
  ghost predicate Blind(w: S.World, rules: seq<S.Rule>) {
    forall k, ctx | 0 <= k < |rules| ::
      Holds(w.env, rules[k].condition, ctx) == Holds(w.env, rules[k].condition, Bare(ctx))
  }

  /** Conditions that do not read `$task` do not depend on it. */
  lemma TaskFreeIsBlind(w: S.World, rules: seq<S.Rule>)
    requires forall k :: 0 <= k < |rules| ==> CondTaskFree(ParseCond(rules[k].condition))
    ensures Blind(w, rules)
  {
    hide ParseCond, Eval, TaskFree, Bare;
    forall k, ctx | 0 <= k < |rules|
      ensures Holds(w.env, rules[k].condition, ctx) == Holds(w.env, rules[k].condition, Bare(ctx)) {
      DecidesIgnoresTask(w.env, ParseCond(rules[k].condition), ctx);
    }
  }

  lemma DecidesIgnoresTask(env: Env, c: Cond, ctx: Ctx)
    requires CondTaskFree(c)
    ensures Decides(env, c, Bare(ctx)) == Decides(env, c, ctx)
  {
    hide Eval, TaskFree, Bare, SameValue;
    match c
    case Contains(left, right) =>
      EvalIgnoresTask(env, left, ctx);
      EvalIgnoresTask(env, right, ctx);
    case Equals(left, right) =>
      EvalIgnoresTask(env, left, ctx);
      EvalIgnoresTask(env, right, ctx);
    case IsTrue(node) => EvalIgnoresTask(env, node, ctx);
  }

  /** Every context the records offer, record after record. */
  function AllOffers(w: S.World, ds: S.Dataset, rs: seq<Record>): seq<Ctx> {
    if rs == [] then [] else S.Offers(w, ds, rs[0]) + AllOffers(w, ds, rs[1..])
  }

  lemma {:induction false} BaredConcat(x: seq<Ctx>, y: seq<Ctx>)
    ensures Bared(x + y) == Bared(x) + Bared(y)
  {
    hide Bare;
    if x == [] {
      assert x + y == y;
    } else {
      assert (x + y)[1..] == x[1..] + y;
      BaredConcat(x[1..], y);
    }
  }

  /** The rows of a dataset are the offered contexts that its filter keeps. */
  lemma {:induction false} RowsAreKept(w: S.World, ds: S.Dataset, rs: seq<Record>)
    ensures S.RowCtxs(w, ds, rs) == S.KeptOf(w, ds, AllOffers(w, ds, rs))
  {
    hide S.KeptOf, S.Offers;
    if rs == [] {
      S.NothingKept(w, ds);
    } else {
      RowsAreKept(w, ds, rs[1..]);
      S.KeptOfConcat(w, ds, S.Offers(w, ds, rs[0]), AllOffers(w, ds, rs[1..]));
    }
  }

  lemma {:induction false} NoFilterKeepsAll(w: S.World, ds: S.Dataset, ctxs: seq<Ctx>)
    requires ds.filter.None?
    ensures S.KeptOf(w, ds, ctxs) == ctxs
  {
    if ctxs != [] {
      NoFilterKeepsAll(w, ds, ctxs[1..]);
      assert [ctxs[0]] + ctxs[1..] == ctxs;
    }
  }

  // What a record offers depends on the task only through the conditions.

  lemma {:induction false} WalkIgnoresTask(x: Ctx, y: Ctx, r: Ref, s: string, first: bool)
    requires Bare(x) == Bare(y)
    ensures TextWalk(x, r, s, first) == TextWalk(y, r, s, first)
    decreases |s|
  {
    hide IsWs, TakeSeg, TakeBracket, Descend;
    if s != "" {
      if IsWs(s[0]) {
        WalkIgnoresTask(x, y, r, s[1..], first);
      } else {
        assert TextStep(x, r, s, first) == TextStep(y, r, s, first);
        var (next, rest) := TextStep(x, r, s, first);
        if next.Some? { WalkIgnoresTask(x, y, next.value, rest, false); }
      }
    }
  }

  lemma PathIgnoresTask(x: Ctx, y: Ctx, path: string)
    requires Bare(x) == Bare(y)
    ensures TextNode(x, path) == TextNode(y, path)
  {
    hide TextWalk, Trim;
    var p := Trim(path);
    if p != "" { WalkIgnoresTask(x, y, Base(x), p[1..], true); }
  }

  lemma ItemsIgnoreTask(w: S.World, task: Value, r: Record, rules: seq<S.Rule>, k: nat)
    requires Blind(w, rules) && k < |rules|
    ensures S.RuleItems(Under(w, task), r, rules[k]) == S.RuleItems(w, r, rules[k])
  {
    hide TextNode;
    var x, y := RecordCtx(r, w.task), RecordCtx(r, Some(task));
    assert Bare(x) == Bare(y);
    assert Holds(w.env, rules[k].condition, x) == Holds(w.env, rules[k].condition, y);
    PathIgnoresTask(x, y, rules[k].path);
  }

  lemma {:induction false} ElemsIgnoreTask(w: S.World, task: Value, r: Record, rule: S.Rule, items: seq<Value>)
    ensures Bared(S.ElemCtxs(Under(w, task), r, rule, items)) == Bared(S.ElemCtxs(w, r, rule, items))
  {
    if items != [] {
      ElemsIgnoreTask(w, task, r, rule, items[1..]);
      hide Bared;
      var a, b := S.ElemCtx(Under(w, task), r, rule, items[0]), S.ElemCtx(w, r, rule, items[0]);
      assert Bare(a) == Bare(b);
      BaredCons(a, S.ElemCtxs(Under(w, task), r, rule, items[1..]));
      BaredCons(b, S.ElemCtxs(w, r, rule, items[1..]));
    }
  }

  lemma BaredCons(x: Ctx, xs: seq<Ctx>)
    ensures Bared([x] + xs) == [Bare(x)] + Bared(xs)
  {
    assert ([x] + xs)[1..] == xs;
  }

  lemma {:induction false} RulesIgnoreTask(w: S.World, task: Value, r: Record, rules: seq<S.Rule>, k: nat)
    requires Blind(w, rules) && k <= |rules|
    ensures Bared(S.RulesCtxs(Under(w, task), r, rules[k..])) == Bared(S.RulesCtxs(w, r, rules[k..]))
    decreases |rules| - k
  {
    hide Blind, S.RuleItems, S.ElemCtxs, Bared, Under;
    if k < |rules| {
      RulesIgnoreTask(w, task, r, rules, k + 1);
      assert rules[k..][1..] == rules[k + 1..];
      ItemsIgnoreTask(w, task, r, rules, k);
      var items := S.RuleItems(w, r, rules[k]);
      ElemsIgnoreTask(w, task, r, rules[k], items);
      BaredConcat(S.ElemCtxs(Under(w, task), r, rules[k], items), S.RulesCtxs(Under(w, task), r, rules[k + 1..]));
      BaredConcat(S.ElemCtxs(w, r, rules[k], items), S.RulesCtxs(w, r, rules[k + 1..]));
    }
  }

  lemma OffersIgnoreTask(w: S.World, task: Value, ds: S.Dataset, r: Record)
    requires Blind(w, ds.rules)
    ensures Bared(S.Offers(Under(w, task), ds, r)) == Bared(S.Offers(w, ds, r))
  {
    hide Blind, S.RulesCtxs;
    if ds.unwound {
      RulesIgnoreTask(w, task, r, ds.rules, 0);
      assert ds.rules[0..] == ds.rules;
    } else {
      var a, b := RecordCtx(r, Some(task)), RecordCtx(r, w.task);
      assert Bare(a) == Bare(b);
      assert [a][1..] == [] && [b][1..] == [];
    }
  }

  /** Whatever task scans them, the records offer the same contexts. */
  lemma {:induction false} AllOffersIgnoreTask(w: S.World, task: Value, ds: S.Dataset, rs: seq<Record>)
    requires Blind(w, ds.rules)
    ensures Bared(AllOffers(Under(w, task), ds, rs)) == Bared(AllOffers(w, ds, rs))
  {
    hide Blind, S.Offers, Bared, Under;
    if rs != [] {
      AllOffersIgnoreTask(w, task, ds, rs[1..]);
      OffersIgnoreTask(w, task, ds, rs[0]);
      BaredConcat(S.Offers(Under(w, task), ds, rs[0]), AllOffers(Under(w, task), ds, rs[1..]));
      BaredConcat(S.Offers(w, ds, rs[0]), AllOffers(w, ds, rs[1..]));
    }
  }

  // A task's own context is the one its filter reads.

  predicate CarryTask(ctxs: seq<Ctx>, task: Option<Value>) { forall i :: 0 <= i < |ctxs| ==> ctxs[i].task == task }

  lemma {:induction false} ElemsCarryTask(w: S.World, r: Record, rule: S.Rule, items: seq<Value>)
    ensures CarryTask(S.ElemCtxs(w, r, rule, items), w.task)
  {
    if items != [] { ElemsCarryTask(w, r, rule, items[1..]); }
  }

  lemma {:induction false} RulesCarryTask(w: S.World, r: Record, rules: seq<S.Rule>)
    ensures CarryTask(S.RulesCtxs(w, r, rules), w.task)
  {
    hide S.ElemCtxs, S.RuleItems;
    if rules != [] {
      ElemsCarryTask(w, r, rules[0], S.RuleItems(w, r, rules[0]));
      RulesCarryTask(w, r, rules[1..]);
    }
  }

  lemma {:induction false} AllCarryTask(w: S.World, ds: S.Dataset, rs: seq<Record>)
    ensures CarryTask(AllOffers(w, ds, rs), w.task)
  {
    hide S.RulesCtxs;
    if rs != [] {
      AllCarryTask(w, ds, rs[1..]);
      RulesCarryTask(w, rs[0], ds.rules);
    }
  }

  // ----- what each task keeps ---------------------------------------------------------------------------

  /** The rows a scan makes of the records, by the context each comes from. */
  function Whole(w: S.World, d: P.Dataset, rs: seq<Record>): seq<Ctx> { Bared(S.RowCtxs(w, Compiled(d), rs)) }

  /** The rows a task makes for its dataset `d`. */
  function TaskRows(w: S.World, t: P.PlannedTask, job: Value, d: nat, rs: seq<Record>): seq<Ctx> {
    if d < |t.pipe.datasets| then Whole(Under(w, TaskInfo(t, job)), t.pipe.datasets[d], rs) else []
  }

  /** The rows of the tasks, end to end. */
  function Gathered(w: S.World, ts: seq<P.PlannedTask>, job: Value, d: nat, rs: seq<Record>): seq<Ctx> {
    if ts == [] then [] else TaskRows(w, ts[0], job, d, rs) + Gathered(w, ts[1..], job, d, rs)
  }

  /** The contexts whose needle is one of the units. */
  function Having(env: Env, f: string, units: seq<string>, ctxs: seq<Ctx>): seq<Ctx> {
    if ctxs == [] then []
    else (if HasUnit(env, f, units, ctxs[0]) then [ctxs[0]] else []) + Having(env, f, units, ctxs[1..])
  }

  function HavingAny(env: Env, f: string, chunks: seq<seq<string>>, ctxs: seq<Ctx>): seq<Ctx> {
    if chunks == [] then [] else Having(env, f, chunks[0], ctxs) + HavingAny(env, f, chunks[1..], ctxs)
  }

  lemma NeedleIgnoresTask(env: Env, f: string, ctx: Ctx)
    ensures Needle(env, f, Bare(ctx)) == Needle(env, f, ctx)
  {
    hide ToLazy, ScalarText;
    var segs := [Key(f)];
    assert PathNodes(Bare(ctx), segs) == PathNodes(ctx, segs);
    var nodes := PathNodes(ctx, segs);
    if nodes != [] { LazyIgnoresTask(env, ctx, nodes[0]); }
  }

  lemma {:induction false} BaredHaving(env: Env, f: string, units: seq<string>, ctxs: seq<Ctx>)
    ensures Bared(Having(env, f, units, ctxs)) == Having(env, f, units, Bared(ctxs))
  {
    hide Needle, Bare;
    if ctxs != [] {
      BaredHaving(env, f, units, ctxs[1..]);
      NeedleIgnoresTask(env, f, ctxs[0]);
      assert HasUnit(env, f, units, Bare(ctxs[0])) == HasUnit(env, f, units, ctxs[0]);
      BaredCons(ctxs[0], Having(env, f, units, ctxs[1..]));
      var all := Bared(ctxs);
      assert all[0] == Bare(ctxs[0]) && all[1..] == Bared(ctxs[1..]);
      hide HasUnit;
      if HasUnit(env, f, units, ctxs[0]) {
        assert Bared(Having(env, f, units, ctxs)) == [Bare(ctxs[0])] + Having(env, f, units, Bared(ctxs[1..]));
      } else {
        assert Having(env, f, units, ctxs) == Having(env, f, units, ctxs[1..]);
      }
    }
  }

  lemma {:induction false} KeepsItsUnits(w: S.World, ds: S.Dataset, f: string, t: P.PlannedTask, job: Value,
                                         ctxs: seq<Ctx>)
    requires SegOk(Key(f)) && t.chunk.Some? && CarryTask(ctxs, Some(TaskInfo(t, job)))
    requires ds.filter == Some(Compile(FilterText(f)))
    ensures S.KeptOf(w, ds, ctxs) == Having(w.env, f, t.chunk.value.units, ctxs)
  {
    hide Compile, Eval, HasUnit, TaskInfo, FilterText, SegOk;
    if ctxs != [] {
      KeepsItsUnits(w, ds, f, t, job, ctxs[1..]);
      ChunkFilterMeans(w.env, f, ctxs[0], t, job);
    }
  }

  /** The dataset `d` is split by the fan-out: it has no filter of its own. */
  predicate Splits(pipe: P.Pipeline, d: nat) { d < |pipe.datasets| && pipe.datasets[d].filter.None? }

  /** A chunk's task makes, of the rows its records offer it, exactly those with
      one of its units. */
  lemma TaskKeepsItsUnits(w: S.World, ds: P.Dataset, f: string, t: P.PlannedTask, job: Value, d: nat, rs: seq<Record>)
    requires SegOk(Key(f)) && t.chunk.Some? && ds.filter.None?
    requires d < |t.pipe.datasets| && t.pipe.datasets[d] == P.Filtered(ds, FilterText(f))
    ensures TaskRows(w, t, job, d, rs)
         == Having(w.env, f, t.chunk.value.units, Whole(Under(w, TaskInfo(t, job)), ds, rs))
  {
    hide Compile, TaskInfo, FilterText, SegOk, S.RowCtxs, S.KeptOf, AllOffers, Bared, Having;
    var info := TaskInfo(t, job);
    var own, plain := Compiled(t.pipe.datasets[d]), Compiled(ds);
    var wt := Under(w, info);
    RowsAreKept(wt, own, rs);
    AllCarryTask(wt, own, rs);
    KeepsItsUnits(wt, own, f, t, job, AllOffers(wt, own, rs));
    SameOffers(wt, own, plain, rs);
    BaredHaving(w.env, f, t.chunk.value.units, AllOffers(wt, plain, rs));
    RowsAreKept(wt, plain, rs);
    NoFilterKeepsAll(wt, plain, AllOffers(wt, plain, rs));
  }

  /** Unless a condition reads the task, a dataset without a filter has the same
      rows whatever task scans it. */
  lemma WholeIgnoresTask(w: S.World, task: Value, ds: P.Dataset, rs: seq<Record>)
    requires ds.filter.None? && Blind(w, ds.rules)
    ensures Whole(Under(w, task), ds, rs) == Whole(w, ds, rs)
  {
    hide S.RowCtxs, S.KeptOf, AllOffers, Bared, Blind, Under;
    var plain := Compiled(ds);
    AllOffersIgnoreTask(w, task, plain, rs);
    RowsAreKept(w, plain, rs);
    RowsAreKept(Under(w, task), plain, rs);
    NoFilterKeepsAll(w, plain, AllOffers(w, plain, rs));
    NoFilterKeepsAll(Under(w, task), plain, AllOffers(Under(w, task), plain, rs));
  }

  lemma {:induction false} SameOffers(w: S.World, a: S.Dataset, b: S.Dataset, rs: seq<Record>)
    requires a.unwound == b.unwound && a.rules == b.rules
    ensures AllOffers(w, a, rs) == AllOffers(w, b, rs)
  {
    hide S.RulesCtxs;
    if rs != [] { SameOffers(w, a, b, rs[1..]); }
  }

  lemma {:induction false} HavingNone(env: Env, f: string, ctxs: seq<Ctx>)
    ensures Having(env, f, [], ctxs) == []
  {
    hide Needle;
    if ctxs != [] { HavingNone(env, f, ctxs[1..]); }
  }

  /** Together the tasks keep, chunk after chunk, the contexts of the unsplit
      dataset that have one of that chunk's units. */
  lemma {:induction false} FanoutGathers(w: S.World, pipe: P.Pipeline, name: string, src: string, f: string,
                                         chunks: seq<seq<string>>, i: nat, m: nat, stage: nat, job: Value, d: nat,
                                         rs: seq<Record>)
    requires SegOk(Key(f)) && Splits(pipe, d) && Blind(w, pipe.datasets[d].rules) && i <= |chunks|
    ensures Gathered(w, P.FanoutTasks(pipe, name, src, Some(f), chunks, i, m, stage), job, d, rs)
         == HavingAny(w.env, f, chunks[i..], Whole(w, pipe.datasets[d], rs))
    decreases |chunks| - i
  {
    hide SegOk, Having, TaskRows, Whole, FilterText, Blind, TaskInfo;
    if i < |chunks| {
      FanoutGathers(w, pipe, name, src, f, chunks, i + 1, m, stage, job, d, rs);
      assert chunks[i..][1..] == chunks[i + 1..];
      var whole := Whole(w, pipe.datasets[d], rs);
      var rest := P.FanoutTasks(pipe, name, src, Some(f), chunks, i + 1, m, stage);
      if chunks[i] == [] {
        HavingNone(w.env, f, whole);
        assert P.FanoutTasks(pipe, name, src, Some(f), chunks, i, m, stage) == [] + rest == rest;
        assert HavingAny(w.env, f, chunks[i..], whole) == [] + HavingAny(w.env, f, chunks[i + 1..], whole);
      } else {
        var t := P.FanoutTask(pipe, name, P.Chunk(chunks[i], i, |chunks|, src, Some(f)), m, stage);
        assert t.pipe.datasets[d] == P.Filtered(pipe.datasets[d], FilterText(f));
        TaskKeepsItsUnits(w, pipe.datasets[d], f, t, job, d, rs);
        WholeIgnoresTask(w, TaskInfo(t, job), pipe.datasets[d], rs);
        var ts := P.FanoutTasks(pipe, name, src, Some(f), chunks, i, m, stage);
        assert ts[0] == t && ts[1..] == rest;
      }
    }
  }
}
