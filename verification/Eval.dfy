/** Evaluation of expressions against one record. */
module Evaluation {
  import opened Wrappers
  import opened Text
  import opened Expr
  import opened Walk
  import opened Json
  import opened PairConditions
  import opened WalkTheorems

  datatype LazyVal =
    | LNull
    | LBool(b: bool)
    | LI64(i: int)
    | LU64(u: int)
    | LF64(text: string)
    | LStr(s: string)
    | LRaw(text: string)

  datatype Cell = CNull | CStr(s: string) | CF64(text: string) | CI64(i: int) | CBool(b: bool)

  // What is left uninterpreted: the serializer and the float conversions.
  // A float is the text it formats as.
  datatype Env = Env(
    rawText: Value -> string,
    floatOfInt: int -> string,
    parseFloat: string -> Option<string>,
    truncate: string -> int,
    isZero: string -> bool,
    sameFloat: (string, string) -> bool)

  // ----- specification: every path is walked in full -------------------------------------------------

  function ToLazy(env: Env, ctx: Ctx, r: Ref): LazyVal {
    match r.v
    case VNull => LNull
    case VBool(b) => LBool(b)
    case VInt(i) => if InI64(i) then LI64(i) else LU64(i)
    case VFloat(text) => LF64(text)
    case VStr(s) => LStr(s)
    case _ => LRaw(if r.root then ctx.raw else env.rawText(r.v))
  }

  function FirstLazy(env: Env, ctx: Ctx, nodes: seq<Ref>): LazyVal {
    if nodes == [] then LNull else ToLazy(env, ctx, nodes[0])
  }

  function BoolText(b: bool): string { if b then "true" else "false" }

  function ScalarText(v: LazyVal): Option<string> {
    match v
    case LNull => None
    case LBool(b) => Some(BoolText(b))
    case LI64(i) => Some(DecimalInt(i))
    case LU64(u) => Some(DecimalInt(u))
    case LF64(text) => Some(text)
    case LStr(s) => Some(s)
    case LRaw(text) => Some(text)
  }

  function JsonOf(v: LazyVal): string {
    match v
    case LNull => "null"
    case LBool(b) => BoolText(b)
    case LI64(i) => DecimalInt(i)
    case LU64(u) => DecimalInt(u)
    case LF64(text) => text
    case LStr(s) => QuoteRaw(s)
    case LRaw(text) => text
  }

  function LitValue(env: Env, l: Lit): LazyVal {
    match l
    case NullLit => LNull
    case BoolLit(b) => LBool(b)
    case I64Lit(i) => LI64(i)
    case F64Lit(text) => LF64(match env.parseFloat(text) case Some(f) => f case None => "0")
    case StrLit(s) => LStr(s)
  }

  function Wrap64(u: int): int { if u > I64_MAX then u - 2 * (I64_MAX + 1) else u }

  function BoolOfText(s: string): Cell {
    var t := Trim(s);
    if t == "true" || t == "True" || t == "1" then CBool(true)
    else if t == "false" || t == "False" || t == "0" then CBool(false)
    else CNull
  }

  function FloatCell(f: Option<string>): Cell { match f case Some(x) => CF64(x) case None => CNull }

  function IntCell(i: Option<int>): Cell { match i case Some(x) => CI64(x) case None => CNull }

  function ToCell(env: Env, v: LazyVal, kind: ColKind): Cell {
    if v.LNull? then CNull
    else match kind
      case StrKind => if v.LI64? then CI64(v.i) else CStr(match ScalarText(v) case Some(t) => t case None => "")
      case F64Kind =>
        (match v
         case LF64(text) => CF64(text)
         case LI64(i) => CF64(env.floatOfInt(i))
         case LU64(u) => CF64(env.floatOfInt(u))
         case LBool(b) => CF64(env.floatOfInt(if b then 1 else 0))
         case LStr(s) => FloatCell(env.parseFloat(Trim(s)))
         case LRaw(s) => FloatCell(env.parseFloat(Trim(s))))
      case I64Kind =>
        (match v
         case LI64(i) => CI64(i)
         case LU64(u) => CI64(Wrap64(u))
         case LF64(text) => CI64(env.truncate(text))
         case LBool(b) => CI64(if b then 1 else 0)
         case LStr(s) => IntCell(ParseI64(Trim(s)))
         case LRaw(s) => IntCell(ParseI64(Trim(s))))
      case BoolKind =>
        (match v
         case LBool(b) => CBool(b)
         case LI64(i) => CBool(i != 0)
         case LU64(u) => CBool(u != 0)
         case LF64(text) => CBool(!env.isZero(text))
         case LStr(s) => BoolOfText(s)
         case LRaw(s) => BoolOfText(s))
  }

  function OfCell(c: Cell): LazyVal {
    match c
    case CNull => LNull
    case CStr(s) => LStr(s)
    case CF64(text) => LF64(text)
    case CI64(i) => LI64(i)
    case CBool(b) => LBool(b)
  }

  function OptList(s: Option<string>): seq<string> { match s case None => [] case Some(x) => [x] }

  /** The texts one node contributes to an operand list: an array, its elements. */
  function Texts(env: Env, ctx: Ctx, r: Ref): seq<string> {
    if r.v.VArr? then ItemTexts(env, ctx, r.v.items) else OptList(ScalarText(ToLazy(env, ctx, r)))
  }

  function ItemTexts(env: Env, ctx: Ctx, items: seq<Value>): seq<string> {
    if items == [] then []
    else OptList(ScalarText(ToLazy(env, ctx, Ref(items[0], false)))) + ItemTexts(env, ctx, items[1..])
  }

  function AllTexts(env: Env, ctx: Ctx, nodes: seq<Ref>): seq<string> {
    if nodes == [] then [] else Texts(env, ctx, nodes[0]) + AllTexts(env, ctx, nodes[1..])
  }

  predicate PairPasses(cond: Option<string>, l: string, r: string) {
    cond.None? || PairCond(cond.value, l, r)
  }

  function PairRow(cond: Option<string>, l: string, rs: seq<string>): seq<string> {
    if rs == [] then []
    else (if PairPasses(cond, l, rs[0]) then [l + rs[0]] else []) + PairRow(cond, l, rs[1..])
  }

  function Pairs(cond: Option<string>, ls: seq<string>, rs: seq<string>): seq<string> {
    if ls == [] then [] else PairRow(cond, ls[0], rs) + Pairs(cond, ls[1..], rs)
  }

  function Eval(env: Env, n: Node, ctx: Ctx): LazyVal
    decreases n, 0
  {
    match n
    case Root => LRaw(ctx.raw)
    case Task(segs) => FirstLazy(env, ctx, TaskNodes(ctx, segs))
    case Path(segs) => FirstLazy(env, ctx, PathNodes(ctx, segs))
    case Literal(l) => LitValue(env, l)
    case Coalesce(args) => FirstOf(env, n, 0, ctx)
    case Cast(inner, kind) => OfCell(ToCell(env, Eval(env, inner, ctx), kind))
    case ToJson(inner) => LStr(JsonOf(Eval(env, inner, ctx)))
    case CartProd(left, right, cond) =>
        LStr(ArrayText(Pairs(cond, EvalVec(env, left, ctx), EvalVec(env, right, ctx))))
    case In(left, right) =>
      match ScalarText(Eval(env, left, ctx))
      case None => LBool(false)
      case Some(needle) => LBool(needle in EvalVec(env, right, ctx))
  }

  /** The first argument from `i` on that is not null. */
  function FirstOf(env: Env, n: Node, i: nat, ctx: Ctx): LazyVal
    requires n.Coalesce? && i <= |n.args|
    decreases n, 0, |n.args| - i
  {
    if i == |n.args| then LNull
    else if Eval(env, n.args[i], ctx).LNull? then FirstOf(env, n, i + 1, ctx)
    else Eval(env, n.args[i], ctx)
  }

  function EvalVec(env: Env, n: Node, ctx: Ctx): seq<string>
    decreases n, 1
  {
    match n
    case Root => Texts(env, ctx, Base(ctx))
    case Task(segs) => AllTexts(env, ctx, TaskNodes(ctx, segs))
    case Path(segs) => AllTexts(env, ctx, PathNodes(ctx, segs))
    case _ => OptList(ScalarText(Eval(env, n, ctx)))
  }

  predicate Truthy(v: LazyVal) { !v.LNull? && (v.LBool? ==> v.b) }

  // ----- the evaluator: wildcard-free paths take the walk without lists -----------------------------------

  method AnyWild(segs: seq<Seg>) returns (b: bool)
    ensures b == !NoWild(segs)
  {
    for i := 0 to |segs|
      invariant forall k :: 0 <= k < i ==> !segs[k].All?
    {
      if segs[i].All? { return true; }
    }
    b := false;
  }

  method ResolveFirst(env: Env, ctx: Ctx, segs: seq<Seg>, task: bool) returns (v: LazyVal)
    ensures v == FirstLazy(env, ctx, if task then TaskNodes(ctx, segs) else PathNodes(ctx, segs))
  {
    var wild := AnyWild(segs);
    if wild {
      var nodes: seq<Ref>;
      if task { nodes := CollectTask(ctx, segs); } else { nodes := CollectPath(ctx, segs); }
      v := if nodes == [] then LNull else ToLazy(env, ctx, nodes[0]);
    } else {
      hide ToLazy, PathNodes, PathNode, TaskNodes, TaskNode;
      SingleWalkIsCollect(ctx, segs);
      var r: Option<Ref>;
      if task { r := ResolveTaskSingle(ctx, segs); } else { r := ResolveSingle(ctx, segs); }
      v := if r.None? then LNull else ToLazy(env, ctx, r.value);
    }
  }

  lemma {:induction false} ItemTextsSnoc(env: Env, ctx: Ctx, items: seq<Value>, n: nat)
    requires n < |items|
    ensures ItemTexts(env, ctx, items[..n + 1])
         == ItemTexts(env, ctx, items[..n]) + OptList(ScalarText(ToLazy(env, ctx, Ref(items[n], false))))
    decreases n
  {
    hide ToLazy, ScalarText, OptList;
    var one := OptList(ScalarText(ToLazy(env, ctx, Ref(items[n], false))));
    if n == 0 {
      assert items[..1][1..] == [] && items[..0] == [];
      assert one + [] == one;
    } else {
      assert items[..n + 1][1..] == items[1..][..n] && items[..n][1..] == items[1..][..n - 1];
      ItemTextsSnoc(env, ctx, items[1..], n - 1);
      assert items[1..][n - 1] == items[n];
    }
  }

  method AddTexts(env: Env, ctx: Ctx, out: seq<string>, r: Ref) returns (all: seq<string>)
    ensures all == out + Texts(env, ctx, r)
  {
    hide ToLazy, ScalarText;
    all := out;
    if r.v.VArr? {
      var items := r.v.items;
      assert items[..0] == [];
      for i := 0 to |items|
        invariant all == out + ItemTexts(env, ctx, items[..i])
      {
        ItemTextsSnoc(env, ctx, items, i);
        var s := ScalarText(ToLazy(env, ctx, Ref(items[i], false)));
        if s.Some? { all := all + [s.value]; }
      }
      assert items[..|items|] == items;
    } else {
      var s := ScalarText(ToLazy(env, ctx, r));
      if s.Some? { all := all + [s.value]; }
    }
  }

  lemma {:induction false} AllTextsSnoc(env: Env, ctx: Ctx, nodes: seq<Ref>, n: nat)
    requires n < |nodes|
    ensures AllTexts(env, ctx, nodes[..n + 1]) == AllTexts(env, ctx, nodes[..n]) + Texts(env, ctx, nodes[n])
    decreases n
  {
    hide Texts;
    if n == 0 {
      assert nodes[..1][1..] == [] && nodes[..0] == [];
      assert Texts(env, ctx, nodes[0]) + [] == Texts(env, ctx, nodes[0]);
    } else {
      assert nodes[..n + 1][1..] == nodes[1..][..n] && nodes[..n][1..] == nodes[1..][..n - 1];
      AllTextsSnoc(env, ctx, nodes[1..], n - 1);
      assert nodes[1..][n - 1] == nodes[n];
    }
  }

  lemma AllTextsOfOne(env: Env, ctx: Ctx, r: Option<Ref>)
    ensures AllTexts(env, ctx, ListOf(r)) == if r.None? then [] else Texts(env, ctx, r.value)
  {
    hide Texts;
    if r.Some? { assert Texts(env, ctx, r.value) + [] == Texts(env, ctx, r.value); }
  }

  method ResolveTexts(env: Env, ctx: Ctx, segs: seq<Seg>, task: bool) returns (out: seq<string>)
    ensures out == AllTexts(env, ctx, if task then TaskNodes(ctx, segs) else PathNodes(ctx, segs))
  {
    hide Texts, AllTexts;
    out := [];
    var wild := AnyWild(segs);
    if wild {
      var nodes: seq<Ref>;
      if task { nodes := CollectTask(ctx, segs); } else { nodes := CollectPath(ctx, segs); }
      assert nodes[..0] == [];
      NoNodes(env, ctx);
      for i := 0 to |nodes|
        invariant out == AllTexts(env, ctx, nodes[..i])
      {
        AllTextsSnoc(env, ctx, nodes, i);
        out := AddTexts(env, ctx, out, nodes[i]);
      }
      assert nodes[..|nodes|] == nodes;
    } else {
      SingleWalkIsCollect(ctx, segs);
      var r: Option<Ref>;
      if task { r := ResolveTaskSingle(ctx, segs); } else { r := ResolveSingle(ctx, segs); }
      AllTextsOfOne(env, ctx, r);
      if r.Some? { out := AddTexts(env, ctx, out, r.value); }
    }
  }

  lemma NoNodes(env: Env, ctx: Ctx)
    ensures AllTexts(env, ctx, []) == []
  {}

  lemma {:induction false} PairRowSnoc(cond: Option<string>, l: string, rs: seq<string>, n: nat)
    requires n < |rs|
    ensures PairRow(cond, l, rs[..n + 1])
         == PairRow(cond, l, rs[..n]) + (if PairPasses(cond, l, rs[n]) then [l + rs[n]] else [])
    decreases n
  {
    hide PairPasses;
    var one := if PairPasses(cond, l, rs[n]) then [l + rs[n]] else [];
    if n == 0 {
      assert rs[..1][1..] == [] && rs[..0] == [];
      assert one + [] == one;
    } else {
      assert rs[..n + 1][1..] == rs[1..][..n] && rs[..n][1..] == rs[1..][..n - 1];
      PairRowSnoc(cond, l, rs[1..], n - 1);
      assert rs[1..][n - 1] == rs[n];
    }
  }

  lemma {:induction false} PairsSnoc(cond: Option<string>, ls: seq<string>, rs: seq<string>, n: nat)
    requires n < |ls|
    ensures Pairs(cond, ls[..n + 1], rs) == Pairs(cond, ls[..n], rs) + PairRow(cond, ls[n], rs)
    decreases n
  {
    hide PairRow;
    if n == 0 {
      assert ls[..1][1..] == [] && ls[..0] == [];
      assert PairRow(cond, ls[0], rs) + [] == PairRow(cond, ls[0], rs);
    } else {
      assert ls[..n + 1][1..] == ls[1..][..n] && ls[..n][1..] == ls[1..][..n - 1];
      PairsSnoc(cond, ls[1..], rs, n - 1);
      assert ls[1..][n - 1] == ls[n];
    }
  }

  /** The product loop: left values outside, right values inside. */
  method MakePairs(cond: Option<string>, ls: seq<string>, rs: seq<string>) returns (pairs: seq<string>)
    ensures pairs == Pairs(cond, ls, rs)
  {
    hide PairRow;
    pairs := [];
    assert ls[..0] == [];
    for i := 0 to |ls|
      invariant pairs == Pairs(cond, ls[..i], rs)
    {
      ghost var done := pairs;
      assert rs[..0] == [];
      NoPairs(cond, ls[i]);
      for j := 0 to |rs|
        invariant pairs == done + PairRow(cond, ls[i], rs[..j])
      {
        PairRowSnoc(cond, ls[i], rs, j);
        if cond.Some? && !PairCond(cond.value, ls[i], rs[j]) { continue; }
        pairs := pairs + [ls[i] + rs[j]];
      }
      assert rs[..|rs|] == rs;
      PairsSnoc(cond, ls, rs, i);
    }
    assert ls[..|ls|] == ls;
  }

  lemma NoPairs(cond: Option<string>, l: string)
    ensures PairRow(cond, l, []) == []
  {}

  method EvalNode(env: Env, n: Node, ctx: Ctx) returns (v: LazyVal)
    ensures v == Eval(env, n, ctx)
    decreases n, 0
  {
    hide ToCell, OfCell, JsonOf, ScalarText, Pairs, ArrayText, FirstLazy, PathNodes, TaskNodes;
    match n
    case Root => v := LRaw(ctx.raw);
    case Task(segs) => v := ResolveFirst(env, ctx, segs, true);
    case Path(segs) => v := ResolveFirst(env, ctx, segs, false);
    case Literal(l) => v := LitValue(env, l);
    case Coalesce(args) =>
      for i := 0 to |args|
        invariant Eval(env, n, ctx) == FirstOf(env, n, i, ctx)
      {
        v := EvalNode(env, args[i], ctx);
        if !v.LNull? { return; }
      }
      v := LNull;
    case Cast(inner, kind) =>
      var x := EvalNode(env, inner, ctx);
      v := OfCell(ToCell(env, x, kind));
    case ToJson(inner) =>
      var x := EvalNode(env, inner, ctx);
      v := LStr(JsonOf(x));
    case CartProd(left, right, cond) =>
      var l := EvalVector(env, left, ctx);
      var r := EvalVector(env, right, ctx);
      var pairs := MakePairs(cond, l, r);
      var text := WriteArray(pairs);
      v := LStr(text);
    case In(left, right) =>
      var x := EvalNode(env, left, ctx);
      NullHasNoText(x);
      if x.LNull? { return LBool(false); }
      var needle := match ScalarText(x) case Some(t) => t case None => "";
      var haystack := EvalVector(env, right, ctx);
      v := LBool(needle in haystack);
  }

  lemma NullHasNoText(v: LazyVal)
    ensures ScalarText(v).None? <==> v.LNull?
  {}

  method EvalVector(env: Env, n: Node, ctx: Ctx) returns (out: seq<string>)
    ensures out == EvalVec(env, n, ctx)
    decreases n, 1
  {
    hide Eval, ScalarText, AllTexts, Texts, PathNodes, TaskNodes;
    match n
    case Root => out := AddTexts(env, ctx, [], Base(ctx));
    case Task(segs) => out := ResolveTexts(env, ctx, segs, true);
    case Path(segs) => out := ResolveTexts(env, ctx, segs, false);
    case _ =>
      var v := EvalNode(env, n, ctx);
      var s := ScalarText(v);
      out := if s.Some? then [s.value] else [];
  }
}
