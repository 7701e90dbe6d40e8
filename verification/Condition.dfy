/** Conditions of unwind rules. */
module Conditions {
  import opened Wrappers
  import opened Text
  import opened Expr
  import opened Walk
  import opened Evaluation

  // A condition as it is taken apart: a substring test, an equality, or the
  // truth of one expression.
  datatype Cond = Contains(left: Node, right: Node) | Equals(left: Node, right: Node) | IsTrue(node: Node)

  /** The lowered, trimmed condition: where the word `contains` is looked for. */
  function Lowered(cond: string): (r: string)
    ensures |r| <= |cond|
  {
    TrimShortens(cond);
    LowerLength(Trim(cond));
    Lower(Trim(cond))
  }

  lemma {:induction false} TrimEndShortens(s: string)
    ensures |TrimEnd(s)| <= |s|
  {
    if s != "" { TrimEndShortens(s[..|s| - 1]); }
  }

  lemma TrimShortens(s: string)
    ensures |Trim(s)| <= |s|
  {
    TrimEndShortens(SkipWs(s));
  }

  /** The place of `contains` is found in the trimmed condition, but the
      condition is cut there untrimmed. */
  function ParseCond(cond: string): Cond {
    match FindText(Lowered(cond), CONTAINS)
    case Some(i) => Contains(Compile(Trim(cond[..i])), Compile(Trim(cond[i + |CONTAINS|..])))
    case None =>
      match FindText(cond, "=")
      case Some(i) => Equals(Compile(Trim(cond[..i])), Compile(Trim(cond[i + 1..])))
      case None => IsTrue(Compile(Trim(cond)))
  }

  predicate SameValue(env: Env, a: LazyVal, b: LazyVal) {
    match (a, b)
    case (LStr(x), LStr(y)) => x == y
    case (LI64(x), LI64(y)) => x == y
    case (LF64(x), LF64(y)) => env.sameFloat(x, y)
    case (LBool(x), LBool(y)) => x == y
    case (LStr(x), LI64(y)) => ParseI64(x) == Some(y)
    case (LI64(x), LStr(y)) => ParseI64(y) == Some(x)
    case (LStr(x), LF64(y)) => TextIsFloat(env, x, y)
    case (LF64(x), LStr(y)) => TextIsFloat(env, y, x)
    case _ => false
  }

  predicate TextIsFloat(env: Env, s: string, y: string) {
    match env.parseFloat(Trim(s)) case None => false case Some(f) => env.sameFloat(f, y)
  }

  predicate Decides(env: Env, c: Cond, ctx: Ctx) {
    match c
    case Contains(left, right) =>
      var l, r := Eval(env, left, ctx), Eval(env, right, ctx);
      l.LStr? && r.LStr? && FindText(l.s, r.s).Some?
    case Equals(left, right) => SameValue(env, Eval(env, left, ctx), Eval(env, right, ctx))
    case IsTrue(node) => Truthy(Eval(env, node, ctx))
  }

  predicate Holds(env: Env, cond: string, ctx: Ctx) { Decides(env, ParseCond(cond), ctx) }

  /** The evaluator of conditions. */
  method EvalCondition(env: Env, cond: string, ctx: Ctx) returns (b: bool)
    ensures b == Holds(env, cond, ctx)
  {
    hide Eval, Compile, FindText, Lowered, Trim;
    var c := ParseCond(cond);
    match c {
      case Contains(left, right) =>
        var l := EvalNode(env, left, ctx);
        var r := EvalNode(env, right, ctx);
        if l.LStr? && r.LStr? { return FindText(l.s, r.s).Some?; }
        b := false;
      case Equals(left, right) =>
        var l := EvalNode(env, left, ctx);
        var r := EvalNode(env, right, ctx);
        b := SameValue(env, l, r);
      case IsTrue(node) =>
        var v := EvalNode(env, node, ctx);
        b := Truthy(v);
    }
  }

  /** Without the word and without an equals sign a condition is the truth of
      its expression. */
  lemma PlainCondition(cond: string)
    requires FindText(Lowered(cond), CONTAINS).None? && '=' !in cond
    ensures ParseCond(cond) == IsTrue(Compile(Trim(cond)))
  {
    hide Compile, Lowered;
    FoundIsIn(cond, '=');
  }

  /** An empty condition never holds. */
  lemma EmptyNeverHolds(env: Env, ctx: Ctx)
    ensures !Holds(env, "", ctx)
  {
    assert Lowered("") == "" && Trim("") == "";
    PlainCondition("");
    assert Compile("") == Node.Literal(NullLit);
  }
}
