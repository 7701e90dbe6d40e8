/** What evaluation means to whoever writes the expressions. */
module EvalTheorems {
  import opened Wrappers
  import opened Expr
  import opened Walk
  import opened Evaluation
  import opened Json

  // ----- products ------------------------------------------------------------------------------

  lemma {:induction false} RowOfAll(l: string, rs: seq<string>)
    ensures |PairRow(None, l, rs)| == |rs|
    ensures forall j :: 0 <= j < |rs| ==> PairRow(None, l, rs)[j] == l + rs[j]
  {
    if rs != [] { RowOfAll(l, rs[1..]); }
  }

  lemma RowOffset(i: nat, n: nat, j: nat)
    requires i >= 1
    ensures i * n + j == n + ((i - 1) * n + j)
  {}

  lemma {:induction false} ProductSize(ls: seq<string>, rs: seq<string>)
    ensures |Pairs(None, ls, rs)| == |ls| * |rs|
  {
    hide PairRow;
    if ls != [] {
      ProductSize(ls[1..], rs);
      RowOfAll(ls[0], rs);
      RowOffset(|ls|, |rs|, 0);
    }
  }

  lemma {:induction false} ProductAt(ls: seq<string>, rs: seq<string>, i: nat, j: nat)
    requires i < |ls| && j < |rs|
    ensures 0 <= i * |rs| + j < |Pairs(None, ls, rs)| && Pairs(None, ls, rs)[i * |rs| + j] == ls[i] + rs[j]
  {
    hide PairRow;
    RowOfAll(ls[0], rs);
    var row, rest := PairRow(None, ls[0], rs), Pairs(None, ls[1..], rs);
    assert Pairs(None, ls, rs) == row + rest;
    hide Pairs;
    if i == 0 {
      assert 0 * |rs| == 0;
    } else {
      ProductAt(ls[1..], rs, i - 1, j);
      RowOffset(i, |rs|, j);
    }
  }

  /** Entry `i * |rs| + j` is the pair of `ls[i]` and `rs[j]`. */
  predicate EntryIs(pairs: seq<string>, ls: seq<string>, rs: seq<string>, i: nat, j: nat)
    requires i < |ls| && j < |rs|
  {
    0 <= i * |rs| + j < |pairs| && pairs[i * |rs| + j] == ls[i] + rs[j]
  }

  /** An unfiltered product has an entry for every pair, left values outermost. */
  lemma ProductIsGrid(ls: seq<string>, rs: seq<string>)
    ensures |Pairs(None, ls, rs)| == |ls| * |rs|
    ensures forall i, j :: 0 <= i < |ls| && 0 <= j < |rs| ==> EntryIs(Pairs(None, ls, rs), ls, rs, i, j)
  {
    hide Pairs;
    ProductSize(ls, rs);
    forall i, j | 0 <= i < |ls| && 0 <= j < |rs| ensures EntryIs(Pairs(None, ls, rs), ls, rs, i, j) {
      ProductAt(ls, rs, i, j);
    }
  }

  lemma {:induction false} PairRowKept(cond: Option<string>, l: string, rs: seq<string>, x: string)
    ensures x in PairRow(cond, l, rs) <==> exists r :: r in rs && PairPasses(cond, l, r) && x == l + r
  {
    hide PairPasses;
    if rs != [] {
      PairRowKept(cond, l, rs[1..], x);
      assert rs == [rs[0]] + rs[1..];
    }
  }

  /** A filtered product holds exactly the texts of the pairs that pass. */
  lemma {:induction false} ProductKeepsPassing(cond: Option<string>, ls: seq<string>, rs: seq<string>,
                                               x: string)
    ensures x in Pairs(cond, ls, rs) <==>
        exists l, r :: l in ls && r in rs && PairPasses(cond, l, r) && x == l + r
  {
    hide PairPasses, PairRow;
    if ls != [] {
      ProductKeepsPassing(cond, ls[1..], rs, x);
      PairRowKept(cond, ls[0], rs, x);
      assert ls == [ls[0]] + ls[1..];
    }
  }

  /** The value of a product is JSON that reads back to the list of its pairs,
      whatever quotes or backslashes the operands hold. */
  lemma ProductIsJson(env: Env, left: Node, right: Node, cond: Option<string>, ctx: Ctx)
    ensures var v := Eval(env, CartProd(left, right, cond), ctx);
            var ls, rs := EvalVec(env, left, ctx), EvalVec(env, right, ctx);
            && v.LStr? && ReadArray(v.s) == Some(Pairs(cond, ls, rs))
            && (cond.None? ==> |Pairs(cond, ls, rs)| == |ls| * |rs|)
  {
    hide Pairs, ReadArray, ArrayText;
    ArrayRoundTrip(Pairs(cond, EvalVec(env, left, ctx), EvalVec(env, right, ctx)));
    if cond.None? { ProductIsGrid(EvalVec(env, left, ctx), EvalVec(env, right, ctx)); }
  }

  // ----- coalescing ------------------------------------------------------------------------------

  /** The value is null only if every argument is, and otherwise that of the
      first argument that is not. */
  lemma {:induction false} CoalesceIsFirst(env: Env, n: Node, i: nat, ctx: Ctx)
    requires n.Coalesce? && i <= |n.args|
    ensures FirstOf(env, n, i, ctx) == LNull <==> forall j :: i <= j < |n.args| ==> Eval(env, n.args[j], ctx) == LNull
    ensures forall j :: i <= j < |n.args| && Eval(env, n.args[j], ctx) != LNull
                        && (forall k :: i <= k < j ==> Eval(env, n.args[k], ctx) == LNull)
                        ==> FirstOf(env, n, i, ctx) == Eval(env, n.args[j], ctx)
    decreases |n.args| - i
  {
    hide Eval;
    if i < |n.args| { CoalesceIsFirst(env, n, i + 1, ctx); }
  }
}
