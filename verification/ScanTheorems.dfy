/** The rows a scan makes, told from the records, the rules and the filter. */
module ScanTheorems {
  import opened Wrappers
  import opened Expr
  import opened Walk
  import opened Evaluation
  import opened Conditions
  import opened Columns
  import opened Scan

  function Concat(parts: seq<seq<Ctx>>): seq<Ctx> { if parts == [] then [] else parts[0] + Concat(parts[1..]) }

  // ----- rules -------------------------------------------------------------------------------------

  /** Row `k` is the record with element `k` under the rule's alias, or under its
      name if it has none. */
  predicate RowPerElement(w: World, r: Record, rule: Rule, items: seq<Value>, rows: seq<Ctx>) {
    && |rows| == |items|
    && forall k :: 0 <= k < |items| ==>
         rows[k] == Ctx(r.v, r.raw, Some(items[k]), Some(if rule.alias == "" then rule.name else rule.alias), w.task)
  }

  /** A rule whose condition fails, or whose path reaches no array, gives nothing. */
  predicate RuleGives(w: World, r: Record, rule: Rule, rows: seq<Ctx>) {
    var ctx := Ctx(r.v, r.raw, None, None, w.task);
    if !Holds(w.env, rule.condition, ctx) then rows == []
    else match TextNode(ctx, rule.path)
      case Some(Ref(VArr(items), _)) => RowPerElement(w, r, rule, items, rows)
      case _ => rows == []
  }

  ghost predicate RulesGive(w: World, r: Record, rules: seq<Rule>, parts: seq<seq<Ctx>>) {
    |parts| == |rules| && forall k :: 0 <= k < |rules| ==> RuleGives(w, r, rules[k], parts[k])
  }

  /** What a record offers: itself, or the rows of its rules, rule after rule. */
  ghost predicate RecordGives(w: World, ds: Dataset, r: Record, rows: seq<Ctx>) {
    if ds.unwound then exists parts :: RulesGive(w, r, ds.rules, parts) && rows == Concat(parts)
    else rows == [Ctx(r.v, r.raw, None, None, w.task)]
  }

  lemma {:induction false} ElemCtxsGive(w: World, r: Record, rule: Rule, items: seq<Value>)
    ensures RowPerElement(w, r, rule, items, ElemCtxs(w, r, rule, items))
  {
    if items != [] { ElemCtxsGive(w, r, rule, items[1..]); }
  }

  lemma RuleItemsGive(w: World, r: Record, rule: Rule)
    ensures RuleGives(w, r, rule, ElemCtxs(w, r, rule, RuleItems(w, r, rule)))
  {
    hide Holds, TextNode, RowPerElement;
    ElemCtxsGive(w, r, rule, RuleItems(w, r, rule));
  }

  lemma {:induction false} RulesCtxsGive(w: World, r: Record, rules: seq<Rule>) returns (parts: seq<seq<Ctx>>)
    ensures RulesGive(w, r, rules, parts) && RulesCtxs(w, r, rules) == Concat(parts)
  {
    hide RuleGives, ElemCtxs, RuleItems;
    if rules == [] {
      parts := [];
    } else {
      var more := RulesCtxsGive(w, r, rules[1..]);
      RuleItemsGive(w, r, rules[0]);
      parts := [ElemCtxs(w, r, rules[0], RuleItems(w, r, rules[0]))] + more;
      assert parts[1..] == more;
    }
  }

  lemma OffersGive(w: World, ds: Dataset, r: Record)
    ensures RecordGives(w, ds, r, Offers(w, ds, r))
  {
    hide RulesGive, RulesCtxs;
    if ds.unwound { var parts := RulesCtxsGive(w, r, ds.rules); }
  }

  // ----- the filter -----------------------------------------------------------------------------------

  /** A filter passes what it makes neither null nor false. */
  predicate Passes(w: World, ds: Dataset, ctx: Ctx) {
    ds.filter.Some? ==> Eval(w.env, ds.filter.value, ctx) != LNull && Eval(w.env, ds.filter.value, ctx) != LBool(false)
  }

  /** `rows` are those of `all` at `places`, ascending: those that pass. */
  predicate Selects(w: World, ds: Dataset, all: seq<Ctx>, rows: seq<Ctx>, places: seq<nat>) {
    && |places| == |rows|
    && (forall k :: 0 <= k < |places| ==> places[k] < |all| && rows[k] == all[places[k]] && Passes(w, ds, rows[k]))
    && (forall k, l :: 0 <= k < l < |places| ==> places[k] < places[l])
    && forall i :: 0 <= i < |all| && i !in places ==> !Passes(w, ds, all[i])
  }

  lemma KeepsIsPasses(w: World, ds: Dataset, ctx: Ctx)
    ensures Keeps(w, ds, ctx) <==> Passes(w, ds, ctx)
  {
    hide Eval;
  }

  lemma {:induction false} KeptSelects(w: World, ds: Dataset, all: seq<Ctx>) returns (places: seq<nat>)
    ensures Selects(w, ds, all, KeptOf(w, ds, all), places)
    decreases |all|
  {
    hide Passes, Keeps;
    if all == [] {
      places := [];
    } else {
      var n := |all| - 1;
      var init := KeptSelects(w, ds, all[..n]);
      KeepsIsPasses(w, ds, all[n]);
      assert all == all[..n] + [all[n]];
      KeptOfConcat(w, ds, all[..n], [all[n]]);
      KeptOfOne(w, ds, all[n]);
      places := init + (if Keeps(w, ds, all[n]) then [n] else []);
      OneMoreSelected(w, ds, all, KeptOf(w, ds, all[..n]), init);
    }
  }

  lemma OneMoreSelected(w: World, ds: Dataset, all: seq<Ctx>, rows: seq<Ctx>, places: seq<nat>)
    requires all != [] && Selects(w, ds, all[..|all| - 1], rows, places)
    ensures var n := |all| - 1;
            if Passes(w, ds, all[n]) then Selects(w, ds, all, rows + [all[n]], places + [n])
            else Selects(w, ds, all, rows + [], places + [])
  {
    hide Passes;
    var n := |all| - 1;
    assert forall i :: 0 <= i < n ==> all[..n][i] == all[i];
    assert rows + [] == rows && places + [] == places;
    if Passes(w, ds, all[n]) {
      var more := places + [n];
      assert more[|places|] == n;
      forall i | 0 <= i < |all| && i !in more ensures !Passes(w, ds, all[i]) { assert i in places ==> i in more; }
    }
  }

  // ----- a whole scan -----------------------------------------------------------------------------------

  lemma {:induction false} KeptOfAll(w: World, ds: Dataset, rs: seq<Record>) returns (parts: seq<seq<Ctx>>)
    ensures |parts| == |rs| && forall i :: 0 <= i < |rs| ==> RecordGives(w, ds, rs[i], parts[i])
    ensures RowCtxs(w, ds, rs) == KeptOf(w, ds, Concat(parts))
  {
    hide RecordGives, Offers, KeptOf;
    if rs == [] {
      parts := [];
      NothingKept(w, ds);
    } else {
      var more := KeptOfAll(w, ds, rs[1..]);
      OffersGive(w, ds, rs[0]);
      parts := [Offers(w, ds, rs[0])] + more;
      assert parts[1..] == more;
      KeptOfConcat(w, ds, Offers(w, ds, rs[0]), Concat(more));
    }
  }

  /** The rows of a scan are, record after record and rule after rule, one for
      each element of the array the rule's path reaches, where its condition
      holds, but for those that the filter makes null or false. */
  lemma RowsAre(w: World, ds: Dataset, rs: seq<Record>) returns (parts: seq<seq<Ctx>>, places: seq<nat>)
    ensures |parts| == |rs| && forall i :: 0 <= i < |rs| ==> RecordGives(w, ds, rs[i], parts[i])
    ensures Selects(w, ds, Concat(parts), RowCtxs(w, ds, rs), places)
    ensures ds.filter.None? ==> RowCtxs(w, ds, rs) == Concat(parts)
  {
    hide RecordGives, RowCtxs, Selects, KeptOf;
    parts := KeptOfAll(w, ds, rs);
    places := KeptSelects(w, ds, Concat(parts));
    if ds.filter.None? { AllSelected(w, ds, Concat(parts), RowCtxs(w, ds, rs), places); }
  }

  lemma AllSelected(w: World, ds: Dataset, all: seq<Ctx>, rows: seq<Ctx>, places: seq<nat>)
    requires Selects(w, ds, all, rows, places) && ds.filter.None?
    ensures rows == all
  {
    forall i | 0 <= i < |all| ensures i in places {}
    if places != [] { PlacesGrow(places, |places| - 1); }
    EveryPlace(places, |all|);
  }

  lemma {:induction false} PlacesGrow(places: seq<nat>, k: nat)
    requires k < |places| && forall k, l :: 0 <= k < l < |places| ==> places[k] < places[l]
    ensures places[k] >= k
  {
    if k > 0 { PlacesGrow(places, k - 1); }
  }

  /** Ascending places that miss none are all the places in order. */
  lemma {:induction false} EveryPlace(places: seq<nat>, n: nat)
    requires forall k, l :: 0 <= k < l < |places| ==> places[k] < places[l]
    requires forall i :: 0 <= i < n ==> i in places
    requires |places| <= n && forall k :: 0 <= k < |places| ==> places[k] < n
    ensures |places| == n && forall k :: 0 <= k < n ==> places[k] == k
    decreases n
  {
    if n > 0 {
      var m := |places| - 1;
      assert n - 1 in places;
      var p :| 0 <= p < |places| && places[p] == n - 1;
      assert places[p] <= places[m] < n;
      var init := places[..m];
      forall i | 0 <= i < n - 1 ensures i in init {
        assert i in places;
        var k :| 0 <= k < |places| && places[k] == i;
        assert init[k] == i;
      }
      EveryPlace(init, n - 1);
    }
  }

  /** How many elements the array of a rule has, where its condition holds. */
  function Yield(w: World, r: Record, rule: Rule): nat {
    var ctx := Ctx(r.v, r.raw, None, None, w.task);
    if !Holds(w.env, rule.condition, ctx) then 0
    else match TextNode(ctx, rule.path)
      case Some(Ref(VArr(items), _)) => |items|
      case _ => 0
  }

  function YieldOf(w: World, rules: seq<Rule>, r: Record): nat {
    Sum(seq(|rules|, k requires 0 <= k < |rules| => Yield(w, r, rules[k])))
  }

  lemma PassingIsYield(w: World, ds: Dataset, r: Record, rule: Rule)
    requires ds.filter.None?
    ensures Passing(w, ds, r, rule) == Yield(w, r, rule)
  {
    hide Holds, TextNode;
    var items := RuleItems(w, r, rule);
    ElemCtxsGive(w, r, rule, items);
    var places := KeptSelects(w, ds, ElemCtxs(w, r, rule, items));
    AllSelected(w, ds, ElemCtxs(w, r, rule, items), KeptOf(w, ds, ElemCtxs(w, r, rule, items)), places);
  }

  lemma RecordYields(w: World, ds: Dataset, r: Record)
    requires ds.filter.None?
    ensures PassingOf(w, ds, r) == YieldOf(w, ds.rules, r)
  {
    hide Passing, Yield, Sum;
    var rules := ds.rules;
    forall k | 0 <= k < |rules| ensures Passing(w, ds, r, rules[k]) == Yield(w, r, rules[k]) {
      PassingIsYield(w, ds, r, rules[k]);
    }
    assert seq(|ds.rules|, k requires 0 <= k < |ds.rules| => Passing(w, ds, r, ds.rules[k]))
        == seq(|rules|, k requires 0 <= k < |rules| => Yield(w, r, rules[k]));
  }

  /** Without a filter an unwound dataset has as many rows as the arrays that its
      rules unwind have elements, over all records and rules. */
  lemma RowsAreElements(w: World, ds: Dataset, rs: seq<Record>)
    requires ds.unwound && ds.filter.None?
    ensures |RowCtxs(w, ds, rs)| == Sum(seq(|rs|, i requires 0 <= i < |rs| => YieldOf(w, ds.rules, rs[i])))
  {
    hide RowCtxs, Sum;
    UnwoundRowCount(w, ds, rs);
    forall i | 0 <= i < |rs| ensures PassingOf(w, ds, rs[i]) == YieldOf(w, ds.rules, rs[i]) {
      RecordYields(w, ds, rs[i]);
    }
    hide PassingOf, YieldOf;
    var rules := ds.rules;
    assert seq(|rs|, i requires 0 <= i < |rs| => PassingOf(w, ds, rs[i]))
        == seq(|rs|, i requires 0 <= i < |rs| => YieldOf(w, ds.rules, rs[i]));
  }

  /** A column of texts holds the text of the value, any other its cast. */
  predicate CellHolds(w: World, kind: ColKind, v: LazyVal, c: Cell) {
    && OfKind(c, kind)
    && if kind == StrKind then c == (match ScalarText(v) case None => CNull case Some(t) => CStr(t))
       else c == ToCell(w.env, v, kind)
  }

  lemma StoredHolds(w: World, kind: ColKind, v: LazyVal)
    ensures CellHolds(w, kind, v, Coerce(w.env, ToCell(w.env, v, kind), kind))
  {
    hide ToCell, Coerce, ScalarText;
    StoredCell(w.env, v, kind);
  }

  /** The cells a scan adds: in each column that of every row's value under the
      column's expression, cast to its kind; the join key as a text; and, when
      the rows are put together later, their texts and elements. */
  lemma CellsAre(w: World, ds: Dataset, rs: seq<Record>, i: nat)
    requires i < |RowCtxs(w, ds, rs)|
    ensures var a, ctx := Added(w, ds, RowCtxs(w, ds, rs)), RowCtxs(w, ds, rs)[i];
            && |a.cols| == (if ds.rowRoot then 0 else |ds.fields|)
            && (forall c :: 0 <= c < |a.cols| ==>
                  |a.cols[c]| == |RowCtxs(w, ds, rs)|
                  && CellHolds(w, ds.fields[c].kind, Eval(w.env, ds.fields[c].node, ctx), a.cols[c][i]))
            && (ds.leftKey.Some? ==>
                  i < |a.keys| && CellHolds(w, StrKind, Eval(w.env, ds.leftKey.value, ctx), a.keys[i]))
            && (ds.rowRoot ==> i < |a.rawRows| && i < |a.rawElems| && a.rawRows[i] == ctx.raw)
            && (ds.rowRoot && ctx.elem.Some? && ctx.alias.Some? ==>
                  a.rawElems[i] == Some((ctx.alias.value, w.env.rawText(ctx.elem.value))))
            && (ds.rowRoot && ctx.elem.None? ==> a.rawElems[i] == None)
  {
    hide Eval, ToCell, RowCtxs, Coerce, CellHolds;
    var a, ctx := Added(w, ds, RowCtxs(w, ds, rs)), RowCtxs(w, ds, rs)[i];
    forall c | 0 <= c < |a.cols|
      ensures CellHolds(w, ds.fields[c].kind, Eval(w.env, ds.fields[c].node, ctx), a.cols[c][i]) {
      StoredHolds(w, ds.fields[c].kind, Eval(w.env, ds.fields[c].node, ctx));
    }
    if ds.leftKey.Some? { StoredHolds(w, StrKind, Eval(w.env, ds.leftKey.value, ctx)); }
  }

  /** The records of a source are those of its texts that parse to something
      other than null, in order, each with its own text. */
  lemma {:induction false} ParsedAre(w: World, texts: seq<string>) returns (places: seq<nat>)
    ensures var rs := ParsedOf(w, texts);
            && |places| == |rs|
            && (forall k :: 0 <= k < |places| ==>
                  && places[k] < |texts| && rs[k].raw == texts[places[k]] && !rs[k].v.VNull?
                  && w.parse(texts[places[k]]) == Some(rs[k].v))
            && (forall k, l :: 0 <= k < l < |places| ==> places[k] < places[l])
            && forall i :: 0 <= i < |texts| && i !in places ==> w.parse(texts[i]) in {None, Some(VNull)}
    decreases |texts|
  {
    if texts == [] {
      places := [];
    } else {
      var n := |texts| - 1;
      places := ParsedAre(w, texts[..n]);
      assert texts == texts[..n] + [texts[n]];
      ParsedConcat(w, texts[..n], [texts[n]]);
      ParsedOne(w, texts[n]);
      hide ParsedOf;
      var v := w.parse(texts[n]);
      ghost var old' := places;
      if v.Some? && !v.value.VNull? {
        places := places + [n];
        assert places[|old'|] == n;
      }
      forall i | 0 <= i < |texts| && i !in places ensures w.parse(texts[i]) in {None, Some(VNull)} {
        assert i in old' ==> i in places;
        if i < n { assert texts[..n][i] == texts[i]; }
      }
    }
  }
}
