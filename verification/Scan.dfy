/** Scanning a source once for several datasets. */
module Scan {
  import opened Wrappers
  import opened Expr
  import opened Walk
  import opened Evaluation
  import opened Conditions
  import opened Columns
  import opened Scanner

  datatype Rule = Rule(name: string, condition: string, path: string, alias: string)

  // A dataset as the scan sees it: its compiled fields and their kinds, and
  // what selects its rows.  A row-root dataset evaluates its fields later.
  datatype Field = Field(node: Node, kind: ColKind)

  datatype Dataset = Dataset(
    unwound: bool, rules: seq<Rule>, filter: Option<Node>, rowRoot: bool, fields: seq<Field>, leftKey: Option<Node>)

  /** The fields evaluated while scanning. */
  function Local(ds: Dataset): seq<Field> { if ds.rowRoot then [] else ds.fields }

  // The parser is left uninterpreted.
  datatype World = World(env: Env, parse: string -> Option<Value>, task: Option<Value>)

  // What a dataset has accumulated.
  datatype Rows = Rows(cols: seq<seq<Cell>>, keys: seq<Cell>, rawRows: seq<string>,
      rawElems: seq<Option<(string, string)>>)

  // ----- specification --------------------------------------------------------------------------

  function AliasOf(rule: Rule): string { if rule.alias == "" then rule.name else rule.alias }

  function ElemCtx(w: World, r: Record, rule: Rule, elem: Value): Ctx {
    Ctx(r.v, r.raw, Some(elem), Some(AliasOf(rule)), w.task)
  }

  function ElemCtxs(w: World, r: Record, rule: Rule, items: seq<Value>): seq<Ctx> {
    if items == [] then [] else [ElemCtx(w, r, rule, items[0])] + ElemCtxs(w, r, rule, items[1..])
  }

  /** The elements a rule unwinds a record into, if its condition holds. */
  function RuleItems(w: World, r: Record, rule: Rule): seq<Value> {
    if !Holds(w.env, rule.condition, RecordCtx(r, w.task)) then []
    else match TextNode(RecordCtx(r, w.task), rule.path)
         case None => []
         case Some(node) => if node.v.VArr? then node.v.items else []
  }

  function RulesCtxs(w: World, r: Record, rules: seq<Rule>): seq<Ctx> {
    if rules == [] then []
    else ElemCtxs(w, r, rules[0], RuleItems(w, r, rules[0])) + RulesCtxs(w, r, rules[1..])
  }

  /** The contexts a record offers a dataset: itself, or its unwound elements. */
  function Offers(w: World, ds: Dataset, r: Record): seq<Ctx> {
    if ds.unwound then RulesCtxs(w, r, ds.rules) else [RecordCtx(r, w.task)]
  }

  predicate Keeps(w: World, ds: Dataset, ctx: Ctx) {
    ds.filter.None? || Truthy(Eval(w.env, ds.filter.value, ctx))
  }

  function KeptOf(w: World, ds: Dataset, ctxs: seq<Ctx>): seq<Ctx> {
    if ctxs == [] then []
    else (if Keeps(w, ds, ctxs[0]) then [ctxs[0]] else []) + KeptOf(w, ds, ctxs[1..])
  }

  /** The contexts that become rows of the dataset, record after record. */
  function RowCtxs(w: World, ds: Dataset, rs: seq<Record>): seq<Ctx> {
    if rs == [] then [] else KeptOf(w, ds, Offers(w, ds, rs[0])) + RowCtxs(w, ds, rs[1..])
  }

  /** A value is cast to the column's kind, and coerced again as it is pushed. */
  function CellOf(w: World, n: Node, kind: ColKind, ctx: Ctx): Cell {
    Coerce(w.env, ToCell(w.env, Eval(w.env, n, ctx), kind), kind)
  }

  function ColumnOf(w: World, n: Node, kind: ColKind, ctxs: seq<Ctx>): (r: seq<Cell>)
    ensures |r| == |ctxs|
  {
    seq(|ctxs|, i requires 0 <= i < |ctxs| => CellOf(w, n, kind, ctxs[i]))
  }

  function RawElem(w: World, ctx: Ctx): Option<(string, string)> {
    match ctx.elem
    case None => None
    case Some(e) => Some((match ctx.alias case Some(a) => a case None => "", w.env.rawText(e)))
  }

  /** A whole scan, column by column: each column is its expression over the row
      contexts. */
  function Added(w: World, ds: Dataset, ctxs: seq<Ctx>): (r: Rows)
    ensures |r.cols| == |Local(ds)|
  {
    Rows(
      seq(|Local(ds)|, c requires 0 <= c < |Local(ds)| => ColumnOf(w, Local(ds)[c].node, Local(ds)[c].kind, ctxs)),
      match ds.leftKey case None => [] case Some(n) => ColumnOf(w, n, StrKind, ctxs),
      if ds.rowRoot then seq(|ctxs|, i requires 0 <= i < |ctxs| => ctxs[i].raw) else [],
      if ds.rowRoot then seq(|ctxs|, i requires 0 <= i < |ctxs| => RawElem(w, ctxs[i])) else [])
  }

  function Plus(a: Rows, b: Rows): (r: Rows)
    ensures |r.cols| == |a.cols|
  {
    Rows(seq(|a.cols|, c requires 0 <= c < |a.cols| => if c < |b.cols| then a.cols[c] + b.cols[c] else a.cols[c]),
         a.keys + b.keys, a.rawRows + b.rawRows, a.rawElems + b.rawElems)
  }

  lemma ColumnConcat(w: World, n: Node, kind: ColKind, x: seq<Ctx>, y: seq<Ctx>)
    ensures ColumnOf(w, n, kind, x) + ColumnOf(w, n, kind, y) == ColumnOf(w, n, kind, x + y)
  {
    hide CellOf;
  }

  lemma RawConcat(w: World, ds: Dataset, x: seq<Ctx>, y: seq<Ctx>)
    ensures Added(w, ds, x).rawRows + Added(w, ds, y).rawRows == Added(w, ds, x + y).rawRows
    ensures Added(w, ds, x).rawElems + Added(w, ds, y).rawElems == Added(w, ds, x + y).rawElems
  {
    hide CellOf, RawElem, Local, ColumnOf;
  }

  lemma AddedConcat(w: World, ds: Dataset, x: seq<Ctx>, y: seq<Ctx>)
    ensures Plus(Added(w, ds, x), Added(w, ds, y)) == Added(w, ds, x + y)
  {
    hide Local, ColumnOf;
    var l, r := Plus(Added(w, ds, x), Added(w, ds, y)), Added(w, ds, x + y);
    forall c | 0 <= c < |Local(ds)| ensures l.cols[c] == r.cols[c] {
      ColumnConcat(w, Local(ds)[c].node, Local(ds)[c].kind, x, y);
    }
    assert l.cols == r.cols;
    if ds.leftKey.Some? { ColumnConcat(w, ds.leftKey.value, StrKind, x, y); }
    RawConcat(w, ds, x, y);
  }

  lemma PlusAssoc(a: Rows, b: Rows, c: Rows)
    requires |a.cols| == |b.cols| == |c.cols|
    ensures Plus(Plus(a, b), c) == Plus(a, Plus(b, c))
  {
    var l, r := Plus(Plus(a, b), c), Plus(a, Plus(b, c));
    forall i | 0 <= i < |a.cols| ensures l.cols[i] == r.cols[i] {}
    assert l.cols == r.cols;
  }

  lemma PlusTwice(w: World, ds: Dataset, a: Rows, x: seq<Ctx>, y: seq<Ctx>)
    requires |a.cols| == |Local(ds)|
    ensures Plus(Plus(a, Added(w, ds, x)), Added(w, ds, y)) == Plus(a, Added(w, ds, x + y))
  {
    hide Added, Plus;
    AddedConcat(w, ds, x, y);
    PlusAssoc(a, Added(w, ds, x), Added(w, ds, y));
  }

  lemma PlusNothing(w: World, ds: Dataset, a: Rows)
    requires |a.cols| == |Local(ds)|
    ensures Plus(a, Added(w, ds, [])) == a
  {
    hide Local;
    var r := Plus(a, Added(w, ds, []));
    forall i | 0 <= i < |a.cols| ensures r.cols[i] == a.cols[i] {}
    assert r.cols == a.cols;
    assert r.keys == a.keys && r.rawRows == a.rawRows && r.rawElems == a.rawElems;
  }

  /** The records of a document: the texts that parse to something other than null. */
  function ParsedOf(w: World, texts: seq<string>): seq<Record> {
    if texts == [] then []
    else (match w.parse(texts[0]) case Some(v) => if v.VNull? then [] else [Record(v, texts[0])] case None => [])
         + ParsedOf(w, texts[1..])
  }

  // ----- one dataset's accumulator ------------------------------------------------------------------

  class DatasetAcc {
    const ds: Dataset
    var selfCols: seq<seq<Cell>>
    var lkCol: seq<Cell>
    var rawRows: seq<string>
    var rawElems: seq<Option<(string, string)>>

    ghost predicate Valid()
      reads this
    {
      |selfCols| == |Local(ds)|
    }

    ghost function View(): Rows
      reads this
    {
      Rows(selfCols, lkCol, rawRows, rawElems)
    }

    constructor (d: Dataset)
      ensures Valid() && ds == d && View() == Rows(seq(|Local(d)|, _ => []), [], [], [])
    {
      ds := d;
      selfCols := seq(|Local(d)|, _ => []);
      lkCol, rawRows, rawElems := [], [], [];
    }

    method PushKey(w: World, ctx: Ctx)
      requires Valid()
      modifies `lkCol
      ensures lkCol == old(lkCol) + (match ds.leftKey case None => [] case Some(n) => [CellOf(w, n, StrKind, ctx)])
    {
      if ds.leftKey.Some? {
        var v := EvalNode(w.env, ds.leftKey.value, ctx);
        lkCol := lkCol + [Coerce(w.env, ToCell(w.env, v, StrKind), StrKind)];
      }
    }

    /** One row from one context. */
    method EvalRow(w: World, ctx: Ctx)
      requires Valid()
      modifies this
      ensures Valid() && View() == Plus(old(View()), Added(w, ds, [ctx]))
    {
      hide CellOf, Coerce, ToCell;
      ghost var before := View();
      if ds.rowRoot {
        rawRows := rawRows + [ctx.raw];
        if ctx.elem.Some? {
          var alias := match ctx.alias case Some(a) => a case None => "";
          rawElems := rawElems + [Some((alias, w.env.rawText(ctx.elem.value)))];
        } else {
          rawElems := rawElems + [None];
        }
        PushKey(w, ctx);
        RowIsAdded(w, ds, before, View(), ctx);
        return;
      }
      var local := ds.fields;
      for c := 0 to |local|
        invariant |selfCols| == |local|
        invariant lkCol == old(lkCol) && rawRows == old(rawRows) && rawElems == old(rawElems)
        invariant forall d :: 0 <= d < c ==>
            selfCols[d] == old(selfCols)[d] + [CellOf(w, local[d].node, local[d].kind, ctx)]
        invariant forall d :: c <= d < |local| ==> selfCols[d] == old(selfCols)[d]
      {
        var v := EvalNode(w.env, local[c].node, ctx);
        var cell := ToCell(w.env, v, local[c].kind);
        CellIs(w, local[c].node, local[c].kind, ctx);
        selfCols := selfCols[c := selfCols[c] + [Coerce(w.env, cell, local[c].kind)]];
      }
      PushKey(w, ctx);
      RowIsAdded(w, ds, before, View(), ctx);
    }

    method Keep(w: World, ctx: Ctx) returns (b: bool)
      ensures b == Keeps(w, ds, ctx)
    {
      if ds.filter.None? { return true; }
      var v := EvalNode(w.env, ds.filter.value, ctx);
      b := Truthy(v);
    }

    method EvalIfKept(w: World, ctx: Ctx)
      requires Valid()
      modifies this
      ensures Valid() && View() == Plus(old(View()), Added(w, ds, KeptOf(w, ds, [ctx])))
    {
      hide Keeps, Added, Plus;
      var keep := Keep(w, ctx);
      KeptOfOne(w, ds, ctx);
      if keep { EvalRow(w, ctx); } else { PlusNothing(w, ds, View()); }
    }

    /** The rows one unwind rule makes of a record. */
    method Unwind(w: World, r: Record, rule: Rule)
      requires Valid()
      modifies this
      ensures Valid() && View() ==
          Plus(old(View()), Added(w, ds, KeptOf(w, ds, ElemCtxs(w, r, rule, RuleItems(w, r, rule)))))
    {
      hide Keeps, Added, Plus, KeptOf, TextNode;
      NoRows(w, ds, View());
      var met := EvalCondition(w.env, rule.condition, RecordCtx(r, w.task));
      if !met { return; }
      var arr := ResolvePath(RecordCtx(r, w.task), rule.path);
      if arr.None? { return; }
      if !arr.value.v.VArr? { return; }
      var items := arr.value.v.items;
      assert items[..0] == [];
      for i := 0 to |items|
        invariant Valid() && View() == Plus(old(View()), Added(w, ds, KeptOf(w, ds, ElemCtxs(w, r, rule, items[..i]))))
      {
        var ctx := ElemCtx(w, r, rule, items[i]);
        ElemCtxsSnoc(w, r, rule, items, i);
        KeptOfConcat(w, ds, ElemCtxs(w, r, rule, items[..i]), [ctx]);
        PlusTwice(w, ds, old(View()), KeptOf(w, ds, ElemCtxs(w, r, rule, items[..i])), KeptOf(w, ds, [ctx]));
        EvalIfKept(w, ctx);
      }
      assert items[..|items|] == items;
    }

    /** What one record adds to the dataset. */
    method ScanRecord(w: World, r: Record)
      requires Valid()
      modifies this
      ensures Valid() && View() == Plus(old(View()), Added(w, ds, KeptOf(w, ds, Offers(w, ds, r))))
    {
      hide Keeps, Added, Plus, KeptOf, ElemCtxs, RuleItems;
      if ds.unwound {
        NoRows(w, ds, View());
        assert ds.rules[..0] == [];
        for k := 0 to |ds.rules|
          invariant Valid() && View() == Plus(old(View()), Added(w, ds, KeptOf(w, ds, RulesCtxs(w, r, ds.rules[..k]))))
        {
          var rule := ds.rules[k];
          ghost var done, more := RulesCtxs(w, r, ds.rules[..k]), ElemCtxs(w, r, rule, RuleItems(w, r, rule));
          RulesCtxsSnoc(w, r, ds.rules, k);
          KeptOfConcat(w, ds, done, more);
          PlusTwice(w, ds, old(View()), KeptOf(w, ds, done), KeptOf(w, ds, more));
          Unwind(w, r, rule);
        }
        assert ds.rules[..|ds.rules|] == ds.rules;
      } else {
        EvalIfKept(w, RecordCtx(r, w.task));
      }
    }
  }

  // ----- lemmas for the loops ---------------------------------------------------------------------------

  lemma CellIs(w: World, n: Node, kind: ColKind, ctx: Ctx)
    ensures CellOf(w, n, kind, ctx) == Coerce(w.env, ToCell(w.env, Eval(w.env, n, ctx), kind), kind)
  {}

  lemma RowIsAdded(w: World, ds: Dataset, a: Rows, b: Rows, ctx: Ctx)
    requires |a.cols| == |b.cols| == |Local(ds)|
    requires forall c :: 0 <= c < |Local(ds)| ==>
        b.cols[c] == a.cols[c] + [CellOf(w, Local(ds)[c].node, Local(ds)[c].kind, ctx)]
    requires b.keys == a.keys + (match ds.leftKey case None => [] case Some(n) => [CellOf(w, n, StrKind, ctx)])
    requires b.rawRows == a.rawRows + (if ds.rowRoot then [ctx.raw] else [])
    requires b.rawElems == a.rawElems + (if ds.rowRoot then [RawElem(w, ctx)] else [])
    ensures b == Plus(a, Added(w, ds, [ctx]))
  {
    hide CellOf, RawElem, Local;
    var r := Plus(a, Added(w, ds, [ctx]));
    forall c | 0 <= c < |a.cols| ensures r.cols[c] == b.cols[c] {}
    assert r.cols == b.cols;
    assert r.keys == b.keys;
    assert r.rawRows == b.rawRows;
    assert r.rawElems == b.rawElems;
  }

  lemma KeptOfOne(w: World, ds: Dataset, ctx: Ctx)
    ensures KeptOf(w, ds, [ctx]) == if Keeps(w, ds, ctx) then [ctx] else []
  {
    hide Keeps;
    assert [ctx][1..] == [];
  }

  lemma NoRows(w: World, ds: Dataset, a: Rows)
    requires |a.cols| == |Local(ds)|
    ensures Plus(a, Added(w, ds, KeptOf(w, ds, []))) == a
  {
    hide Added, Plus;
    PlusNothing(w, ds, a);
  }

  lemma {:induction false} KeptOfConcat(w: World, ds: Dataset, x: seq<Ctx>, y: seq<Ctx>)
    ensures KeptOf(w, ds, x + y) == KeptOf(w, ds, x) + KeptOf(w, ds, y)
  {
    hide Keeps;
    if x == [] {
      assert x + y == y;
    } else {
      assert (x + y)[1..] == x[1..] + y;
      KeptOfConcat(w, ds, x[1..], y);
    }
  }

  lemma {:induction false} ElemCtxsSnoc(w: World, r: Record, rule: Rule, items: seq<Value>, n: nat)
    requires n < |items|
    ensures ElemCtxs(w, r, rule, items[..n + 1]) == ElemCtxs(w, r, rule, items[..n]) + [ElemCtx(w, r, rule, items[n])]
    decreases n
  {
    hide ElemCtx;
    var one := [ElemCtx(w, r, rule, items[n])];
    if n == 0 {
      assert items[..1][1..] == [] && items[..0] == [] && one + [] == one;
    } else {
      var a, b := items[..n + 1], items[..n];
      assert a[1..] == items[1..][..n] && b[1..] == items[1..][..n - 1];
      ElemCtxsSnoc(w, r, rule, items[1..], n - 1);
    }
  }

  lemma {:induction false} RulesCtxsSnoc(w: World, r: Record, rules: seq<Rule>, n: nat)
    requires n < |rules|
    ensures RulesCtxs(w, r, rules[..n + 1])
         == RulesCtxs(w, r, rules[..n]) + ElemCtxs(w, r, rules[n], RuleItems(w, r, rules[n]))
    decreases n
  {
    hide ElemCtxs, RuleItems;
    var one := ElemCtxs(w, r, rules[n], RuleItems(w, r, rules[n]));
    if n == 0 {
      assert rules[..1][1..] == [] && rules[..0] == [] && one + [] == one;
    } else {
      var a, b := rules[..n + 1], rules[..n];
      assert a[1..] == rules[1..][..n] && b[1..] == rules[1..][..n - 1];
      RulesCtxsSnoc(w, r, rules[1..], n - 1);
    }
  }

  lemma {:induction false} RowCtxsConcat(w: World, ds: Dataset, x: seq<Record>, y: seq<Record>)
    ensures RowCtxs(w, ds, x + y) == RowCtxs(w, ds, x) + RowCtxs(w, ds, y)
  {
    hide KeptOf, Offers;
    if x == [] {
      assert x + y == y;
    } else {
      assert (x + y)[1..] == x[1..] + y;
      RowCtxsConcat(w, ds, x[1..], y);
    }
  }

  lemma RowCtxsOne(w: World, ds: Dataset, r: Record)
    ensures RowCtxs(w, ds, [r]) == KeptOf(w, ds, Offers(w, ds, r))
  {
    hide KeptOf, Offers;
    assert [r][1..] == [];
    assert KeptOf(w, ds, Offers(w, ds, r)) + [] == KeptOf(w, ds, Offers(w, ds, r));
  }

  // ----- the fused scan -----------------------------------------------------------------------------------

  /** The rows after a scan of `rs` that started from `a`. */
  function After(w: World, ds: Dataset, a: Rows, rs: seq<Record>): Rows { Plus(a, Added(w, ds, RowCtxs(w, ds, rs))) }

  /** One record for every dataset of the group. */
  method ScanForAll(w: World, accs: seq<DatasetAcc>, r: Record)
    requires forall i, j :: 0 <= i < j < |accs| ==> accs[i] != accs[j]
    requires forall i :: 0 <= i < |accs| ==> accs[i].Valid()
    modifies accs
    ensures forall i :: 0 <= i < |accs| ==> accs[i].Valid()
    ensures forall i :: 0 <= i < |accs| ==>
              accs[i].View() == After(w, accs[i].ds, old(accs[i].View()), [r])
  {
    hide After, Added, KeptOf, Offers;
    for n := 0 to |accs|
      invariant forall i :: 0 <= i < |accs| ==> accs[i].Valid()
      invariant forall i :: 0 <= i < n ==>
                  accs[i].View() == After(w, accs[i].ds, old(accs[i].View()), [r])
      invariant forall i :: n <= i < |accs| ==> accs[i].View() == old(accs[i].View())
    {
      AfterOne(w, accs[n].ds, accs[n].View(), r);
      accs[n].ScanRecord(w, r);
    }
  }

  /** One text cut from the document; texts that do not parse, and nulls, are skipped. */
  method ScanText(w: World, accs: seq<DatasetAcc>, slice: string)
    requires forall i, j :: 0 <= i < j < |accs| ==> accs[i] != accs[j]
    requires forall i :: 0 <= i < |accs| ==> accs[i].Valid()
    modifies accs
    ensures forall i :: 0 <= i < |accs| ==> accs[i].Valid()
    ensures forall i :: 0 <= i < |accs| ==>
        accs[i].View() == After(w, accs[i].ds, old(accs[i].View()), ParsedOf(w, [slice]))
  {
    hide After;
    var v := w.parse(slice);
    ParsedOne(w, slice);
    if v.None? || v.value.VNull? {
      forall i | 0 <= i < |accs| ensures After(w, accs[i].ds, accs[i].View(), []) == accs[i].View() {
        NothingYet(w, accs[i].ds, accs[i].View());
      }
      return;
    }
    ScanForAll(w, accs, Record(v.value, slice));
  }

  /** From `starts` on, every dataset has what the texts add to it. */
  ghost predicate AllAfter(w: World, accs: seq<DatasetAcc>, starts: seq<Rows>, texts: seq<string>)
    requires |starts| == |accs|
    reads accs
  {
    forall i :: 0 <= i < |accs| ==>
      accs[i].Valid() && |starts[i].cols| == |Local(accs[i].ds)|
      && accs[i].View() == After(w, accs[i].ds, starts[i], ParsedOf(w, texts))
  }

  method ScanNext(w: World, accs: seq<DatasetAcc>, slice: string, ghost starts: seq<Rows>, ghost done: seq<string>)
    requires forall i, j :: 0 <= i < j < |accs| ==> accs[i] != accs[j]
    requires |starts| == |accs| && AllAfter(w, accs, starts, done)
    modifies accs
    ensures AllAfter(w, accs, starts, done + [slice])
  {
    hide After, ParsedOf, Local;
    ScanText(w, accs, slice);
    forall i | 0 <= i < |accs|
      ensures accs[i].View() == After(w, accs[i].ds, starts[i], ParsedOf(w, done + [slice])) {
      OneMoreText(w, accs[i].ds, starts[i], done, slice);
    }
  }

  /** One pass over the text leaves every dataset with exactly what scanning
      the text for it alone would have added. */
  method ScanGroup(w: World, accs: seq<DatasetAcc>, text: string)
    requires forall i, j :: 0 <= i < j < |accs| ==> accs[i] != accs[j]
    requires forall i :: 0 <= i < |accs| ==> accs[i].Valid()
    modifies accs
    ensures forall i :: 0 <= i < |accs| ==> accs[i].Valid()
    ensures forall i :: 0 <= i < |accs| ==>
              accs[i].View() == After(w, accs[i].ds, old(accs[i].View()), ParsedOf(w, Records(text)))
  {
    hide After, ParsedOf, NextRecord, Records;
    var scanner := new RecordScanner(text);
    ghost var starts := seq(|accs|, i requires 0 <= i < |accs| reads accs => accs[i].View());
    ghost var done: seq<string> := [];
    NoTextsParsed(w);
    forall i | 0 <= i < |accs| ensures accs[i].View() == After(w, accs[i].ds, starts[i], []) {
      NothingYet(w, accs[i].ds, starts[i]);
    }
    assert AllAfter(w, accs, starts, done);
    hide AllAfter;
    var more := true;
    while more
      invariant fresh(scanner) && scanner.Valid() && scanner.done == !more
      invariant Records(text) == done + (if more then Records(scanner.Rest()) else [])
      invariant AllAfter(w, accs, starts, done)
      decreases |scanner.text| - scanner.i, more
    {
      RecordsStep(scanner.Rest());
      var slice := scanner.Next();
      if slice.None? {
        more := false;
      } else {
        ScanNext(w, accs, slice.value, starts, done);
        done := done + [slice.value];
      }
    }
    assert done == Records(text);
    assert AllAfter(w, accs, starts, Records(text));
    AfterEach(w, accs, starts, Records(text));
  }

  lemma AfterEach(w: World, accs: seq<DatasetAcc>, starts: seq<Rows>, texts: seq<string>)
    requires |starts| == |accs| && AllAfter(w, accs, starts, texts)
    ensures forall i :: 0 <= i < |accs| ==>
              accs[i].Valid() && accs[i].View() == After(w, accs[i].ds, starts[i], ParsedOf(w, texts))
  {
    hide After, ParsedOf;
  }

  lemma NoTextsParsed(w: World)
    ensures ParsedOf(w, []) == []
  {}

  lemma ParsedOne(w: World, text: string)
    ensures ParsedOf(w, [text])
         == (match w.parse(text) case Some(v) => if v.VNull? then [] else [Record(v, text)] case None => [])
  {
    assert [text][1..] == [];
  }

  lemma {:induction false} ParsedConcat(w: World, x: seq<string>, y: seq<string>)
    ensures ParsedOf(w, x + y) == ParsedOf(w, x) + ParsedOf(w, y)
  {
    if x == [] {
      assert x + y == y;
    } else {
      assert (x + y)[1..] == x[1..] + y;
      ParsedConcat(w, x[1..], y);
    }
  }

  lemma AfterOne(w: World, ds: Dataset, a: Rows, r: Record)
    ensures After(w, ds, a, [r]) == Plus(a, Added(w, ds, KeptOf(w, ds, Offers(w, ds, r))))
  {
    hide Added, Plus, KeptOf, Offers;
    RowCtxsOne(w, ds, r);
  }

  lemma NothingYet(w: World, ds: Dataset, a: Rows)
    requires |a.cols| == |Local(ds)|
    ensures After(w, ds, a, []) == a
  {
    hide Added, Plus;
    PlusNothing(w, ds, a);
  }

  lemma OneMore(w: World, ds: Dataset, a: Rows, x: seq<Record>, y: seq<Record>)
    requires |a.cols| == |Local(ds)|
    ensures After(w, ds, After(w, ds, a, x), y) == After(w, ds, a, x + y)
  {
    hide Added, Plus, RowCtxs;
    PlusTwice(w, ds, a, RowCtxs(w, ds, x), RowCtxs(w, ds, y));
    RowCtxsConcat(w, ds, x, y);
  }

  lemma OneMoreText(w: World, ds: Dataset, a: Rows, done: seq<string>, text: string)
    requires |a.cols| == |Local(ds)|
    ensures After(w, ds, After(w, ds, a, ParsedOf(w, done)), ParsedOf(w, [text]))
         == After(w, ds, a, ParsedOf(w, done + [text]))
  {
    hide After, ParsedOf, Local;
    OneMore(w, ds, a, ParsedOf(w, done), ParsedOf(w, [text]));
    ParsedConcat(w, done, [text]);
  }

  lemma RecordsStep(s: string)
    ensures var (rec, rest) := NextRecord(s);
            Records(s) == if rec.None? then [] else [rec.value] + Records(rest)
  {
    hide NextRecord;
  }

  // ----- what a scan yields -------------------------------------------------------------------------------

  /** All columns, the join keys and the raw rows are as long as there are rows. */
  predicate Even(ds: Dataset, a: Rows, n: nat) {
    && |a.cols| == |Local(ds)| && (forall c :: 0 <= c < |a.cols| ==> |a.cols[c]| == n)
    && |a.keys| == (if ds.leftKey.Some? then n else 0)
    && |a.rawRows| == |a.rawElems| == (if ds.rowRoot then n else 0)
  }

  /** A scan keeps all columns of a dataset equal in length, one row longer for
      each context that passes the filter. */
  lemma ScanKeepsEven(w: World, ds: Dataset, a: Rows, n: nat, rs: seq<Record>)
    requires Even(ds, a, n)
    ensures Even(ds, After(w, ds, a, rs), n + |RowCtxs(w, ds, rs)|)
  {
    hide RowCtxs, CellOf, RawElem, Local;
    var r := After(w, ds, a, rs);
    var m := n + |RowCtxs(w, ds, rs)|;
    forall c | 0 <= c < |r.cols| ensures |r.cols[c]| == m {}
  }

  function Sum(ns: seq<nat>): nat { if ns == [] then 0 else ns[0] + Sum(ns[1..]) }

  /** How many elements of a record's rule pass the filter. */
  function Passing(w: World, ds: Dataset, r: Record, rule: Rule): nat {
    |KeptOf(w, ds, ElemCtxs(w, r, rule, RuleItems(w, r, rule)))|
  }

  function PassingOf(w: World, ds: Dataset, r: Record): nat {
    Sum(seq(|ds.rules|, k requires 0 <= k < |ds.rules| => Passing(w, ds, r, ds.rules[k])))
  }

  lemma {:induction false} RulesPass(w: World, ds: Dataset, r: Record, k: nat)
    requires k <= |ds.rules|
    ensures |KeptOf(w, ds, RulesCtxs(w, r, ds.rules[k..]))|
         == Sum(seq(|ds.rules|, i requires 0 <= i < |ds.rules| => Passing(w, ds, r, ds.rules[i]))[k..])
    decreases |ds.rules| - k
  {
    var all := seq(|ds.rules|, i requires 0 <= i < |ds.rules| => Passing(w, ds, r, ds.rules[i]));
    hide KeptOf, ElemCtxs, RuleItems;
    if k == |ds.rules| {
      assert all[k..] == [];
      NothingKept(w, ds);
    } else {
      RulesPass(w, ds, r, k + 1);
      var rules := ds.rules[k..];
      assert rules[1..] == ds.rules[k + 1..] && all[k..][1..] == all[k + 1..];
      KeptOfConcat(w, ds, ElemCtxs(w, r, rules[0], RuleItems(w, r, rules[0])), RulesCtxs(w, r, rules[1..]));
    }
  }

  lemma NothingKept(w: World, ds: Dataset)
    ensures KeptOf(w, ds, []) == []
  {}

  /** An unwound dataset gets, over records and rules, one row for each element
      that passes the filter. */
  lemma {:induction false} UnwoundRowCount(w: World, ds: Dataset, rs: seq<Record>)
    requires ds.unwound
    ensures |RowCtxs(w, ds, rs)| == Sum(seq(|rs|, i requires 0 <= i < |rs| => PassingOf(w, ds, rs[i])))
    decreases |rs|
  {
    var all := seq(|rs|, i requires 0 <= i < |rs| => PassingOf(w, ds, rs[i]));
    hide PassingOf, KeptOf, RulesCtxs;
    if rs == [] {
      assert all == [];
    } else {
      UnwoundRowCount(w, ds, rs[1..]);
      CountsRest(w, ds, rs);
      RecordPasses(w, ds, rs[0]);
      assert Offers(w, ds, rs[0]) == RulesCtxs(w, rs[0], ds.rules);
    }
  }

  lemma CountsRest(w: World, ds: Dataset, rs: seq<Record>)
    requires rs != []
    ensures seq(|rs|, i requires 0 <= i < |rs| => PassingOf(w, ds, rs[i]))[1..]
         == seq(|rs[1..]|, i requires 0 <= i < |rs[1..]| => PassingOf(w, ds, rs[1..][i]))
  {
    hide PassingOf;
  }

  lemma RecordPasses(w: World, ds: Dataset, r: Record)
    ensures |KeptOf(w, ds, RulesCtxs(w, r, ds.rules))| == PassingOf(w, ds, r)
  {
    hide KeptOf, RulesCtxs;
    RulesPass(w, ds, r, 0);
    assert ds.rules[0..] == ds.rules;
    var all := seq(|ds.rules|, i requires 0 <= i < |ds.rules| => Passing(w, ds, r, ds.rules[i]));
    assert all[0..] == all;
  }
}
