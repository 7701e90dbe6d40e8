/** What a value is as text, as JSON and under a cast, told by the node that a
    path reaches. */
module ValueTheorems {
  import opened Wrappers
  import opened Text
  import opened Expr
  import opened Walk
  import opened Evaluation
  import opened Json
  import opened Conditions
  import opened ConditionTheorems

  // ----- texts of nodes ----------------------------------------------------------------------------

  /** Digits without a leading zero that read back to the number. */
  predicate Numeral(s: string, n: nat) { DigitsValue(s) == Some(n) && s != "" && (|s| == 1 || s[0] != '0') }

  /** A numeral, after a minus sign if the integer is negative. */
  predicate ReadsAs(s: string, i: int) {
    if i < 0 then s != "" && s[0] == '-' && Numeral(s[1..], -i) else Numeral(s, i)
  }

  lemma {:induction false} NoLeadingZero(n: nat)
    requires n > 0
    ensures Decimal(n)[0] != '0'
  {
    if n >= 10 { NoLeadingZero(n / 10); }
  }

  lemma DecimalReads(i: int)
    ensures ReadsAs(DecimalInt(i), i)
  {
    var n := if i < 0 then -i else i;
    DigitsOfDecimal(n);
    if n > 0 { NoLeadingZero(n); }
    if i < 0 { assert DecimalInt(i)[1..] == Decimal(-i); }
  }

  /** The text of a node that is not null. */
  predicate TextIs(env: Env, ctx: Ctx, r: Ref, s: string) {
    match r.v
    case VNull => false
    case VBool(b) => s == if b then "true" else "false"
    case VInt(i) => ReadsAs(s, i)
    case VFloat(text) => s == text
    case VStr(x) => s == x
    case _ => s == if r.root then ctx.raw else env.rawText(r.v)
  }

  /** Its JSON: null spelled out, a string in quotes and otherwise as it is. */
  predicate JsonIs(env: Env, ctx: Ctx, r: Ref, s: string) {
    match r.v
    case VNull => s == "null"
    case VStr(x) => s == "\"" + x + "\""
    case _ => TextIs(env, ctx, r, s)
  }

  lemma ScalarIs(env: Env, ctx: Ctx, r: Ref)
    ensures match ScalarText(ToLazy(env, ctx, r)) case None => r.v.VNull? case Some(s) => TextIs(env, ctx, r, s)
  {
    hide DecimalInt, ReadsAs;
    if r.v.VInt? { DecimalReads(r.v.i); }
  }

  lemma JsonOfNode(env: Env, ctx: Ctx, r: Ref)
    ensures JsonIs(env, ctx, r, JsonOf(ToLazy(env, ctx, r)))
  {
    hide DecimalInt, ReadsAs;
    if r.v.VInt? { DecimalReads(r.v.i); }
  }

  predicate IsPath(n: Node) { n.Path? || n.Task? }

  /** The nodes a path of the record or of the task reaches. */
  function Reached(ctx: Ctx, n: Node): seq<Ref>
    requires IsPath(n)
  {
    if n.Task? then TaskNodes(ctx, n.segs) else PathNodes(ctx, n.segs)
  }

  /** `to_json_string` of a path is the JSON of the first node it reaches, and
      `null` if there is none; of the record it is the record's own text. */
  lemma PathToJson(env: Env, ctx: Ctx, n: Node)
    requires IsPath(n)
    ensures var v, nodes := Eval(env, ToJson(n), ctx), Reached(ctx, n);
            v.LStr? && if nodes == [] then v.s == "null" else JsonIs(env, ctx, nodes[0], v.s)
    ensures Eval(env, ToJson(Root), ctx) == LStr(ctx.raw)
  {
    hide TaskNodes, PathNodes, JsonOf, ToLazy, JsonIs;
    var nodes := Reached(ctx, n);
    if nodes != [] { JsonOfNode(env, ctx, nodes[0]); }
    PlainJson(ctx.raw);
  }

  lemma PlainJson(raw: string)
    ensures JsonOf(LNull) == "null" && JsonOf(LRaw(raw)) == raw
  {}

  // ----- JSON that reads back --------------------------------------------------------------------------

  /** A JSON parser that undoes the serializer, and knows the record. */
  ghost predicate ReadsJson(parse: string -> Option<Value>, env: Env, ctx: Ctx) {
    && parse("null") == Some(VNull) && parse("true") == Some(VBool(true)) && parse("false") == Some(VBool(false))
    && (forall s, i :: ReadsAs(s, i) ==> parse(s) == Some(VInt(i)))
    && (forall q, x :: parse("\"" + q) == Some(VStr(x)) <==> ReadString(q) == Some((x, "")))
    && (forall v: Value :: v.VArr? || v.VObj? ==> parse(env.rawText(v)) == Some(v))
    && parse(ctx.raw) == Some(ctx.base)
  }

  ghost predicate RootsAreBase(ctx: Ctx, nodes: seq<Ref>) {
    forall i :: 0 <= i < |nodes| && nodes[i].root ==> nodes[i].v == ctx.base
  }

  lemma {:induction false} FanIsBelow(ctx: Ctx, nodes: seq<Ref>, g: Seg)
    ensures RootsAreBase(ctx, Fan(nodes, g))
  {
    hide Elems;
    if nodes != [] {
      FanIsBelow(ctx, nodes[1..], g);
      if nodes[0].v.VArr? { ElemsAt(nodes[0].v.items); }
    }
  }

  lemma {:induction false} CollectRoots(ctx: Ctx, nodes: seq<Ref>, segs: seq<Seg>)
    requires RootsAreBase(ctx, nodes)
    ensures RootsAreBase(ctx, Collect(nodes, segs))
    decreases |segs|
  {
    hide Fan, RootsAreBase;
    if segs != [] {
      FanIsBelow(ctx, nodes, segs[0]);
      CollectRoots(ctx, Fan(nodes, segs[0]), segs[1..]);
    }
  }

  lemma ReachedRoots(ctx: Ctx, n: Node)
    requires IsPath(n)
    ensures RootsAreBase(ctx, Reached(ctx, n))
  {
    hide Collect;
    if n.Path? {
      CollectRoots(ctx, [Base(ctx)], n.segs);
      if n.segs != [] { CollectRoots(ctx, [Overlay(ctx)], n.segs[1..]); }
    } else if ctx.task.Some? {
      CollectRoots(ctx, [Ref(ctx.task.value, false)], n.segs);
    }
  }

  lemma NodeReadsBack(parse: string -> Option<Value>, env: Env, ctx: Ctx, r: Ref, s: string)
    requires ReadsJson(parse, env, ctx) && JsonIs(env, ctx, r, s)
    requires (r.root ==> r.v == ctx.base) && (r.v.VFloat? ==> parse(r.v.text) == Some(r.v))
    ensures parse(s) == Some(r.v) <==> (r.v.VStr? ==> IsPlain(r.v.s))
  {
    hide ReadString, IsPlain, ReadsAs;
    if r.v.VStr? {
      RawQuoteIsJsonIffPlain(r.v.s);
      var q := r.v.s + "\"";
      assert QuoteRaw(r.v.s)[1..] == q;
      assert s == "\"" + q;
    }
  }

  /** For a parser that undoes the serializer, parsing the JSON of a path gives
      the first node it reaches back exactly unless that is a string with a
      quote, a backslash or a control character in it. */
  lemma JsonReadsBack(parse: string -> Option<Value>, env: Env, ctx: Ctx, n: Node)
    requires IsPath(n) && Reached(ctx, n) != [] && ReadsJson(parse, env, ctx)
    requires var v := Reached(ctx, n)[0].v; v.VFloat? ==> parse(v.text) == Some(v)
    ensures var v, t := Reached(ctx, n)[0].v, Eval(env, ToJson(n), ctx);
            t.LStr? && (parse(t.s) == Some(v) <==> (v.VStr? ==> IsPlain(v.s)))
  {
    hide Reached, JsonIs, IsPlain, ReadsJson, Eval;
    PathToJson(env, ctx, n);
    ReachedRoots(ctx, n);
    NodeReadsBack(parse, env, ctx, Reached(ctx, n)[0], Eval(env, ToJson(n), ctx).s);
  }

  // ----- operand lists and membership --------------------------------------------------------------------

  /** `part` holds the texts of the items at `rows`, ascending: of all that are not null. */
  predicate ItemsGive(env: Env, ctx: Ctx, items: seq<Value>, part: seq<string>, rows: seq<nat>) {
    && |rows| == |part|
    && (forall k :: 0 <= k < |rows| ==>
          rows[k] < |items| && TextIs(env, ctx, Ref(items[rows[k]], false), part[k]))
    && (forall k, l :: 0 <= k < l < |rows| ==> rows[k] < rows[l])
    && forall i :: 0 <= i < |items| && i !in rows ==> items[i].VNull?
  }

  /** What one node gives an operand list: an array its elements, null nothing. */
  ghost predicate NodeGives(env: Env, ctx: Ctx, r: Ref, part: seq<string>) {
    if r.v.VArr? then exists rows :: ItemsGive(env, ctx, r.v.items, part, rows)
    else if r.v.VNull? then part == []
    else |part| == 1 && TextIs(env, ctx, r, part[0])
  }

  lemma {:induction false} ItemTextsGive(env: Env, ctx: Ctx, items: seq<Value>) returns (rows: seq<nat>)
    ensures ItemsGive(env, ctx, items, ItemTexts(env, ctx, items), rows)
    decreases |items|
  {
    if items == [] {
      rows := [];
    } else {
      var n := |items| - 1;
      var init := ItemTextsGive(env, ctx, items[..n]);
      ItemTextsSnoc(env, ctx, items, n);
      assert items[..n + 1] == items;
      var r := Ref(items[n], false);
      ScalarIs(env, ctx, r);
      var one := OptList(ScalarText(ToLazy(env, ctx, r)));
      rows := init + (if one == [] then [] else [n]);
      OneMoreItem(env, ctx, items, ItemTexts(env, ctx, items[..n]), init, one);
    }
  }

  lemma OneMoreItem(env: Env, ctx: Ctx, items: seq<Value>, part: seq<string>, rows: seq<nat>, one: seq<string>)
    requires items != [] && ItemsGive(env, ctx, items[..|items| - 1], part, rows)
    requires var n := |items| - 1;
             && (one == [] ==> items[n].VNull?)
             && (one != [] ==> |one| == 1 && TextIs(env, ctx, Ref(items[n], false), one[0]))
    ensures ItemsGive(env, ctx, items, part + one, rows + (if one == [] then [] else [|items| - 1]))
  {
    hide TextIs;
    var n := |items| - 1;
    var all := rows + (if one == [] then [] else [n]);
    assert forall i :: 0 <= i < n ==> items[..n][i] == items[i];
    assert one != [] ==> all[|rows|] == n;
    forall i | 0 <= i < |items| && i !in all ensures items[i].VNull? { assert i in rows ==> i in all; }
  }

  lemma TextsGive(env: Env, ctx: Ctx, r: Ref)
    ensures NodeGives(env, ctx, r, Texts(env, ctx, r))
  {
    hide ItemTexts, ItemsGive, ToLazy, ScalarText, TextIs;
    if r.v.VArr? {
      var rows := ItemTextsGive(env, ctx, r.v.items);
    } else {
      ScalarIs(env, ctx, r);
      NullText(env, ctx, r);
    }
  }

  lemma NullText(env: Env, ctx: Ctx, r: Ref)
    ensures r.v.VNull? <==> ScalarText(ToLazy(env, ctx, r)).None?
  {}

  function Concat(parts: seq<seq<string>>): seq<string> { if parts == [] then [] else parts[0] + Concat(parts[1..]) }

  ghost predicate NodesGive(env: Env, ctx: Ctx, nodes: seq<Ref>, texts: seq<string>) {
    exists parts :: PartsGive(env, ctx, nodes, parts) && texts == Concat(parts)
  }

  ghost predicate PartsGive(env: Env, ctx: Ctx, nodes: seq<Ref>, parts: seq<seq<string>>) {
    |parts| == |nodes| && forall k :: 0 <= k < |nodes| ==> NodeGives(env, ctx, nodes[k], parts[k])
  }

  lemma {:induction false} AllTextsGive(env: Env, ctx: Ctx, nodes: seq<Ref>)
    ensures NodesGive(env, ctx, nodes, AllTexts(env, ctx, nodes))
  {
    hide Texts, NodeGives;
    if nodes == [] {
      assert PartsGive(env, ctx, nodes, []);
    } else {
      AllTextsGive(env, ctx, nodes[1..]);
      var parts :| PartsGive(env, ctx, nodes[1..], parts) && AllTexts(env, ctx, nodes[1..]) == Concat(parts);
      TextsGive(env, ctx, nodes[0]);
      var all := [Texts(env, ctx, nodes[0])] + parts;
      assert all[1..] == parts;
      assert PartsGive(env, ctx, nodes, all);
    }
  }

  /** A path as an operand list: node after node, the texts of what it reaches;
      and the record as one: what the record itself gives. */
  lemma PathGives(env: Env, ctx: Ctx, n: Node)
    requires IsPath(n)
    ensures NodesGive(env, ctx, Reached(ctx, n), EvalVec(env, n, ctx))
    ensures NodeGives(env, ctx, Base(ctx), EvalVec(env, Root, ctx))
  {
    hide AllTexts, NodesGive, NodeGives, TaskNodes, PathNodes, Texts;
    AllTextsGive(env, ctx, Reached(ctx, n));
    TextsGive(env, ctx, Base(ctx));
  }

  /** `L IN R` for a path L: false without a node or with a null, and otherwise
      whether the text of the first node is in the list of R. */
  lemma PathIn(env: Env, ctx: Ctx, l: Node, r: Node)
    requires IsPath(l)
    ensures var v, nodes := Eval(env, In(l, r), ctx), Reached(ctx, l);
            && v.LBool?
            && if nodes == [] || nodes[0].v.VNull? then !v.b
               else exists s :: TextIs(env, ctx, nodes[0], s) && (v.b <==> s in EvalVec(env, r, ctx))
  {
    hide TaskNodes, PathNodes, EvalVec, ToLazy, ScalarText, TextIs;
    var nodes := Reached(ctx, l);
    NullHasNoText(LNull);
    if nodes != [] {
      ScalarIs(env, ctx, nodes[0]);
      NullText(env, ctx, nodes[0]);
    }
  }

  // ----- casts -----------------------------------------------------------------------------------------

  const TWO64: int := 0x1_0000_0000_0000_0000

  /** The integer a node casts to: an integer is itself, or wraps around at 64
      bits; a boolean is 0 or 1; a text is read. */
  predicate IntegerOf(env: Env, ctx: Ctx, r: Ref, v: LazyVal) {
    match r.v
    case VInt(i) =>
      v.LI64? && InI64(v.i) && (v.i - i) % TWO64 == 0
    case VBool(b) => v == LI64(if b then 1 else 0)
    case VFloat(text) => v == LI64(env.truncate(text))
    case VStr(s) => ReadInteger(s, v)
    case _ => ReadInteger(if r.root then ctx.raw else env.rawText(r.v), v)
  }

  predicate ReadInteger(s: string, v: LazyVal) {
    match ParseI64(Trim(s)) case Some(i) => v == LI64(i) case None => v == LNull
  }

  predicate FloatOf(env: Env, ctx: Ctx, r: Ref, v: LazyVal) {
    match r.v
    case VInt(i) => v == LF64(env.floatOfInt(i))
    case VBool(b) => v == LF64(env.floatOfInt(if b then 1 else 0))
    case VFloat(text) => v == LF64(text)
    case VStr(s) => ReadFloat(env, s, v)
    case _ => ReadFloat(env, if r.root then ctx.raw else env.rawText(r.v), v)
  }

  predicate ReadFloat(env: Env, s: string, v: LazyVal) {
    match env.parseFloat(Trim(s)) case Some(f) => v == LF64(f) case None => v == LNull
  }

  predicate CastIs(env: Env, ctx: Ctx, r: Ref, kind: ColKind, v: LazyVal) {
    if r.v.VNull? then v == LNull
    else match kind
      case StrKind => if r.v.VInt? && InI64(r.v.i) then v == LI64(r.v.i) else v.LStr? && TextIs(env, ctx, r, v.s)
      case I64Kind => IntegerOf(env, ctx, r, v)
      case F64Kind => FloatOf(env, ctx, r, v)
      case BoolKind => true
  }

  lemma WrapIs(i: int)
    requires -I64_MAX - 1 <= i < TWO64
    ensures InI64(Wrap64(i)) && (Wrap64(i) - i) % TWO64 == 0
  {}

  lemma NodeCast(env: Env, ctx: Ctx, r: Ref, kind: ColKind)
    requires r.v.VInt? ==> -I64_MAX - 1 <= r.v.i < TWO64
    ensures CastIs(env, ctx, r, kind, OfCell(ToCell(env, ToLazy(env, ctx, r), kind)))
  {
    hide TextIs, ParseI64, Trim, Wrap64, ScalarText;
    ScalarIs(env, ctx, r);
    NullText(env, ctx, r);
    if r.v.VInt? { WrapIs(r.v.i); }
    assert 0 % TWO64 == 0;
  }

  /** A signed integer that is cast to a text stays an integer, so a condition
      that looks for something in such a cast never holds. */
  lemma IntegerIsNoText(env: Env, n: Node, b: string, word: string, c: string, r: Node, ctx: Ctx)
    requires Operand(n) && Operand(r) && NoWord(Print(Cast(n, StrKind))) && Eval(env, n, ctx).LI64?
    requires b != "" && Blanks(b) && Blanks(c) && Lower(word) == CONTAINS
    ensures Eval(env, Cast(n, StrKind), ctx) == Eval(env, n, ctx)
    ensures !Holds(env, Print(Cast(n, StrKind)) + b + word + c + Print(r), ctx)
  {
    hide Print, Holds, NoWord, Blanks, Lower;
    CastOf(env, n, StrKind, ctx);
    ContainsMeans(env, Cast(n, StrKind), b, word, c, r, ctx);
  }

  /** A cast of a path is the cast of the first node it reaches; integers are
      those of 64 bits, signed or not. */
  lemma PathCast(env: Env, ctx: Ctx, n: Node, kind: ColKind)
    requires IsPath(n)
    requires forall r :: r in Reached(ctx, n) && r.v.VInt? ==> -I64_MAX - 1 <= r.v.i < TWO64
    ensures var v, nodes := Eval(env, Cast(n, kind), ctx), Reached(ctx, n);
            if nodes == [] then v == LNull else CastIs(env, ctx, nodes[0], kind, v)
  {
    hide TaskNodes, PathNodes, ToLazy, CastIs;
    var nodes := Reached(ctx, n);
    if nodes != [] { NodeCast(env, ctx, nodes[0], kind); }
  }

  /** Casting twice to one kind is casting once. */
  lemma CastTwice(env: Env, n: Node, kind: ColKind, ctx: Ctx)
    requires kind != BoolKind
    ensures Eval(env, Cast(Cast(n, kind), kind), ctx) == Eval(env, Cast(n, kind), ctx)
  {
    hide ParseI64, Trim, Wrap64, DecimalInt;
    var v := Eval(env, n, ctx);
    hide Eval;
    CastOf(env, n, kind, ctx);
    CastOf(env, Cast(n, kind), kind, ctx);
  }

  lemma CastOf(env: Env, n: Node, kind: ColKind, ctx: Ctx)
    ensures Eval(env, Cast(n, kind), ctx) == OfCell(ToCell(env, Eval(env, n, ctx), kind))
  {}

  /** Casting an integer or a text to a text and then to an integer is casting it
      to an integer. */
  lemma IntegerThroughText(env: Env, n: Node, ctx: Ctx)
    requires var v := Eval(env, n, ctx); v.LNull? || v.LStr? || (v.LI64? && InI64(v.i))
    ensures Eval(env, Cast(Cast(n, StrKind), I64Kind), ctx) == Eval(env, Cast(n, I64Kind), ctx)
  {
    hide ParseI64, Trim, Eval;
    CastOf(env, n, StrKind, ctx);
    CastOf(env, n, I64Kind, ctx);
    CastOf(env, Cast(n, StrKind), I64Kind, ctx);
    var v := Eval(env, n, ctx);
    if v.LI64? {
      ParsesI64(v.i);
      NumeralIsTight(v.i);
    }
  }

  lemma NumeralIsTight(i: int)
    ensures Trim(DecimalInt(i)) == DecimalInt(i)
  {
    var s := DecimalInt(i);
    assert IsDigit(Decimal(if i < 0 then -i else i)[0]);
    TrimIsIdentity(s);
  }

  predicate TrueWord(t: string) { t == "true" || t == "True" || t == "1" }

  predicate FalseWord(t: string) { t == "false" || t == "False" || t == "0" }

  /** What a boolean column stores as true and as false; anything else is null. */
  lemma BooleanCells(env: Env, v: LazyVal)
    ensures var c := ToCell(env, v, BoolKind);
            && (c == CBool(true) <==>
                  || v == LBool(true) || (v.LI64? && v.i != 0) || (v.LU64? && v.u != 0)
                  || (v.LF64? && !env.isZero(v.text))
                  || (v.LStr? && TrueWord(Trim(v.s))) || (v.LRaw? && TrueWord(Trim(v.text))))
            && (c == CBool(false) <==>
                  || v == LBool(false) || v == LI64(0) || v == LU64(0) || (v.LF64? && env.isZero(v.text))
                  || (v.LStr? && FalseWord(Trim(v.s))) || (v.LRaw? && FalseWord(Trim(v.text))))
            && (!c.CBool? ==> c == CNull)
  {
    hide Trim;
  }
}
