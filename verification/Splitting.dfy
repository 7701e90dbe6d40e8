/** What the record splitter does on JSON: it cuts every array of objects and
    arrays exactly at its elements, whatever their strings hold and however it
    is laid out, and so undoes the table reader's printer. */
module Splitting {
  import opened Wrappers
  import opened Json
  import opened Scanner

  // ----- bracketed text --------------------------------------------------------------------------

  /** The inside of a string literal: no bare quote, no backslash at the end. */
  predicate StrBody(b: string) {
    b == "" || (if b[0] == '\\' then |b| >= 2 && StrBody(b[2..]) else b[0] != '"' && StrBody(b[1..]))
  }

  // All that matters of a JSON text (RFC 8259, sections 2, 4, 5 and 7): its
  // brackets, its string literals and the other characters.
  datatype Chunk = Plain(c: char) | Quoted(body: string) | Group(open: char, inner: seq<Chunk>, close: char)

  predicate ChunkOk(k: Chunk) {
    match k
    case Plain(c) => c != '"' && !IsOpen(c) && !IsClose(c)
    case Quoted(body) => StrBody(body)
    case Group(open, inner, close) =>
        IsOpen(open) && IsClose(close) && forall i :: 0 <= i < |inner| ==> ChunkOk(inner[i])
  }

  predicate IsRecord(k: Chunk) { k.Group? && ChunkOk(k) }

  function TextOf(k: Chunk): string {
    match k
    case Plain(c) => [c]
    case Quoted(body) => "\"" + body + "\""
    case Group(open, inner, close) => [open] + TextsOf(inner) + [close]
  }

  function TextsOf(ks: seq<Chunk>): string {
    if ks == [] then "" else TextOf(ks[0]) + TextsOf(ks[1..])
  }

  function Prepend(w: string, r: (string, string)): (string, string) { (w + r.0, r.1) }

  lemma PrependTwice(a: string, b: string, r: (string, string))
    ensures Prepend(a, Prepend(b, r)) == Prepend(a + b, r)
  {
    assert a + (b + r.0) == a + b + r.0;
  }

  /** Reading goes through `w` and on with `t`, in the state it was in. */
  ghost predicate Through(w: string, t: string, depth: int) {
    TakeRecord(w + t, depth, false, false) == Prepend(w, TakeRecord(t, depth, false, false))
  }

  lemma {:induction false} StringClosed(b: string, t: string, depth: int)
    requires StrBody(b)
    ensures TakeRecord(b + "\"" + t, depth, true, false) == Prepend(b + "\"", TakeRecord(t, depth, false, false))
    decreases |b|
  {
    hide TakeRecord, Prepend;
    var end := TakeRecord(t, depth, false, false);
    if b == "" {
      CharRead('"', t, depth);
      assert b + "\"" == "\"";
    } else if b[0] == '\\' {
      EscapePairRead(b[0], b[1], b[2..] + "\"" + t, depth);
      assert b + "\"" + t == [b[0]] + ([b[1]] + (b[2..] + "\"" + t));
      StringClosed(b[2..], t, depth);
      PrependTwice([b[0], b[1]], b[2..] + "\"", end);
      assert b + "\"" == [b[0], b[1]] + (b[2..] + "\"");
    } else {
      CharRead(b[0], b[1..] + "\"" + t, depth);
      assert b + "\"" + t == [b[0]] + (b[1..] + "\"" + t);
      StringClosed(b[1..], t, depth);
      PrependTwice([b[0]], b[1..] + "\"", end);
      assert b + "\"" == [b[0]] + (b[1..] + "\"");
    }
  }

  /** One character of a string literal; a bare quote closes it. */
  lemma CharRead(c: char, t: string, depth: int)
    requires c != '\\'
    ensures TakeRecord([c] + t, depth, true, false) == Prepend([c], TakeRecord(t, depth, c != '"', false))
  {
    assert ([c] + t)[1..] == t;
  }

  lemma EscapePairRead(slash: char, c: char, t: string, depth: int)
    requires slash == '\\'
    ensures TakeRecord([slash] + ([c] + t), depth, true, false) ==
        Prepend([slash, c], TakeRecord(t, depth, true, false))
  {
    var u := [c] + t;
    assert ([slash] + u)[1..] == u && u[1..] == t;
    PrependTwice([slash], [c], TakeRecord(t, depth, true, false));
    assert [slash] + [c] == [slash, c];
  }

  lemma QuotedThrough(b: string, t: string, depth: int)
    requires StrBody(b)
    ensures Through("\"" + b + "\"", t, depth)
  {
    hide StrBody;
    var w := "\"" + b + "\"";
    assert (w + t)[1..] == b + "\"" + t;
    StringClosed(b, t, depth);
    PrependTwice("\"", b + "\"", TakeRecord(t, depth, false, false));
    assert w == "\"" + (b + "\"");
  }

  lemma PlainThrough(c: char, t: string, depth: int)
    requires ChunkOk(Plain(c))
    ensures Through([c], t, depth)
  {
    assert ([c] + t)[1..] == t;
  }

  lemma ThroughBoth(w1: string, w2: string, t: string, depth: int)
    requires Through(w1, w2 + t, depth) && Through(w2, t, depth)
    ensures Through(w1 + w2, t, depth)
  {
    hide TakeRecord, Prepend;
    assert w1 + (w2 + t) == w1 + w2 + t;
    PrependTwice(w1, w2, TakeRecord(t, depth, false, false));
  }

  lemma Opens(c: char, t: string, depth: int)
    requires IsOpen(c)
    ensures TakeRecord([c] + t, depth, false, false) == Prepend([c], TakeRecord(t, depth + 1, false, false))
  {
    assert ([c] + t)[1..] == t;
  }

  lemma Closes(c: char, t: string, depth: int)
    requires IsClose(c)
    ensures TakeRecord([c] + t, depth, false, false)
         == Prepend([c], if depth <= 1 then ("", t) else TakeRecord(t, depth - 1, false, false))
  {
    assert ([c] + t)[1..] == t;
    assert [c] + "" == [c];
  }

  /** A bracketed text is read as its pieces, one level deeper. */
  lemma GroupRead(k: Chunk, t: string, depth: int)
    requires k.Group? && IsOpen(k.open) && IsClose(k.close)
    requires Through(TextsOf(k.inner), [k.close] + t, depth + 1)
    ensures TakeRecord(TextOf(k) + t, depth, false, false)
         == Prepend(TextOf(k), if depth <= 0 then ("", t) else TakeRecord(t, depth, false, false))
  {
    hide TakeRecord, TextsOf, IsOpen, IsClose, Prepend;
    var u := [k.close] + t;
    var end := if depth <= 0 then ("", t) else TakeRecord(t, depth, false, false);
    Opens(k.open, TextsOf(k.inner) + u, depth);
    Closes(k.close, t, depth + 1);
    PrependTwice(TextsOf(k.inner), [k.close], end);
    PrependTwice([k.open], TextsOf(k.inner) + [k.close], end);
    assert TextOf(k) + t == [k.open] + (TextsOf(k.inner) + u);
    assert TextOf(k) == [k.open] + (TextsOf(k.inner) + [k.close]);
  }

  /** Inside a record, whole chunks are read through. */
  lemma {:induction false} ChunkThrough(k: Chunk, t: string, depth: int)
    requires ChunkOk(k) && depth >= 1
    ensures Through(TextOf(k), t, depth)
    decreases k, 0
  {
    match k
    case Plain(c) => PlainThrough(c, t, depth);
    case Quoted(body) => QuotedThrough(body, t, depth);
    case Group(open, inner, close) =>
      hide TakeRecord, TextsOf, TextOf, IsOpen, IsClose;
      ChunksThrough(k, 0, [close] + t, depth + 1);
      assert inner[0..] == inner;
      GroupRead(k, t, depth);
  }

  lemma {:induction false} ChunksThrough(k: Chunk, i: nat, t: string, depth: int)
    requires k.Group? && ChunkOk(k) && i <= |k.inner| && depth >= 1
    ensures Through(TextsOf(k.inner[i..]), t, depth)
    decreases k, 0, |k.inner| - i
  {
    hide TakeRecord, TextOf, IsOpen, IsClose, Through;
    if i == |k.inner| {
      NothingThrough(t, depth);
    } else {
      var rest := TextsOf(k.inner[i + 1..]);
      ChunkThrough(k.inner[i], rest + t, depth);
      ChunksThrough(k, i + 1, t, depth);
      ThroughBoth(TextOf(k.inner[i]), rest, t, depth);
      assert k.inner[i..][1..] == k.inner[i + 1..];
    }
  }

  lemma NothingThrough(t: string, depth: int)
    ensures Through("", t, depth)
  {
    hide TakeRecord;
    assert "" + t == t;
    var r := TakeRecord(t, depth, false, false);
    assert "" + r.0 == r.0;
  }

  /** A balanced record is read to its closing bracket and no further. */
  lemma RecordEnds(k: Chunk, t: string)
    requires IsRecord(k)
    ensures TakeRecord(TextOf(k) + t, 0, false, false) == (TextOf(k), t)
  {
    hide TakeRecord, TextsOf, TextOf, IsOpen, IsClose;
    ChunksThrough(k, 0, [k.close] + t, 1);
    assert k.inner[0..] == k.inner;
    GroupRead(k, t, 0);
    assert TextOf(k) + "" == TextOf(k);
  }

  // ----- whole documents -------------------------------------------------------------------------

  predicate IsBlank(s: string) { forall i :: 0 <= i < |s| ==> IsAsciiWs(s[i]) }

  // An element of an array: an object or array, or else a string or a number or word.
  datatype Item = Bracketed(k: Chunk) | Literal(body: string) | Word(text: string)

  predicate WordChar(c: char) { c != '"' && !IsOpen(c) && !IsClose(c) && !IsSep(c) }

  predicate ItemOk(x: Item) {
    match x
    case Bracketed(k) => IsRecord(k)
    case Literal(body) => StrBody(body)
    case Word(text) => text != "" && forall i :: 0 <= i < |text| ==> WordChar(text[i])
  }

  function ItemText(x: Item): string {
    match x
    case Bracketed(k) => TextOf(k)
    case Literal(body) => "\"" + body + "\""
    case Word(text) => text
  }

  // One element with the blanks around it.
  datatype Part = Part(before: string, item: Item, after: string)

  predicate PartOk(p: Part) { IsBlank(p.before) && ItemOk(p.item) && IsBlank(p.after) }

  predicate PartsOk(ps: seq<Part>) { forall i :: 0 <= i < |ps| ==> PartOk(ps[i]) }

  predicate AllBracketed(ps: seq<Part>) { forall i :: 0 <= i < |ps| ==> ps[i].item.Bracketed? }

  function More(ps: seq<Part>): string {
    if ps == [] then "" else "," + (ps[0].before + (ItemText(ps[0].item) + (ps[0].after + More(ps[1..]))))
  }

  function Elements(ps: seq<Part>): string {
    if ps == [] then "" else ps[0].before + (ItemText(ps[0].item) + (ps[0].after + More(ps[1..])))
  }

  function ItemTexts(ps: seq<Part>): seq<string> {
    if ps == [] then [] else [ItemText(ps[0].item)] + ItemTexts(ps[1..])
  }

  lemma {:induction false} BlanksSkipped(w: string, t: string)
    requires IsBlank(w) && (t == "" || !IsAsciiWs(t[0]))
    ensures SkipAsciiWs(w + t) == t
  {
    hide IsAsciiWs;
    if w == "" {
      assert w + t == t;
    } else {
      assert (w + t)[1..] == w[1..] + t;
      BlanksSkipped(w[1..], t);
    }
  }

  lemma {:induction false} SepsSkipped(w: string, t: string)
    requires (forall i :: 0 <= i < |w| ==> IsSep(w[i])) && (t == "" || !IsSep(t[0]))
    ensures SkipSeps(w + t) == t
  {
    hide IsSep;
    if w == "" {
      assert w + t == t;
    } else {
      assert (w + t)[1..] == w[1..] + t;
      SepsSkipped(w[1..], t);
    }
  }

  /** A text that is no separator and does not end the array. */
  predicate Starts(t: string) { t != "" && !IsSep(t[0]) && t[0] != ']' }

  lemma ItemStarts(x: Item, t: string)
    requires ItemOk(x)
    ensures Starts(ItemText(x) + t)
  {}

  /** A record after separators, the first of which is not an opening bracket. */
  lemma LeadComma(after: string, before: string, t: string)
    requires IsBlank(after) && IsBlank(before) && Starts(t)
    ensures Lead(after + ("," + (before + t))) == t
  {
    BlanksSkipped(after, "," + (before + t));
    SepsSkipped("," + before, t);
    assert "," + before + t == "," + (before + t);
  }

  lemma LeadBracket(lead: string, gap: string, t: string)
    requires IsBlank(lead) && IsBlank(gap) && t != "" && !IsSep(t[0])
    ensures Lead(lead + ("[" + (gap + t))) == t
  {
    BlanksSkipped(lead, "[" + (gap + t));
    SepsSkipped(gap, t);
    assert ("[" + (gap + t))[1..] == gap + t;
  }

  lemma LeadEnd(after: string, t: string)
    requires IsBlank(after) && t != "" && t[0] == ']'
    ensures Lead(after + t) == t
  {
    BlanksSkipped(after, t);
    SepsSkipped("", t);
    assert "" + t == t;
  }

  lemma RecordsStep(s: string, k: Chunk, t: string)
    requires IsRecord(k) && Lead(s) == TextOf(k) + t
    ensures Records(s) == [TextOf(k)] + Records(t)
  {
    hide TextOf, Lead, TakeRecord, IsRecord;
    assert TextOf(k) + t != "" && (TextOf(k) + t)[0] != ']' by { ItemStarts(Bracketed(k), t); }
    RecordEnds(k, t);
  }

  lemma RecordsEnd(s: string)
    requires Lead(s) != "" && Lead(s)[0] == ']'
    ensures Records(s) == []
  {
    hide Lead;
  }

  lemma {:induction false} WordThrough(w: string, t: string, depth: int)
    requires forall i :: 0 <= i < |w| ==> WordChar(w[i])
    ensures Through(w, t, depth)
  {
    hide TakeRecord, Through;
    if w == "" {
      NothingThrough(t, depth);
    } else {
      PlainThrough(w[0], w[1..] + t, depth);
      WordThrough(w[1..], t, depth);
      ThroughBoth([w[0]], w[1..], t, depth);
      assert [w[0]] + w[1..] == w;
    }
  }

  /** The splitter does not stop at the end of a scalar. */
  lemma ScalarRunsOn(s: string, x: Item, t: string)
    requires ItemOk(x) && !x.Bracketed? && t != "" && Lead(s) == ItemText(x) + t
    ensures Records(s) != [] && Records(s)[0] != ItemText(x)
  {
    hide Lead, TakeRecord;
    ItemStarts(x, t);
    match x {
      case Literal(body) => QuotedThrough(body, t, 0);
      case Word(text) => WordThrough(text, t, 0);
    }
    var text := ItemText(x);
    assert TakeRecord(text + t, 0, false, false).0 == text + TakeRecord(t, 0, false, false).0;
    assert |TakeRecord(text + t, 0, false, false).0| > |text|;
  }

  /** The record that starts at an element is the element exactly when it is bracketed. */
  lemma RecordIsItem(s: string, ps: seq<Part>, t: string)
    requires ps != [] && PartsOk(ps) && Lead(s) == ItemText(ps[0].item) + t && t != ""
    requires Records(t) == ItemTexts(ps[1..]) <==> AllBracketed(ps[1..])
    ensures Records(s) == ItemTexts(ps) <==> AllBracketed(ps)
  {
    hide Records, Lead, ItemTexts, ItemText, ItemOk;
    var texts := ItemTexts(ps);
    FirstText(ps);
    assert AllBracketed(ps) <==> ps[0].item.Bracketed? && AllBracketed(ps[1..]) by {
      assert forall i :: 0 <= i < |ps[1..]| ==> ps[1..][i] == ps[i + 1];
      assert forall i :: 0 < i < |ps| ==> ps[i] == ps[1..][i - 1];
    }
    assert PartOk(ps[0]);
    if ps[0].item.Bracketed? {
      BracketedStep(s, ps[0].item, t);
      assert Records(s)[1..] == Records(t) && texts[1..] == ItemTexts(ps[1..]);
    } else {
      ScalarRunsOn(s, ps[0].item, t);
    }
  }

  lemma FirstText(ps: seq<Part>)
    requires ps != []
    ensures ItemTexts(ps) == [ItemText(ps[0].item)] + ItemTexts(ps[1..])
  {}

  lemma BracketedStep(s: string, x: Item, t: string)
    requires ItemOk(x) && x.Bracketed? && Lead(s) == ItemText(x) + t
    ensures Records(s) == [ItemText(x)] + Records(t)
  {
    hide Records, Lead, TextOf, IsRecord;
    RecordsStep(s, x.k, t);
  }

  lemma {:induction false} MoreRecords(after: string, ps: seq<Part>, tail: string)
    requires IsBlank(after) && PartsOk(ps)
    ensures Records(after + (More(ps) + ("]" + tail))) == ItemTexts(ps) <==> AllBracketed(ps)
    decreases |ps|
  {
    hide Records, ItemText, ItemOk, Lead, IsBlank, IsRecord, IsOpen, Starts, AllBracketed;
    var s := after + (More(ps) + ("]" + tail));
    if ps == [] {
      assert s == after + ("]" + tail);
      LeadEnd(after, "]" + tail);
      RecordsEnd(s);
      NoneBracketed();
    } else {
      var p := ps[0];
      var t := p.after + (More(ps[1..]) + ("]" + tail));
      assert s == after + ("," + (p.before + (ItemText(p.item) + t))) by { hide More; Unroll(ps, tail); }
      ItemStarts(p.item, t);
      LeadComma(after, p.before, ItemText(p.item) + t);
      MoreRecords(p.after, ps[1..], tail);
      RecordIsItem(s, ps, t);
    }
  }

  lemma NoneBracketed()
    ensures AllBracketed([]) && ItemTexts([]) == []
  {}

  lemma Unroll(ps: seq<Part>, tail: string)
    requires ps != []
    ensures More(ps) + ("]" + tail)
         == "," + (ps[0].before + (ItemText(ps[0].item) + (ps[0].after + (More(ps[1..]) + ("]" + tail)))))
  {
    hide ItemText;
  }

  /** The splitter yields exactly the elements of an array, in order, exactly
      when all of them are objects or arrays, however the document is laid out
      and whatever follows the closing bracket: from the first string, number
      or word on it cuts something else. */
  lemma SplitterCutsArray(lead: string, gap: string, ps: seq<Part>, tail: string)
    requires IsBlank(lead) && IsBlank(gap) && PartsOk(ps)
    ensures Records(lead + ("[" + (gap + (Elements(ps) + ("]" + tail))))) == ItemTexts(ps) <==> AllBracketed(ps)
  {
    hide Records, ItemText, ItemOk, Lead, IsRecord, IsOpen, More, Starts, AllBracketed;
    var s := lead + ("[" + (gap + (Elements(ps) + ("]" + tail))));
    if ps == [] {
      assert Elements(ps) + ("]" + tail) == "]" + tail;
      LeadBracket(lead, gap, "]" + tail);
      RecordsEnd(s);
      NoneBracketed();
    } else {
      var p := ps[0];
      var t := p.after + (More(ps[1..]) + ("]" + tail));
      var u := ItemText(p.item) + t;
      assert gap + (Elements(ps) + ("]" + tail)) == gap + p.before + u by { hide IsBlank; }
      ItemStarts(p.item, t);
      assert u != "" && !IsSep(u[0]) by { assert Starts(u); StartsMeans(u); }
      LeadBracket(lead, gap + p.before, u);
      MoreRecords(p.after, ps[1..], tail);
      RecordIsItem(s, ps, t);
    }
  }

  lemma StartsMeans(t: string)
    requires Starts(t)
    ensures t != "" && !IsSep(t[0]) && t[0] != ']'
  {}

  // ----- the table printer -------------------------------------------------------------------------

  // A number is held as its text: how it is formatted is not modelled.
  datatype Cell = NullCell | BoolCell(b: bool) | NumCell(text: string) | TextCell(s: string)

  predicate NumChar(c: char) { c != '"' && c != ',' && !IsOpen(c) && !IsClose(c) }

  predicate CellOk(c: Cell) {
    c.NumCell? ==>
      && c.text != "" && c.text != "null" && c.text != "true" && c.text != "false"
      && forall i :: 0 <= i < |c.text| ==> NumChar(c.text[i])
  }

  function CellText(c: Cell): string {
    match c
    case NullCell => "null"
    case BoolCell(b) => if b then "true" else "false"
    case NumCell(text) => text
    case TextCell(s) => QuoteJson(s)
  }

  function FieldText(name: string, c: Cell): string { QuoteJson(name) + ":" + CellText(c) }

  function FieldsText(names: seq<string>, row: seq<Cell>): string
    requires |names| == |row|
  {
    if names == [] then ""
    else if |names| == 1 then FieldText(names[0], row[0])
    else FieldText(names[0], row[0]) + "," + FieldsText(names[1..], row[1..])
  }

  function RowText(names: seq<string>, row: seq<Cell>): string
    requires |names| == |row|
  {
    "{" + FieldsText(names, row) + "}"
  }

  predicate TableOk(names: seq<string>, rows: seq<seq<Cell>>) {
    forall i :: 0 <= i < |rows| ==> |rows[i]| == |names| && forall j :: 0 <= j < |names| ==> CellOk(rows[i][j])
  }

  function RowsText(names: seq<string>, rows: seq<seq<Cell>>): string
    requires TableOk(names, rows)
  {
    if rows == [] then ""
    else if |rows| == 1 then RowText(names, rows[0])
    else RowText(names, rows[0]) + "," + RowsText(names, rows[1..])
  }

  function TableText(names: seq<string>, rows: seq<seq<Cell>>): string
    requires TableOk(names, rows)
  {
    "[" + RowsText(names, rows) + "]"
  }

  function RowTexts(names: seq<string>, rows: seq<seq<Cell>>): seq<string>
    requires TableOk(names, rows)
  {
    if rows == [] then [] else [RowText(names, rows[0])] + RowTexts(names, rows[1..])
  }

  lemma {:induction false} FieldsSnoc(names: seq<string>, row: seq<Cell>, name: string, c: Cell)
    requires |names| == |row|
    ensures FieldsText(names + [name], row + [c])
         == FieldsText(names, row) + (if names == [] then "" else ",") + FieldText(name, c)
  {
    hide FieldText;
    if names != [] {
      assert (names + [name])[1..] == names[1..] + [name] && (row + [c])[1..] == row[1..] + [c];
      FieldsSnoc(names[1..], row[1..], name, c);
      var f := FieldText(names[0], row[0]);
      if |names| > 1 {
        var more := FieldsText(names[1..], row[1..]);
        assert f + "," + (more + "," + FieldText(name, c)) == f + "," + more + "," + FieldText(name, c);
      }
    }
  }

  lemma {:induction false} RowsSnoc(names: seq<string>, rows: seq<seq<Cell>>, row: seq<Cell>)
    requires TableOk(names, rows + [row]) && TableOk(names, rows) && |row| == |names|
    ensures RowsText(names, rows + [row]) ==
        RowsText(names, rows) + (if rows == [] then "" else ",") + RowText(names, row)
  {
    hide RowText;
    if rows != [] {
      assert (rows + [row])[1..] == rows[1..] + [row];
      RowsSnoc(names, rows[1..], row);
      var f := RowText(names, rows[0]);
      if |rows| > 1 {
        var more := RowsText(names, rows[1..]);
        assert f + "," + (more + "," + RowText(names, row)) == f + "," + more + "," + RowText(names, row);
      }
    }
  }

  method CellJson(c: Cell) returns (out: string)
    ensures out == CellText(c)
  {
    match c
    case NullCell => out := "null";
    case BoolCell(b) => out := if b then "true" else "false";
    case NumCell(text) => out := text;
    case TextCell(s) => var e := EscapeText(s); out := "\"" + e + "\"";
  }

  method PushField(text: string, name: string, c: Cell) returns (out: string)
    ensures out == text + FieldText(name, c)
  {
    hide CellText;
    var e := EscapeText(name);
    var cell := CellJson(c);
    out := text + "\"";
    out := out + e;
    out := out + "\"";
    out := out + ":";
    out := out + cell;
    assert out == text + ("\"" + e + "\"" + ":" + cell);
  }

  method WriteRow(names: seq<string>, row: seq<Cell>) returns (out: string)
    requires |names| == |row|
    ensures out == RowText(names, row)
  {
    hide CellText, FieldsText, FieldText;
    out := "{";
    NoFields();
    assert names[..0] == [] && row[..0] == [];
    for i := 0 to |names|
      invariant out == "{" + FieldsText(names[..i], row[..i])
    {
      FieldsSnoc(names[..i], row[..i], names[i], row[i]);
      assert names[..i + 1] == names[..i] + [names[i]] && row[..i + 1] == row[..i] + [row[i]];
      Appended("{", FieldsText(names[..i], row[..i]), if i == 0 then "" else ",", FieldText(names[i], row[i]));
      if i > 0 { out := out + ","; }
      out := PushField(out, names[i], row[i]);
    }
    assert names[..|names|] == names && row[..|names|] == row;
    out := out + "}";
  }

  lemma Appended(a: string, b: string, c: string, d: string)
    ensures a + b + c + d == a + (b + c + d)
    ensures c == "" ==> a + b + d == a + b + c + d
  {}

  lemma NoFields()
    ensures FieldsText([], []) == ""
  {}

  /** Reading a whole table as JSON. */
  method ReadTableJson(names: seq<string>, rows: seq<seq<Cell>>) returns (out: string)
    requires TableOk(names, rows)
    ensures out == TableText(names, rows)
  {
    hide RowText;
    out := "[";
    var first := true;
    assert rows[..0] == [];
    for i := 0 to |rows|
      invariant first == (i == 0) && out == "[" + RowsText(names, rows[..i])
    {
      assert rows[..i + 1] == rows[..i] + [rows[i]];
      RowsSnoc(names, rows[..i], rows[i]);
      Appended("[", RowsText(names, rows[..i]), if i == 0 then "" else ",", RowText(names, rows[i]));
      if !first { out := out + ","; }
      first := false;
      var row := WriteRow(names, rows[i]);
      out := out + row;
    }
    assert rows[..|rows|] == rows;
    out := out + "]";
  }

  // ----- splitter after printer ----------------------------------------------------------------------

  lemma {:induction false} EscapedIsBody(s: string)
    ensures StrBody(Escape(s))
  {
    if s != "" {
      EscapedIsBody(s[1..]);
      EscapedCharThenBody(s[0], Escape(s[1..]));
    }
  }

  lemma EscapedCharThenBody(c: char, b: string)
    requires StrBody(b)
    ensures StrBody(EscapeChar(c) + b)
  {
    var e := EscapeChar(c);
    if |e| == 6 {
      ControlThenBody(c, b);
    } else if |e| == 2 {
      PairThenBody(e, b);
    } else {
      PlainThenBody(c, b);
    }
  }

  lemma PairThenBody(e: string, b: string)
    requires |e| == 2 && e[0] == '\\' && StrBody(b)
    ensures StrBody(e + b)
  {
    assert (e + b)[2..] == b;
  }

  lemma ControlParts(c: char)
    requires |EscapeChar(c)| == 6
    ensures EscapeChar(c)[0] == '\\'
    ensures forall i :: 2 <= i < 6 ==> EscapeChar(c)[i] != '\\' && EscapeChar(c)[i] != '"'
  {
    HexRoundTrip(c as int / 16);
    HexRoundTrip(c as int % 16);
  }

  lemma ControlThenBody(c: char, b: string)
    requires StrBody(b) && |EscapeChar(c)| == 6
    ensures StrBody(EscapeChar(c) + b)
  {
    hide StrBody, EscapeChar;
    var e := EscapeChar(c);
    ControlParts(c);
    PlainThenBody(e[5], b);
    PlainThenBody(e[4], [e[5]] + b);
    PlainThenBody(e[3], [e[4]] + ([e[5]] + b));
    PlainThenBody(e[2], [e[3]] + ([e[4]] + ([e[5]] + b)));
    var four := [e[2]] + ([e[3]] + ([e[4]] + ([e[5]] + b)));
    PairThenBody(e[..2], four);
    assert e + b == e[..2] + four;
  }

  lemma PlainThenBody(c: char, b: string)
    requires c != '\\' && c != '"' && StrBody(b)
    ensures StrBody([c] + b)
  {
    assert ([c] + b)[1..] == b;
  }

  function Plains(s: string): seq<Chunk> {
    if s == "" then [] else [Plain(s[0])] + Plains(s[1..])
  }

  lemma {:induction false} PlainsText(s: string)
    requires forall i :: 0 <= i < |s| ==> ChunkOk(Plain(s[i]))
    ensures TextsOf(Plains(s)) == s && ChunksOk(Plains(s))
  {
    if s != "" {
      PlainsText(s[1..]);
      assert s == [s[0]] + s[1..];
    }
  }

  predicate ChunksOk(ks: seq<Chunk>) { forall i :: 0 <= i < |ks| ==> ChunkOk(ks[i]) }

  lemma {:induction false} TextsConcat(a: seq<Chunk>, b: seq<Chunk>)
    ensures TextsOf(a + b) == TextsOf(a) + TextsOf(b)
  {
    hide TextOf;
    if a == [] {
      assert a + b == b;
    } else {
      assert (a + b)[1..] == a[1..] + b;
      TextsConcat(a[1..], b);
    }
  }

  function CellChunks(c: Cell): seq<Chunk> {
    if c.TextCell? then [Quoted(Escape(c.s))] else Plains(CellText(c))
  }

  lemma CellIsChunks(c: Cell)
    requires CellOk(c)
    ensures TextsOf(CellChunks(c)) == CellText(c) && ChunksOk(CellChunks(c))
  {
    if c.TextCell? {
      EscapedIsBody(c.s);
      OneChunk(Quoted(Escape(c.s)));
    } else {
      PlainsText(CellText(c));
    }
  }

  lemma OneChunk(k: Chunk)
    ensures TextsOf([k]) == TextOf(k)
  {
    assert [k][1..] == [];
  }

  function FieldChunks(name: string, c: Cell): seq<Chunk> {
    [Quoted(Escape(name)), Plain(':')] + CellChunks(c)
  }

  lemma FieldIsChunks(name: string, c: Cell)
    requires CellOk(c)
    ensures TextsOf(FieldChunks(name, c)) == FieldText(name, c) && ChunksOk(FieldChunks(name, c))
  {
    hide CellText, CellChunks, StrBody, CellOk;
    var two := [Quoted(Escape(name)), Plain(':')];
    EscapedIsBody(name);
    CellIsChunks(c);
    TextsConcat(two, CellChunks(c));
    OneChunk(Plain(':'));
    assert two[1..] == [Plain(':')];
  }

  function FieldsChunks(names: seq<string>, row: seq<Cell>): seq<Chunk>
    requires |names| == |row|
  {
    if names == [] then []
    else if |names| == 1 then FieldChunks(names[0], row[0])
    else FieldChunks(names[0], row[0]) + ([Plain(',')] + FieldsChunks(names[1..], row[1..]))
  }

  lemma {:induction false} FieldsAreChunks(names: seq<string>, row: seq<Cell>)
    requires |names| == |row| && forall j :: 0 <= j < |row| ==> CellOk(row[j])
    ensures TextsOf(FieldsChunks(names, row)) == FieldsText(names, row) && ChunksOk(FieldsChunks(names, row))
  {
    hide FieldText, FieldChunks, CellOk, ChunkOk, TextsOf;
    if names == [] {
      NoTexts();
    } else {
      FieldIsChunks(names[0], row[0]);
      if |names| > 1 {
        FieldsAreChunks(names[1..], row[1..]);
        CommaChunks(FieldChunks(names[0], row[0]), FieldsChunks(names[1..], row[1..]));
      }
    }
  }

  lemma NoTexts()
    ensures TextsOf([]) == ""
  {}

  lemma CommaChunks(a: seq<Chunk>, b: seq<Chunk>)
    ensures TextsOf(a + ([Plain(',')] + b)) == TextsOf(a) + "," + TextsOf(b)
    ensures ChunksOk(a) && ChunksOk(b) ==> ChunksOk(a + ([Plain(',')] + b))
  {
    hide TextsOf;
    TextsConcat(a, [Plain(',')] + b);
    TextsConcat([Plain(',')], b);
    OneChunk(Plain(','));
  }

  function RowChunk(names: seq<string>, row: seq<Cell>): Chunk
    requires |names| == |row|
  {
    Group('{', FieldsChunks(names, row), '}')
  }

  lemma RowIsRecord(names: seq<string>, row: seq<Cell>)
    requires |names| == |row| && forall j :: 0 <= j < |row| ==> CellOk(row[j])
    ensures IsRecord(RowChunk(names, row)) && TextOf(RowChunk(names, row)) == RowText(names, row)
  {
    hide CellOk, FieldsChunks, FieldsText;
    FieldsAreChunks(names, row);
  }

  function RowParts(names: seq<string>, rows: seq<seq<Cell>>): seq<Part>
    requires TableOk(names, rows)
  {
    if rows == [] then [] else [Part("", Bracketed(RowChunk(names, rows[0])), "")] + RowParts(names, rows[1..])
  }

  lemma {:induction false} RowsAreParts(names: seq<string>, rows: seq<seq<Cell>>)
    requires TableOk(names, rows)
    ensures PartsOk(RowParts(names, rows)) && Elements(RowParts(names, rows)) == RowsText(names, rows)
    ensures More(RowParts(names, rows)) == (if rows == [] then "" else "," + RowsText(names, rows))
    ensures ItemTexts(RowParts(names, rows)) == RowTexts(names, rows) && AllBracketed(RowParts(names, rows))
  {
    hide CellOk, RowChunk, TextOf, RowText, IsRecord;
    if rows != [] {
      RowIsRecord(names, rows[0]);
      RowsAreParts(names, rows[1..]);
      var ps := RowParts(names, rows);
      assert ps[1..] == RowParts(names, rows[1..]);
    }
  }

  /** Splitting a printed table gives back exactly the texts of its rows. */
  lemma SplitterUndoesPrinter(names: seq<string>, rows: seq<seq<Cell>>)
    requires TableOk(names, rows)
    ensures Records(TableText(names, rows)) == RowTexts(names, rows)
  {
    hide Records, TableOk, PartsOk, Elements, RowsText, RowTexts, ItemTexts, RowParts, AllBracketed;
    var ps := RowParts(names, rows);
    RowsAreParts(names, rows);
    SplitterCutsArray("", "", ps, "");
    var text := RowsText(names, rows);
    assert "" + ("[" + ("" + (text + ("]" + "")))) == "[" + text + "]";
  }

  // ----- reading a row back --------------------------------------------------------------------------

  function TakeWord(s: string): (r: (string, string))
    ensures |r.1| <= |s|
  {
    if s != "" && s[0] != ',' && s[0] != '}' then
      var (w, rest) := TakeWord(s[1..]);
      ([s[0]] + w, rest)
    else ("", s)
  }

  function WordCell(w: string): Cell {
    if w == "null" then NullCell
    else if w == "true" then BoolCell(true)
    else if w == "false" then BoolCell(false)
    else NumCell(w)
  }

  function ReadCell(s: string): (r: Option<(Cell, string)>)
    ensures r.Some? ==> |r.value.1| <= |s|
  {
    if s != "" && s[0] == '"' then
      match ReadString(s[1..])
      case Some(text) => Some((TextCell(text.0), text.1))
      case None => None
    else var (w, rest) := TakeWord(s); if w == "" then None else Some((WordCell(w), rest))
  }

  function ReadField(s: string): (r: Option<((string, Cell), string)>)
    ensures r.Some? ==> |r.value.1| < |s|
  {
    if s == "" || s[0] != '"' then None
    else match ReadString(s[1..])
         case None => None
         case Some(name) =>
           if name.1 == "" || name.1[0] != ':' then None
           else match ReadCell(name.1[1..])
                case None => None
                case Some(cell) => Some(((name.0, cell.0), cell.1))
  }

  function ReadFields(s: string): Option<seq<(string, Cell)>>
    decreases |s|
  {
    match ReadField(s)
    case None => None
    case Some(field) =>
      if field.1 == "}" then Some([field.0])
      else if field.1 != "" && field.1[0] == ',' then
        match ReadFields(field.1[1..])
        case None => None
        case Some(more) => Some([field.0] + more)
      else None
  }

  /** A compact JSON object of scalars, as its members (RFC 8259, section 4). */
  function ReadRow(s: string): Option<seq<(string, Cell)>> {
    if s == "{}" then Some([])
    else if s == "" || s[0] != '{' then None
    else ReadFields(s[1..])
  }

  function Members(names: seq<string>, row: seq<Cell>): seq<(string, Cell)>
    requires |names| == |row|
  {
    if names == [] then [] else [(names[0], row[0])] + Members(names[1..], row[1..])
  }

  lemma {:induction false} TakeWordStops(w: string, t: string)
    requires forall i :: 0 <= i < |w| ==> NumChar(w[i])
    requires t != "" && (t[0] == ',' || t[0] == '}')
    ensures TakeWord(w + t) == (w, t)
  {
    if w == "" {
      assert w + t == t;
    } else {
      TakeWordStops(w[1..], t);
      assert (w + t)[1..] == w[1..] + t;
      assert w == [w[0]] + w[1..];
    }
  }

  lemma CellRoundTrip(c: Cell, t: string)
    requires CellOk(c) && t != "" && (t[0] == ',' || t[0] == '}')
    ensures ReadCell(CellText(c) + t) == Some((c, t))
  {
    hide ReadString, Escape, TakeWord;
    if c.TextCell? {
      StringRoundTrip(c.s, t);
      assert (CellText(c) + t)[1..] == Escape(c.s) + "\"" + t;
    } else {
      TakeWordStops(CellText(c), t);
      assert (CellText(c) + t)[0] == CellText(c)[0];
    }
  }

  lemma FieldRoundTrip(name: string, c: Cell, t: string)
    requires CellOk(c) && t != "" && (t[0] == ',' || t[0] == '}')
    ensures ReadField(FieldText(name, c) + t) == Some(((name, c), t))
  {
    hide ReadString, Escape, ReadCell, CellOk, CellText;
    var u := ":" + (CellText(c) + t);
    StringRoundTrip(name, u);
    CellRoundTrip(c, t);
    assert u[1..] == CellText(c) + t;
    assert FieldText(name, c) + t == "\"" + (Escape(name) + "\"" + u);
    assert ("\"" + (Escape(name) + "\"" + u))[1..] == Escape(name) + "\"" + u;
  }

  lemma {:induction false} FieldsRoundTrip(names: seq<string>, row: seq<Cell>)
    requires |names| == |row| > 0 && forall j :: 0 <= j < |row| ==> CellOk(row[j])
    ensures ReadFields(FieldsText(names, row) + "}") == Some(Members(names, row))
  {
    hide ReadField, FieldText, CellOk;
    if |names| == 1 {
      FieldRoundTrip(names[0], row[0], "}");
      assert Members(names[1..], row[1..]) == [];
      assert Members(names, row) == [(names[0], row[0])];
    } else {
      var t := "," + (FieldsText(names[1..], row[1..]) + "}");
      FieldRoundTrip(names[0], row[0], t);
      FieldsRoundTrip(names[1..], row[1..]);
      assert FieldsText(names, row) + "}" == FieldText(names[0], row[0]) + t;
      assert t[1..] == FieldsText(names[1..], row[1..]) + "}";
    }
  }

  /** A printed row reads back to its names and cells. */
  lemma RowRoundTrip(names: seq<string>, row: seq<Cell>)
    requires |names| == |row| && forall j :: 0 <= j < |row| ==> CellOk(row[j])
    ensures ReadRow(RowText(names, row)) == Some(Members(names, row))
  {
    hide ReadFields, CellOk;
    if names == [] {
    } else {
      FieldsRoundTrip(names, row);
      FieldsStart(names, row);
      hide FieldsText;
      var text := RowText(names, row);
      assert text[1..] == FieldsText(names, row) + "}";
      assert text[1] == FieldsText(names, row)[0];
    }
  }

  lemma FieldsStart(names: seq<string>, row: seq<Cell>)
    requires |names| == |row| > 0
    ensures FieldsText(names, row) != "" && FieldsText(names, row)[0] == '"'
  {}

  /** From table to text to records to members: nothing is lost, merged or moved. */
  lemma TableRoundTrip(names: seq<string>, rows: seq<seq<Cell>>)
    requires TableOk(names, rows)
    ensures var recs := Records(TableText(names, rows));
            && |recs| == |rows|
            && forall i :: 0 <= i < |rows| ==> ReadRow(recs[i]) == Some(Members(names, rows[i]))
  {
    hide Records, CellOk, ReadRow, RowText, TableText;
    SplitterUndoesPrinter(names, rows);
    RowTextAt(names, rows);
    forall i | 0 <= i < |rows| ensures ReadRow(RowText(names, rows[i])) == Some(Members(names, rows[i])) {
      RowRoundTrip(names, rows[i]);
    }
  }

  lemma {:induction false} RowTextAt(names: seq<string>, rows: seq<seq<Cell>>)
    requires TableOk(names, rows)
    ensures |RowTexts(names, rows)| == |rows|
    ensures forall i :: 0 <= i < |rows| ==> RowTexts(names, rows)[i] == RowText(names, rows[i])
  {
    hide RowText, CellOk;
    if rows != [] { RowTextAt(names, rows[1..]); }
  }
}
