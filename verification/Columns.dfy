/** Typed columns, and writing them under one directory per partition value. */
module Columns {
  import opened Wrappers
  import opened Text
  import opened Expr
  import opened Evaluation

  // ----- cells -------------------------------------------------------------------------------

  function StrOf(c: Cell): Option<string> {
    match c
    case CNull => None
    case CStr(s) => Some(s)
    case CF64(text) => Some(text)
    case CI64(i) => Some(DecimalInt(i))
    case CBool(b) => Some(BoolText(b))
  }

  function F64Of(env: Env, c: Cell): Option<string> {
    match c
    case CNull => None
    case CF64(text) => Some(text)
    case CI64(i) => Some(env.floatOfInt(i))
    case CBool(b) => Some(env.floatOfInt(if b then 1 else 0))
    case CStr(s) => env.parseFloat(Trim(s))
  }

  function I64Of(env: Env, c: Cell): Option<int> {
    match c
    case CNull => None
    case CI64(i) => Some(i)
    case CF64(text) => Some(env.truncate(text))
    case CBool(b) => Some(if b then 1 else 0)
    case CStr(s) => ParseI64(Trim(s))
  }

  function BoolOf(env: Env, c: Cell): Option<bool> {
    match c
    case CNull => None
    case CBool(b) => Some(b)
    case CI64(i) => Some(i != 0)
    case CF64(text) => Some(!env.isZero(text))
    case CStr(s) => var r := BoolOfText(s); if r.CBool? then Some(r.b) else None
  }

  function Wrap<T>(v: Option<T>, f: T -> Cell): Cell { match v case None => CNull case Some(x) => f(x) }

  /** The cell a column of this kind stores for a pushed cell. */
  function Coerce(env: Env, c: Cell, kind: ColKind): Cell {
    match kind
    case StrKind => Wrap(StrOf(c), s => CStr(s))
    case F64Kind => Wrap(F64Of(env, c), t => CF64(t))
    case I64Kind => Wrap(I64Of(env, c), i => CI64(i))
    case BoolKind => Wrap(BoolOf(env, c), b => CBool(b))
  }

  predicate OfKind(c: Cell, kind: ColKind) {
    match c
    case CNull => true
    case CStr(_) => kind == StrKind
    case CF64(_) => kind == F64Kind
    case CI64(_) => kind == I64Kind
    case CBool(_) => kind == BoolKind
  }

  /** Storing a cell that already has the column's kind leaves it as it is. */
  lemma CoerceKeeps(env: Env, c: Cell, kind: ColKind)
    requires OfKind(c, kind)
    ensures Coerce(env, c, kind) == c
  {}

  /** The two coercions, of a value to a cell and of a cell on its way into a
      column, agree but for an integer that is to be a text: a cast leaves it an
      integer, and only the column makes it a text. */
  lemma CoerceIsCastIff(env: Env, c: Cell, kind: ColKind)
    ensures Coerce(env, c, kind) == ToCell(env, OfCell(c), kind) <==> !(c.CI64? && kind == StrKind)
  {
    hide Trim, BoolOfText, ParseI64, DecimalInt;
    BoolTextCell(if c.CStr? then c.s else "");
  }

  /** A cell on its way into a column through both: of the column's kind, the
      value's text in a column of texts, and the cast in any other. */
  lemma StoredCell(env: Env, v: LazyVal, kind: ColKind)
    ensures var c := Coerce(env, ToCell(env, v, kind), kind);
            && OfKind(c, kind)
            && if kind == StrKind then c == (match ScalarText(v) case None => CNull case Some(t) => CStr(t))
               else c == ToCell(env, v, kind)
  {
    hide Trim, BoolOfText, ParseI64, DecimalInt, Wrap64;
    BoolTextCell(if v.LStr? then v.s else if v.LRaw? then v.text else "");
  }

  lemma BoolTextCell(s: string)
    ensures BoolOfText(s).CBool? || BoolOfText(s).CNull?
  {}

  // ----- columns -----------------------------------------------------------------------------

  // A column as a value.
  datatype Col = Col(name: string, kind: ColKind, cells: seq<Cell>)

  function CellAt(cells: seq<Cell>, i: nat): Cell { if i < |cells| then cells[i] else CNull }

  function Gathered(cells: seq<Cell>, rows: seq<nat>): (r: seq<Cell>)
    ensures |r| == |rows|
  {
    seq(|rows|, j requires 0 <= j < |rows| => CellAt(cells, rows[j]))
  }

  class Column {
    const name: string
    const kind: ColKind
    var strings: seq<Option<string>>
    var f64s: seq<Option<string>>
    var i64s: seq<Option<int>>
    var bools: seq<Option<bool>>

    function Cells(): (r: seq<Cell>)
      reads this
      ensures forall i :: 0 <= i < |r| ==> OfKind(r[i], kind)
    {
      match kind
      case StrKind => seq(|strings|, i requires 0 <= i < |strings| reads this => Wrap(strings[i], s => CStr(s)))
      case F64Kind => seq(|f64s|, i requires 0 <= i < |f64s| reads this => Wrap(f64s[i], t => CF64(t)))
      case I64Kind => seq(|i64s|, i requires 0 <= i < |i64s| reads this => Wrap(i64s[i], n => CI64(n)))
      case BoolKind => seq(|bools|, i requires 0 <= i < |bools| reads this => Wrap(bools[i], b => CBool(b)))
    }

    function View(): Col
      reads this
    {
      Col(name, kind, Cells())
    }

    constructor (n: string, k: ColKind)
      ensures View() == Col(n, k, [])
    {
      name := n;
      kind := k;
      strings, f64s, i64s, bools := [], [], [], [];
    }

    method Push(env: Env, v: Option<Cell>)
      modifies this
      ensures Cells() == old(Cells()) + [Coerce(env, if v.Some? then v.value else CNull, kind)]
    {
      hide StrOf, F64Of, I64Of, BoolOf;
      var cell := if v.Some? then v.value else CNull;
      match kind
      case StrKind => strings := strings + [StrOf(cell)];
      case F64Kind => f64s := f64s + [F64Of(env, cell)];
      case I64Kind => i64s := i64s + [I64Of(env, cell)];
      case BoolKind => bools := bools + [BoolOf(env, cell)];
    }

    function Len(): (n: nat)
      reads this
      ensures n == |Cells()|
    {
      match kind
      case StrKind => |strings|
      case F64Kind => |f64s|
      case I64Kind => |i64s|
      case BoolKind => |bools|
    }

    /** The cell of a row, absent if it is null or there is no such row. */
    function GetCell(i: nat): (c: Option<Cell>)
      reads this
      ensures c == if CellAt(Cells(), i).CNull? then None else Some(CellAt(Cells(), i))
    {
      match kind
      case StrKind => if i < |strings| && strings[i].Some? then Some(CStr(strings[i].value)) else None
      case F64Kind => if i < |f64s| && f64s[i].Some? then Some(CF64(f64s[i].value)) else None
      case I64Kind => if i < |i64s| && i64s[i].Some? then Some(CI64(i64s[i].value)) else None
      case BoolKind => if i < |bools| && bools[i].Some? then Some(CBool(bools[i].value)) else None
    }

    function CellStr(i: nat): (s: Option<string>)
      reads this
      ensures s == StrOf(CellAt(Cells(), i))
    {
      match GetCell(i)
      case None => None
      case Some(c) => StrOf(c)
    }

    method Gather(env: Env, rows: seq<nat>) returns (c: Column)
      ensures fresh(c) && c.View() == Col(name, kind, Gathered(Cells(), rows))
    {
      c := new Column(name, kind);
      for j := 0 to |rows|
        invariant fresh(c) && c.name == name && c.kind == kind && Cells() == old(Cells())
        invariant c.Cells() == Gathered(Cells(), rows[..j])
      {
        CoerceKeeps(env, CellAt(Cells(), rows[j]), kind);
        assert rows[..j + 1] == rows[..j] + [rows[j]];
        c.Push(env, GetCell(rows[j]));
      }
      assert rows[..|rows|] == rows;
    }

    method Clear()
      modifies this
      ensures Cells() == []
    {
      strings, f64s, i64s, bools := [], [], [], [];
    }
  }
}
