/** ETL expressions: the node tree, its printed text, and the grammar the
    compiler reads, as functions on the text that is left. */
module Expr {
  import opened Wrappers
  import opened Text

  datatype ColKind = StrKind | F64Kind | I64Kind | BoolKind

  datatype Seg = Key(name: string) | Idx(i: nat) | All

  // A float literal is held as its text: its value is not interpreted.
  datatype Lit = NullLit | BoolLit(b: bool) | I64Lit(i: int) | F64Lit(text: string) | StrLit(s: string)

  datatype Node =
    | Root
    | Task(segs: seq<Seg>)
    | Path(segs: seq<Seg>)
    | Literal(lit: Lit)
    | Coalesce(args: seq<Node>)
    | Cast(inner: Node, kind: ColKind)
    | ToJson(inner: Node)
    | CartProd(left: Node, right: Node, cond: Option<string>)
    | In(left: Node, right: Node)

  // ----- lexical pieces ----------------------------------------------------------------------

  predicate HasPrefix(s: string, p: string) { |p| <= |s| && s[..|p|] == p }

  /** `eat`: skip blanks, then take one given character if it is next. */
  function Eat(s: string, c: char): (r: (bool, string))
    ensures |r.1| <= |s| && (r.0 ==> |r.1| < |s|)
  {
    var t := SkipWs(s);
    if t != "" && t[0] == c then (true, t[1..]) else (false, t)
  }

  function TakeIdent(s: string): (r: (string, string))
    ensures r.0 + r.1 == s && |r.1| <= |s|
  {
    if s != "" && IsIdent(s[0]) then
      var (id, rest) := TakeIdent(s[1..]);
      ([s[0]] + id, rest)
    else ("", s)
  }

  function Ident(s: string): (r: (string, string))
    ensures |r.1| <= |s|
  {
    TakeIdent(SkipWs(s))
  }

  predicate IsSegStop(c: char) { c == '.' || c == '[' || c == ',' || c == '(' || c == ')' || IsWs(c) }

  function TakeSeg(s: string): (r: (string, string))
    ensures r.0 + r.1 == s && |r.1| <= |s|
    ensures forall i :: 0 <= i < |r.0| ==> !IsSegStop(r.0[i])
    ensures r.1 == "" || IsSegStop(r.1[0])
  {
    if s != "" && !IsSegStop(s[0]) then
      var (seg, rest) := TakeSeg(s[1..]);
      ([s[0]] + seg, rest)
    else ("", s)
  }

  /** The text up to a closing bracket, which is consumed if it is there. */
  function TakeBracket(s: string): (r: (string, string))
    ensures |r.1| <= |s|
  {
    if s == "" then ("", "")
    else if s[0] == ']' then ("", s[1..])
    else var (num, rest) := TakeBracket(s[1..]); ([s[0]] + num, rest)
  }

  function BracketSeg(num: string): seq<Seg> {
    if Trim(num) == "" then [All]
    else match ParseUsize(Trim(num))
         case Some(i) => [Idx(i)]
         case None => []
  }

  /** Trailing `.key`, `[idx]` and `[]` segments. */
  function PathSegs(s: string): (r: (seq<Seg>, string))
    ensures |r.1| <= |s|
    decreases |s|
  {
    var t := SkipWs(s);
    if t != "" && t[0] == '.' then
      var (seg, rest) := TakeSeg(t[1..]);
      var (segs, rest') := PathSegs(rest);
      ((if seg == "" then [] else [Key(seg)]) + segs, rest')
    else if t != "" && t[0] == '[' then
      var (num, rest) := TakeBracket(t[1..]);
      var (segs, rest') := PathSegs(rest);
      (BracketSeg(num) + segs, rest')
    else ([], t)
  }

  /** A quoted string after its opening quote; a backslash takes the next character as it is. */
  function TakeQuoted(s: string): (r: (string, string))
    ensures |r.1| <= |s|
    decreases |s|
  {
    if s == "" then ("", "")
    else if s[0] == '\'' then ("", s[1..])
    else if s[0] == '\\' then
      if |s| == 1 then ("", "")
      else var (q, rest) := TakeQuoted(s[2..]); ([s[1]] + q, rest)
    else var (q, rest) := TakeQuoted(s[1..]); ([s[0]] + q, rest)
  }

  predicate IsNumChar(c: char) { IsDigit(c) || c == '.' || c == '-' || c == 'e' || c == 'E' || c == '+' }

  function TakeNum(s: string): (r: (string, string))
    ensures r.0 + r.1 == s && |r.1| <= |s|
    ensures forall i :: 0 <= i < |r.0| ==> IsNumChar(r.0[i])
  {
    if s != "" && IsNumChar(s[0]) then
      var (num, rest) := TakeNum(s[1..]);
      ([s[0]] + num, rest)
    else ("", s)
  }

  predicate IsFloatText(num: string) { '.' in num || 'e' in num || 'E' in num }

  function NumLit(num: string): Lit {
    if num == "" then NullLit
    else if IsFloatText(num) then F64Lit(num)
    else match ParseI64(num)
         case Some(i) => I64Lit(i)
         case None => I64Lit(0)
  }

  function CastType(ty: string): (k: ColKind)
    ensures k != BoolKind
  {
    if ty == "double" || ty == "float" || ty == "decimal" then F64Kind
    else if ty == "integer" || ty == "int" || ty == "long" then I64Kind
    else StrKind
  }

  // ----- the grammar ---------------------------------------------------------------------------

  function PDollar(s: string): (r: (Node, string))
    ensures |r.1| <= |s|
  {
    var named := s != "" && (IsLetter(s[0]) || s[0] == '_');
    var (id, rest) := if named then Ident(s) else ("", s);
    var (segs, rest') := PathSegs(rest);
    if named && id == "task" then (Task(segs), rest')
    else if segs == [] then (Root, rest')
    else (Path(segs), rest')
  }

  function PAtom(s: string): (r: (Node, string))
    ensures |r.1| <= |s|
  {
    var t := SkipWs(s);
    if t == "" then (Literal(NullLit), t)
    else if t[0] == '$' then PDollar(t[1..])
    else if t[0] == '\'' then var (q, rest) := TakeQuoted(t[1..]); (Literal(StrLit(q)), rest)
    else if t[0] == 't' then var (id, rest) := Ident(t); (Literal(BoolLit(id == "true")), rest)
    else if t[0] == 'f' then (Literal(BoolLit(false)), Ident(t).1)
    else if t[0] == 'n' then (Literal(NullLit), Ident(t).1)
    else var (num, rest) := TakeNum(t); (Literal(NumLit(num)), rest)
  }

  const CAST := "cast("
  const TO_JSON := "to_json_string("
  const COALESCE := "coalesce("
  const CARTESIAN := "cartesian_product("

  function PExpr(s: string): (r: (Node, string))
    ensures |r.1| <= |s|
    decreases |s|, 0
  {
    var t := SkipWs(s);
    if HasPrefix(t, CAST) then PCast(t[|CAST|..])
    else if HasPrefix(t, TO_JSON) then PToJson(t[|TO_JSON|..])
    else if HasPrefix(t, COALESCE) then PCoalesce(t[|COALESCE|..])
    else if HasPrefix(t, CARTESIAN) then PCartesian(t[|CARTESIAN|..])
    else PAtom(t)
  }

  // The rest of each call form, after its opening parenthesis.

  function PCast(s: string): (r: (Node, string))
    ensures |r.1| <= |s|
    decreases |s|, 1
  {
    var (inner, r1) := PExpr(s);
    var (ty, r2) := Ident(Ident(r1).1);     // the word `as`, then the type
    (Cast(inner, CastType(Lower(ty))), Eat(r2, ')').1)
  }

  function PToJson(s: string): (r: (Node, string))
    ensures |r.1| <= |s|
    decreases |s|, 1
  {
    var (inner, r1) := PExpr(s);
    (ToJson(inner), Eat(r1, ')').1)
  }

  function PCoalesce(s: string): (r: (Node, string))
    ensures |r.1| <= |s|
    decreases |s|, 2
  {
    var (args, r1) := PArgs(s);
    (Coalesce(args), Eat(r1, ')').1)
  }

  function PCartesian(s: string): (r: (Node, string))
    ensures |r.1| <= |s|
    decreases |s|, 2
  {
    var (left, r1) := PExpr(s);
    var (right, r2) := PExpr(Eat(r1, ',').1);
    var (cond, r3) := PCond(r2);
    (CartProd(left, right, cond), Eat(r3, ')').1)
  }

  /** The optional third argument: only a string literal counts as a condition. */
  function PCond(s: string): (r: (Option<string>, string))
    ensures |r.1| <= |s|
    decreases |s|, 1
  {
    var (comma, r1) := Eat(s, ',');
    if comma then var (c, r2) := PExpr(r1); (CondOf(c), r2) else (None, r1)
  }

  function CondOf(n: Node): Option<string> {
    if n.Literal? && n.lit.StrLit? then Some(n.lit.s) else None
  }

  function PArgs(s: string): (r: (seq<Node>, string))
    ensures |r.1| <= |s| && r.0 != []
    decreases |s|, 1
  {
    var (v, r1) := PExpr(s);
    var (comma, r2) := Eat(r1, ',');
    if comma then var (vs, r3) := PArgs(r2); ([v] + vs, r3)
    else ([v], r2)
  }

  /** `in`, in either case, unless it starts a longer identifier. */
  function EatIn(s: string): (r: (bool, string))
    ensures |r.1| <= |s|
  {
    var t := SkipWs(s);
    if |t| >= 2 && LowerChar(t[0]) == 'i' && LowerChar(t[1]) == 'n' && (|t| == 2 || !IsIdent(t[2])) then (true, t[2..])
    else (false, t)
  }

  function PInClause(s: string): (r: (Node, string)) {
    var (left, r1) := PExpr(s);
    var (isIn, r2) := EatIn(r1);
    if isIn then var (right, r3) := PExpr(r2); (In(left, right), r3) else (left, r2)
  }

  function Compile(text: string): Node { PInClause(Trim(text)).0 }

  // ----- printing --------------------------------------------------------------------------------

  function PrintSeg(g: Seg): string {
    match g
    case Key(name) => "." + name
    case Idx(i) => "[" + Decimal(i) + "]"
    case All => "[]"
  }

  function PrintSegs(segs: seq<Seg>): string {
    if segs == [] then "" else PrintSeg(segs[0]) + PrintSegs(segs[1..])
  }

  function Quote(s: string): string {
    if s == "" then ""
    else (if s[0] == '\'' || s[0] == '\\' then ['\\', s[0]] else [s[0]]) + Quote(s[1..])
  }

  function PrintLit(l: Lit): string {
    match l
    case NullLit => "null"
    case BoolLit(b) => if b then "true" else "false"
    case I64Lit(i) => DecimalInt(i)
    case F64Lit(text) => text
    case StrLit(s) => "'" + Quote(s) + "'"
  }

  function KindName(k: ColKind): string {
    match k
    case F64Kind => "double"
    case I64Kind => "integer"
    case _ => "string"
  }

  function Print(n: Node): string {
    match n
    case Root => "$"
    case Task(segs) => "$task" + PrintSegs(segs)
    case Path(segs) => "$" + PrintSegs(segs)
    case Literal(l) => PrintLit(l)
    case Coalesce(args) => COALESCE + PrintArgs(args) + ")"
    case Cast(inner, kind) => CAST + Print(inner) + " as " + KindName(kind) + ")"
    case ToJson(inner) => TO_JSON + Print(inner) + ")"
    case CartProd(left, right, cond) =>
      CARTESIAN + Print(left) + "," + Print(right)
      + (match cond case None => "" case Some(c) => ",'" + Quote(c) + "'") + ")"
    case In(left, right) => Print(left) + " IN " + Print(right)
  }

  function PrintArgs(args: seq<Node>): string {
    if args == [] then ""
    else if |args| == 1 then Print(args[0])
    else Print(args[0]) + "," + PrintArgs(args[1..])
  }

  // ----- printable nodes ---------------------------------------------------------------------------

  predicate SegOk(g: Seg) {
    match g
    case Key(name) => name != "" && forall i :: 0 <= i < |name| ==> !IsSegStop(name[i])
    case Idx(i) => i <= USIZE_MAX
    case All => true
  }

  predicate SegsOk(segs: seq<Seg>) { forall i :: 0 <= i < |segs| ==> SegOk(segs[i]) }

  predicate LitOk(l: Lit) {
    match l
    case I64Lit(i) => InI64(i)
    case F64Lit(text) => IsFloatText(text) && forall i :: 0 <= i < |text| ==> IsNumChar(text[i])
    case _ => true
  }

  /** The nodes an operand can be: keys free of stop characters, numbers in range,
      casts to the three castable kinds, and no `IN` inside. */
  predicate Operand(n: Node) {
    match n
    case Root => true
    case Task(segs) => SegsOk(segs)
    case Path(segs) => segs != [] && SegsOk(segs)
    case Literal(l) => LitOk(l)
    case Coalesce(args) => args != [] && forall i :: 0 <= i < |args| ==> Operand(args[i])
    case Cast(inner, kind) => Operand(inner) && kind != BoolKind
    case ToJson(inner) => Operand(inner)
    case CartProd(left, right, _) => Operand(left) && Operand(right)
    case In(_, _) => false
  }

  predicate Printable(n: Node) {
    if n.In? then Operand(n.left) && Operand(n.right) else Operand(n)
  }

  // ----- the filter of a fanned-out pipeline --------------------------------------------------------

  /** The filter text injected into the datasets of each chunk's pipeline. */
  function FilterText(field: string): string { "$." + field + " IN $task.ctx.units" }

  function ChunkFilter(field: string): Node { In(Path([Key(field)]), Task([Key("ctx"), Key("units")])) }
}
