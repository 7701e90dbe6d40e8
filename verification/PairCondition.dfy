/** The filter of a product: which pairs of values it lets through. */
module PairConditions {
  import opened Wrappers
  import opened Text

  predicate IsQuote(c: char) { c == '\'' }

  function SkipQuotes(s: string): (r: string)
    ensures |r| <= |s|
  {
    if s != "" && IsQuote(s[0]) then SkipQuotes(s[1..]) else s
  }

  function EndQuotes(s: string): string {
    if s != "" && IsQuote(s[|s| - 1]) then EndQuotes(s[..|s| - 1]) else s
  }

  /** Single quotes are taken off both ends. */
  function Unquoted(s: string): string { EndQuotes(SkipQuotes(s)) }

  // The comparison a condition makes, by the operator found first in this order.
  datatype Op = Differs | SameTwice | Same

  function OpText(op: Op): string { match op case Differs => "!=" case SameTwice => "==" case Same => "=" }

  function OpOf(lower: string): Option<Op> {
    if FindText(lower, "!=").Some? then Some(Differs)
    else if FindText(lower, "==").Some? then Some(SameTwice)
    else if FindText(lower, "=").Some? then Some(Same)
    else None
  }

  /** What a side of a comparison stands for: one of the two values, or itself. */
  function SideOf(side: string, l: string, r: string): string {
    if side == "l" then Lower(l) else if side == "r" then Lower(r) else side
  }

  function Compared(t: string, op: Op, idx: nat, l: string, r: string): bool
    requires idx + |OpText(op)| <= |t|
  {
    var a := Lower(Trim(t[..idx]));
    var b := Lower(Unquoted(Trim(t[idx + |OpText(op)|..])));
    if op.Differs? then SideOf(a, l, r) != SideOf(b, l, r) else SideOf(a, l, r) == SideOf(b, l, r)
  }

  /** Whether the pair of `l` and `r` passes; a text that is no condition passes all. */
  function PairCond(cond: string, l: string, r: string): bool {
    var t := Trim(cond);
    LowerLength(t);
    match FindText(Lower(t), CONTAINS)
    case Some(i) =>
      var pre, post := Lower(Trim(t[..i])), Unquoted(Trim(t[i + |CONTAINS|..]));
      if pre == "l" then FindText(l, post).Some?
      else if pre == "r" then FindText(r, post).Some?
      else true
    case None =>
      match OpOf(Lower(t))
      case None => true
      case Some(op) =>
        OpIsThere(t);
        Compared(t, op, FindText(t, OpText(op)).value, l, r)
  }

  predicate NoLetter(w: string) { forall k :: 0 <= k < |w| ==> LowerChar(w[k]) == w[k] && !('a' <= w[k] <= 'z') }

  /** Lowering a text neither makes nor moves an operator. */
  lemma {:induction false} LowerKeepsSymbols(t: string, w: string)
    requires NoLetter(w)
    ensures FindText(Lower(t), w) == FindText(t, w)
    decreases |t|
  {
    LowerLength(t);
    if |t| >= |w| {
      assert Lower(t)[..|w|] == w <==> t[..|w|] == w by { LowerPrefix(t, w); }
      if t != "" { LowerKeepsSymbols(t[1..], w); }
    }
  }

  lemma LowerPrefix(t: string, w: string)
    requires NoLetter(w) && |t| >= |w|
    ensures |Lower(t)| == |t| && (Lower(t)[..|w|] == w <==> t[..|w|] == w)
  {
    hide Lower, LowerChar;
    LowerLength(t);
    forall k | 0 <= k < |w| ensures Lower(t)[k] == w[k] <==> t[k] == w[k] {
      LowerAt(t, k);
      SymbolChar(t[k], w[k]);
    }
    if Lower(t)[..|w|] == w { assert forall k :: 0 <= k < |w| ==> Lower(t)[..|w|][k] == w[k]; }
    if t[..|w|] == w { assert forall k :: 0 <= k < |w| ==> t[..|w|][k] == w[k]; }
  }

  lemma SymbolChar(c: char, d: char)
    requires LowerChar(d) == d && !('a' <= d <= 'z')
    ensures LowerChar(c) == d <==> c == d
  {}

  lemma OpIsThere(t: string)
    ensures OpOf(Lower(t)).Some? ==>
        var op := OpOf(Lower(t)).value; FindText(t, OpText(op)).Some? && OpOf(t) == Some(op)
  {
    hide Lower, FindText;
    LowerKeepsSymbols(t, "!=");
    LowerKeepsSymbols(t, "==");
    LowerKeepsSymbols(t, "=");
  }
}
