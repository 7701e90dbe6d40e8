/** What the filters of products mean, told on their texts. */
module PairTheorems {
  import opened Wrappers
  import opened Text
  import opened PairConditions
  import opened CompilerTheorems
  import opened ConditionTheorems

  /** What a side stands for: one of the two values, in lower case, or itself. */
  function Side(x: string, l: string, r: string): string {
    if Lower(x) == "l" then Lower(l) else if Lower(x) == "r" then Lower(r) else Lower(x)
  }

  // ----- comparisons -------------------------------------------------------------------------------

  /** Where the only equals sign of a text is that of the operator. */
  lemma OpFound(u: string, op: Op, v: string)
    requires '=' !in u && '!' !in u && '=' !in v
    ensures OpOf(u + OpText(op) + v) == Some(op) && FindText(u + OpText(op) + v, OpText(op)) == Some(|u|)
  {
    hide FindText;
    var t, w := u + OpText(op) + v, OpText(op);
    OnlyHere(u, op, v);
    FindsFirst(t, "!=");
    FindsFirst(t, "==");
    FindsFirst(t, "=");
  }

  lemma CharAt(u: string, w: string, v: string, i: nat)
    requires '=' !in u && '=' !in v && i < |u + w + v| && (u + w + v)[i] == '='
    ensures |u| <= i < |u| + |w| && w[i - |u|] == '='
  {
    WhichPart(u, w, v, i);
  }

  lemma WhichPart(u: string, w: string, v: string, i: nat)
    requires i < |u + w + v|
    ensures (u + w + v)[i] == if i < |u| then u[i] else if i < |u| + |w| then w[i - |u|] else v[i - |u| - |w|]
  {}

  lemma OnlyHere(u: string, op: Op, v: string)
    requires '=' !in u && '!' !in u && '=' !in v
    ensures var t := u + OpText(op) + v;
            && OccursAt(t, OpText(op), |u|)
            && (forall i: nat :: OccursAt(t, "!=", i) ==> op.Differs? && i == |u|)
            && (forall i: nat :: OccursAt(t, "==", i) ==> op.SameTwice? && i == |u|)
            && (forall i: nat :: OccursAt(t, "=", i) ==> i >= |u|)
  {
    var w := OpText(op);
    var t := u + w + v;
    assert t[|u|..|u| + |w|] == w;
    forall i: nat | OccursAt(t, "!=", i) ensures op.Differs? && i == |u| {
      assert t[i..i + 2][0] == t[i] == '!' && t[i..i + 2][1] == t[i + 1] == '=';
      WhichPart(u, w, v, i);
      CharAt(u, w, v, i + 1);
    }
    forall i: nat | OccursAt(t, "==", i) ensures op.SameTwice? && i == |u| {
      assert t[i..i + 2][0] == t[i] == '=' && t[i..i + 2][1] == t[i + 1] == '=';
      CharAt(u, w, v, i);
      CharAt(u, w, v, i + 1);
    }
    forall i: nat | OccursAt(t, "=", i) ensures i >= |u| {
      assert t[i..i + 1][0] == t[i] == '=';
      CharAt(u, w, v, i);
    }
  }

  predicate IsSide(x: string) { Tight(x) && '=' !in x && '!' !in x }

  lemma OpIsApart(b: string, op: Op, c: string)
    requires Blanks(b) && Blanks(c)
    ensures Apart(b + OpText(op) + c) && b + OpText(op) + c != ""
  {
    hide IsWs, InWord;
    BlanksAreApart(b);
    BlanksAreApart(c);
    var w := OpText(op);
    var x := b + w + c;
    SymbolsApart();
    forall k | 0 <= k < |x| ensures !InWord(LowerChar(x[k])) {
      assert k < |b| ==> x[k] == b[k];
      assert |b| <= k < |b| + |w| ==> x[k] == w[k - |b|];
      assert k >= |b| + |w| ==> x[k] == c[k - |b| - |w|];
    }
  }

  lemma SymbolsApart()
    ensures !InWord(LowerChar('=')) && !InWord(LowerChar('!'))
  {}

  lemma BlanksHaveNoSymbol(b: string)
    requires Blanks(b)
    ensures '=' !in b && '!' !in b
  {}

  /** The text without the blanks around it, and what is on each side of the operator. */
  lemma CompareParts(a: string, x: string, b: string, op: Op, c: string, y: string, d: string)
    requires Blanks(a) && Blanks(b) && Blanks(c) && Blanks(d) && IsSide(x) && IsSide(y)
    ensures var t := x + b + OpText(op) + (c + y);
            && Trim(a + t + d) == t && FindText(t, OpText(op)) == Some(|x + b|) && OpOf(t) == Some(op)
            && t[..|x + b|] == x + b && t[|x + b| + |OpText(op)|..] == c + y
            && Trim(x + b) == x && Trim(c + y) == y
  {
    hide FindText, Trim, Blanks, Tight, OpOf;
    var t := x + b + OpText(op) + (c + y);
    assert t == x + (b + OpText(op) + c) + y;
    TightOuter(x, b + OpText(op) + c, y);
    TrimAround(a, t, d);
    BlanksHaveNoSymbol(b);
    BlanksHaveNoSymbol(c);
    NoneInBoth(x, b);
    NoneInBoth(c, y);
    OpFound(x + b, op, c + y);
    TrimAfter(x, b);
    NoBlanks();
    TrimAround(c, y, "");
    assert c + y + "" == c + y;
  }

  lemma NoneInBoth(x: string, b: string)
    requires '=' !in x && '!' !in x && '=' !in b && '!' !in b
    ensures '=' !in x + b && '!' !in x + b
  {}

  lemma CompareNoWord(x: string, b: string, op: Op, c: string, y: string)
    requires Blanks(b) && Blanks(c) && NoWord(x) && NoWord(y)
    ensures FindText(Lower(x + b + OpText(op) + (c + y)), CONTAINS) == None
  {
    hide FindText, Lower, Blanks, NoWord, Apart;
    OpIsApart(b, op, c);
    NoWordAcross(x, b + OpText(op) + c, y);
    assert x + (b + OpText(op) + c) + y == x + b + OpText(op) + (c + y);
    NotFound(x + b + OpText(op) + (c + y));
  }

  /** `X op Y` compares what the sides stand for without regard to case; quotes
      are taken off the right side only. */
  lemma PairCompares(a: string, x: string, b: string, op: Op, c: string, y: string, d: string, l: string, r: string)
    requires Blanks(a) && Blanks(b) && Blanks(c) && Blanks(d) && IsSide(x) && IsSide(y) && NoWord(x) && NoWord(y)
    ensures var same := Side(x, l, r) == Side(Unquoted(y), l, r);
            PairCond(a + (x + b + OpText(op) + (c + y)) + d, l, r) <==> if op.Differs? then !same else same
  {
    hide FindText, Lower, Trim, Blanks, NoWord, Tight, OpOf, Unquoted, OpText, IsSide;
    var t := x + b + OpText(op) + (c + y);
    CompareParts(a, x, b, op, c, y, d);
    CompareNoWord(x, b, op, c, y);
    OpLowered(t);
  }

  lemma OpLowered(t: string)
    ensures OpOf(Lower(t)) == OpOf(t)
  {
    hide Lower, FindText;
    LowerKeepsSymbols(t, "!=");
    LowerKeepsSymbols(t, "==");
    LowerKeepsSymbols(t, "=");
  }

  /** A quoted text on the left keeps its quotes: compared to a value without
      quotes it is never the same, whatever is in it. */
  lemma LeftLiteralIsNever(a: string, q: string, b: string, c: string, d: string, l: string, r: string, twice: bool)
    requires Blanks(a) && Blanks(b) && Blanks(c) && Blanks(d) && IsSide("'" + q + "'") && NoWord("'" + q + "'")
    requires '\'' !in r
    ensures !PairCond(a + ("'" + q + "'" + b + OpText(if twice then SameTwice else Same) + (c + "r")) + d, l, r)
  {
    hide Blanks, NoWord, PairCond, Lower, IsSide, OpText;
    var x := "'" + q + "'";
    RIsSide();
    PairCompares(a, x, b, if twice then SameTwice else Same, c, "r", d, l, r);
    LowerStarts(x);
    NoQuoteLower(r);
  }

  lemma RIsSide()
    ensures IsSide("r") && NoWord("r") && Unquoted("r") == "r" && Lower("r") == "r"
  {
    assert "r"[1..] == "";
    assert |Lower("r")| == 1;
  }

  lemma LowerStarts(x: string)
    requires x != "" && x[0] == '\''
    ensures Lower(x) != "" && Lower(x)[0] == '\''
  {}

  lemma {:induction false} NoQuoteLower(r: string)
    requires '\'' !in r
    ensures '\'' !in Lower(r)
  {
    if r != "" { NoQuoteLower(r[1..]); }
  }

  // ----- occurrences ---------------------------------------------------------------------------------

  /** `X contains Y`, for X one of the values: what Y is without its quotes
      occurs in the value.  Any other left side lets every pair through. */
  lemma PairContains(a: string, x: string, b: string, word: string, c: string, y: string, d: string, l: string,
                     r: string)
    requires Blanks(a) && Blanks(b) && b != "" && Blanks(c) && Blanks(d) && Tight(x) && Tight(y)
    requires NoWord(x) && Lower(word) == CONTAINS
    ensures PairCond(a + (x + b + word + (c + y)) + d, l, r) <==>
              if Lower(x) == "l" then Occurs(l, Unquoted(y))
              else if Lower(x) == "r" then Occurs(r, Unquoted(y))
              else true
  {
    hide FindText, Lower, Trim, Blanks, NoWord, Tight, Unquoted, Occurs;
    var t := x + b + word + (c + y);
    ContainsParts(a, x, b, word, c, y, d);
    FoundIffOccurs(l, Unquoted(y));
    FoundIffOccurs(r, Unquoted(y));
  }

  lemma ContainsParts(a: string, x: string, b: string, word: string, c: string, y: string, d: string)
    requires Blanks(a) && Blanks(b) && b != "" && Blanks(c) && Blanks(d) && Tight(x) && Tight(y)
    requires NoWord(x) && Lower(word) == CONTAINS
    ensures var t, n := x + b + word + (c + y), |x| + |b|;
            && Trim(a + t + d) == t && FindText(Lower(t), CONTAINS) == Some(n) && n + |CONTAINS| <= |t|
            && Trim(t[..n]) == x && Trim(t[n + |CONTAINS|..]) == y
  {
    hide FindText, Lower, Trim, Blanks, NoWord, Tight;
    var t, n := x + b + word + (c + y), |x| + |b|;
    LowerLength(word);
    assert t == x + (b + word + c) + y;
    TightOuter(x, b + word + c, y);
    TrimAround(a, t, d);
    WordFound(x, b, word, c + y);
    assert t[..n] == x + b && t[n + |CONTAINS|..] == c + y;
    TrimAfter(x, b);
    NoBlanks();
    TrimAround(c, y, "");
    assert c + y + "" == c + y;
  }
}
