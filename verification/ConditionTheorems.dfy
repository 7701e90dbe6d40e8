/** What conditions of unwind rules mean, told on their texts. */
module ConditionTheorems {
  import opened Wrappers
  import opened Text
  import opened Expr
  import opened Walk
  import opened Evaluation
  import opened Conditions
  import opened CompilerTheorems

  /** The text does not hold the word `contains`, in any case. */
  ghost predicate NoWord(s: string) { forall i: nat :: !OccursAt(Lower(s), CONTAINS, i) }

  lemma TrimAround(b: string, s: string, c: string)
    requires Blanks(b) && Blanks(c) && Tight(s)
    ensures Trim(b + s + c) == s
  {
    assert b + s + c == b + (s + c);
    SkipBlanks(b, s + c);
    assert SkipWs(s + c) == s + c;
    EndBlanks(s, c);
  }

  lemma TrimAfter(s: string, c: string)
    requires Blanks(c) && Tight(s)
    ensures Trim(s + c) == s
  {
    TrimAround("", s, c);
    assert "" + s + c == s + c;
  }

  lemma NoBlanks()
    ensures Blanks("")
  {}

  // ----- the word ----------------------------------------------------------------------------------

  predicate InWord(c: char) { exists k :: 0 <= k < |CONTAINS| && CONTAINS[k] == c }

  /** Characters that are in no spelling of the word. */
  predicate Apart(x: string) { forall k :: 0 <= k < |x| ==> !InWord(LowerChar(x[k])) }

  lemma BlankIsApart(c: char)
    requires IsWs(c)
    ensures !InWord(LowerChar(c))
  {}

  lemma BlanksAreApart(b: string)
    requires Blanks(b)
    ensures Apart(b)
  {
    hide IsWs, InWord;
    forall k | 0 <= k < |b| ensures !InWord(LowerChar(b[k])) { BlankIsApart(b[k]); }
  }

  lemma OccursWithin(s: string, i: nat, p: nat)
    requires OccursAt(Lower(s), CONTAINS, i) && i <= p < i + |CONTAINS|
    ensures p < |s| && InWord(LowerChar(s[p]))
  {
    hide Lower, LowerChar;
    LowerLength(s);
    LowerAt(s, p);
    assert Lower(s)[p] == Lower(s)[i..i + |CONTAINS|][p - i] == CONTAINS[p - i];
  }

  /** An occurrence of the word does not reach over a character that is not in it. */
  lemma OccursOnOneSide(a: string, x: string, c: string, i: nat)
    requires x != "" && Apart(x) && OccursAt(Lower(a + x + c), CONTAINS, i)
    ensures i + |CONTAINS| <= |a| || i >= |a| + |x|
  {
    hide Lower, LowerChar;
    var s := a + x + c;
    LowerLength(s);
    if i + |CONTAINS| > |a| && i < |a| + |x| {
      var p := if i <= |a| then |a| else i;
      var k := p - |a|;
      assert s[p] == x[k];
      OccursWithin(s, i, p);
    }
  }

  lemma OccursLeft(u: string, v: string, word: string, i: nat)
    requires OccursAt(u + v, word, i) && i + |word| <= |u|
    ensures OccursAt(u, word, i)
  {
    assert (u + v)[i..i + |word|] == u[i..i + |word|];
  }

  lemma OccursRight(u: string, v: string, word: string, i: nat)
    requires OccursAt(u + v, word, i) && i >= |u|
    ensures OccursAt(v, word, i - |u|)
  {
    assert (u + v)[i..i + |word|] == v[i - |u|..i - |u| + |word|];
  }

  lemma OccursBefore(a: string, t: string, i: nat)
    requires OccursAt(Lower(a + t), CONTAINS, i) && i + |CONTAINS| <= |a|
    ensures OccursAt(Lower(a), CONTAINS, i)
  {
    hide Lower, OccursAt;
    LowerConcat(a, t);
    LowerLength(a);
    OccursLeft(Lower(a), Lower(t), CONTAINS, i);
  }

  lemma OccursAfter(a: string, t: string, i: nat)
    requires OccursAt(Lower(a + t), CONTAINS, i) && i >= |a|
    ensures OccursAt(Lower(t), CONTAINS, i - |a|)
  {
    hide Lower, OccursAt;
    LowerConcat(a, t);
    LowerLength(a);
    OccursRight(Lower(a), Lower(t), CONTAINS, i);
  }

  lemma NoWordAcross(a: string, x: string, c: string)
    requires NoWord(a) && NoWord(c) && x != "" && Apart(x)
    ensures NoWord(a + x + c)
  {
    hide Lower, OccursAt, Apart;
    forall i: nat ensures !OccursAt(Lower(a + x + c), CONTAINS, i) {
      if OccursAt(Lower(a + x + c), CONTAINS, i) {
        OccursOnOneSide(a, x, c, i);
        assert a + x + c == a + (x + c);
        if i + |CONTAINS| <= |a| { OccursBefore(a, x + c, i); } else { OccursAfter(a + x, c, i); }
      }
    }
  }

  /** The word after a text without it and a blank is where the search finds it. */
  lemma WordFound(a: string, b: string, word: string, t: string)
    requires NoWord(a) && b != "" && Blanks(b) && Lower(word) == CONTAINS
    ensures FindText(Lower(a + b + word + t), CONTAINS) == Some(|a| + |b|)
  {
    hide Lower, OccursAt, FindText, Blanks;
    var s, n := a + b + word + t, |a| + |b|;
    BlanksAreApart(b);
    LowerLength(word);
    assert OccursAt(Lower(s), CONTAINS, n) by { WordOccurs(a + b, word, t); }
    FindsFirst(Lower(s), CONTAINS);
    forall i: nat | i < n ensures !OccursAt(Lower(s), CONTAINS, i) {
      if OccursAt(Lower(s), CONTAINS, i) {
        assert s == a + b + (word + t);
        OccursOnOneSide(a, b, word + t, i);
        assert s == a + (b + word + t);
        OccursBefore(a, b + word + t, i);
      }
    }
  }

  lemma WordOccurs(a: string, word: string, t: string)
    requires Lower(word) == CONTAINS
    ensures OccursAt(Lower(a + word + t), CONTAINS, |a|)
  {
    hide Lower;
    LowerConcat(a + word, t);
    LowerConcat(a, word);
    LowerLength(a);
  }

  // ----- texts with `contains` -----------------------------------------------------------------------

  lemma TightOuter(a: string, t: string, c: string)
    requires Tight(a) && Tight(c)
    ensures Tight(a + t + c)
  {
    hide IsWs;
    var s := a + t + c;
    assert s[0] == a[0] && s[|s| - 1] == c[|c| - 1];
  }

  lemma ContainsParses(l: Node, b: string, word: string, c: string, r: Node)
    requires Operand(l) && Operand(r) && NoWord(Print(l))
    requires b != "" && Blanks(b) && Blanks(c) && Lower(word) == CONTAINS
    ensures ParseCond(Print(l) + b + word + c + Print(r)) == Contains(l, r)
  {
    hide Operand, Print, Compile, Lower, FindText, Trim, NoWord, Blanks, Tight;
    var a, d := Print(l), Print(r);
    OperandIsTight(l);
    OperandIsTight(r);
    LowerLength(word);
    var s := a + b + word + c + d;
    assert s == a + (b + word + c) + d;
    TightOuter(a, b + word + c, d);
    TightTrim(s);
    assert s == a + b + word + (c + d);
    WordFound(a, b, word, c + d);
    var n := |a| + |b|;
    assert s[..n] == a + b && s[n + |CONTAINS|..] == c + d;
    TrimAfter(a, b);
    NoBlanks();
    TrimAround(c, d, "");
    assert c + d + "" == c + d;
    OperandCompiles(l);
    OperandCompiles(r);
  }

  /** `L contains R`, the word in any case, holds exactly when both sides are
      texts and the right one occurs somewhere in the left one. */
  lemma ContainsMeans(env: Env, l: Node, b: string, word: string, c: string, r: Node, ctx: Ctx)
    requires Operand(l) && Operand(r) && NoWord(Print(l))
    requires b != "" && Blanks(b) && Blanks(c) && Lower(word) == CONTAINS
    ensures var x, y := Eval(env, l, ctx), Eval(env, r, ctx);
            Holds(env, Print(l) + b + word + c + Print(r), ctx) <==>
              x.LStr? && y.LStr? && Occurs(x.s, y.s)
  {
    hide Operand, Print, Eval, ParseCond, NoWord, Lower, Blanks, Decides;
    ContainsParses(l, b, word, c, r);
    ContainsDecides(env, l, r, ctx);
  }

  lemma ContainsDecides(env: Env, l: Node, r: Node, ctx: Ctx)
    ensures var x, y := Eval(env, l, ctx), Eval(env, r, ctx);
            Decides(env, Contains(l, r), ctx) <==> x.LStr? && y.LStr? && Occurs(x.s, y.s)
  {
    hide Eval, Occurs;
    var x, y := Eval(env, l, ctx), Eval(env, r, ctx);
    if x.LStr? && y.LStr? { FoundIffOccurs(x.s, y.s); }
  }

  // ----- texts with an equals sign ---------------------------------------------------------------------

  lemma {:induction false} FirstEquals(a: string, t: string)
    requires '=' !in a
    ensures FindText(a + "=" + t, "=") == Some(|a|)
  {
    var s := a + "=" + t;
    if a == "" {
      assert s[..1] == "=";
    } else {
      assert s[1..] == a[1..] + "=" + t && s[..1][0] == a[0];
      FirstEquals(a[1..], t);
    }
  }

  lemma NotInBlanks(a: string, b: string)
    requires '=' !in a && Blanks(b)
    ensures '=' !in a + b
  {}

  lemma EqualsApart(b: string, c: string)
    requires Blanks(b) && Blanks(c)
    ensures Apart(b + "=" + c)
  {
    hide IsWs, InWord;
    BlanksAreApart(b);
    BlanksAreApart(c);
    var x := b + "=" + c;
    forall k | 0 <= k < |x| ensures !InWord(LowerChar(x[k])) {
      if k == |b| { EqualsIsApart(); }
      assert k < |b| ==> x[k] == b[k];
      assert k > |b| ==> x[k] == c[k - |b| - 1];
    }
  }

  lemma EqualsIsApart()
    ensures !InWord(LowerChar('='))
  {}

  lemma EqualsParses(l: Node, b: string, c: string, r: Node)
    requires Operand(l) && Operand(r) && NoWord(Print(l)) && NoWord(Print(r)) && '=' !in Print(l)
    requires Blanks(b) && Blanks(c)
    ensures ParseCond(Print(l) + b + "=" + c + Print(r)) == Equals(l, r)
  {
    hide Operand, Print, Compile, Lower, FindText, Trim, NoWord, Blanks, Tight, Apart;
    var a, d := Print(l), Print(r);
    OperandIsTight(l);
    OperandIsTight(r);
    var s := a + b + "=" + c + d;
    assert s == a + (b + "=" + c) + d;
    TightOuter(a, b + "=" + c, d);
    TightTrim(s);
    EqualsApart(b, c);
    NoWordAcross(a, b + "=" + c, d);
    NotFound(s);
    NotInBlanks(a, b);
    FirstEquals(a + b, c + d);
    assert s == a + b + "=" + (c + d);
    var n := |a + b|;
    assert s[..n] == a + b && s[n + 1..] == c + d;
    TrimAfter(a, b);
    NoBlanks();
    TrimAround(c, d, "");
    assert c + d + "" == c + d;
    OperandCompiles(l);
    OperandCompiles(r);
  }

  lemma NotFound(s: string)
    requires NoWord(s)
    ensures FindText(Lower(s), CONTAINS) == None
  {
    hide Lower, OccursAt, FindText;
    FindsFirst(Lower(s), CONTAINS);
  }

  /** A text that reads as the integer or float of the other side. */
  predicate TextReads(env: Env, x: LazyVal, y: LazyVal) {
    && x.LStr?
    && match y
       case LI64(i) => ParseI64(x.s) == Some(i)
       case LF64(f) => env.parseFloat(Trim(x.s)).Some? && env.sameFloat(env.parseFloat(Trim(x.s)).value, f)
       case _ => false
  }

  /** `L = R` holds exactly when both sides are the same text, integer or boolean
      or equal floats, or one is a text that reads as the number on the other. */
  lemma EqualsMeans(env: Env, l: Node, b: string, c: string, r: Node, ctx: Ctx)
    requires Operand(l) && Operand(r) && NoWord(Print(l)) && NoWord(Print(r)) && '=' !in Print(l)
    requires Blanks(b) && Blanks(c)
    ensures var x, y := Eval(env, l, ctx), Eval(env, r, ctx);
            Holds(env, Print(l) + b + "=" + c + Print(r), ctx) <==>
              || (x == y && (x.LStr? || x.LI64? || x.LBool?))
              || (x.LF64? && y.LF64? && env.sameFloat(x.text, y.text))
              || TextReads(env, x, y)
              || TextReads(env, y, x)
  {
    hide Operand, Print, Eval, ParseCond, NoWord, Lower, Blanks, Trim, ParseI64;
    EqualsParses(l, b, c, r);
  }

  // ----- a leading blank --------------------------------------------------------------------------------

  /** Text that starts with the end of the word compiles to no text. */
  lemma TailIsNoText(env: Env, s: string, ctx: Ctx)
    requires s != "" && InWord(LowerChar(s[0])) && !IsWs(s[0])
    requires !HasPrefix(s, CAST) && !HasPrefix(s, TO_JSON) && !HasPrefix(s, COALESCE) && !HasPrefix(s, CARTESIAN)
    ensures !Eval(env, PInClause(s).0, ctx).LStr?
  {
    hide EvalVec, PathSegs, Ident, EatIn, ScalarText, TakeNum;
    assert SkipWs(s) == s;
    AtomIsLiteral(s);
  }

  lemma AtomIsLiteral(s: string)
    requires s != "" && InWord(LowerChar(s[0])) && !IsWs(s[0])
    ensures PAtom(s).0.Literal? && (PAtom(s).0.lit.NullLit? || PAtom(s).0.lit.BoolLit?)
  {
    hide Ident;
    assert SkipWs(s) == s;
    assert !IsNumChar(s[0]);
  }

  lemma LowerTail(word: string, i: nat)
    requires Lower(word) == CONTAINS && i < |CONTAINS|
    ensures |word| == |CONTAINS| && forall j :: i <= j < |word| ==> LowerChar(word[j]) == CONTAINS[j]
  {
    hide LowerChar;
    LowerLength(word);
    forall j | i <= j < |word| ensures LowerChar(word[j]) == CONTAINS[j] { LowerAt(word, j); }
  }

  /** No end of the word starts one of the call forms. */
  lemma TailIsNoCall(word: string, i: nat, t: string)
    requires Lower(word) == CONTAINS && i < |CONTAINS| == |word|
    ensures var s := word[i..] + t;
            && s[0] == word[i] && InWord(LowerChar(s[0])) && !IsWs(s[0])
            && !HasPrefix(s, CAST) && !HasPrefix(s, TO_JSON) && !HasPrefix(s, COALESCE) && !HasPrefix(s, CARTESIAN)
  {
    hide Lower;
    LowerTail(word, i);
    var s := word[i..] + t;
    assert InWord(CONTAINS[i]);
    assert s[0] == word[i];
    hide HasPrefix;
    if i == 0 {
      assert s[1] == word[1] && s[2] == word[2];
      OtherStart(s, CAST, 1);
      OtherStart(s, CARTESIAN, 1);
      OtherStart(s, COALESCE, 2);
    } else {
      OtherStart(s, CAST, 0);
      OtherStart(s, CARTESIAN, 0);
      OtherStart(s, COALESCE, 0);
    }
    if i == 3 {
      assert s[1] == word[4];
      OtherStart(s, TO_JSON, 1);
    } else {
      OtherStart(s, TO_JSON, 0);
    }
  }

  /** The place of the word is looked up in the trimmed text, but the text is cut
      untrimmed: with up to eight blanks in front, what is taken for the right
      side starts inside the word. */
  lemma LeadingBlankCut(d: string, l: Node, b: string, word: string, c: string, r: Node)
    requires Operand(l) && Operand(r) && NoWord(Print(l)) && Blanks(d) && 1 <= |d| <= |CONTAINS|
    requires b != "" && Blanks(b) && Blanks(c) && Lower(word) == CONTAINS
    ensures |word| == |CONTAINS|
    ensures var p := ParseCond(d + (Print(l) + b + word + c + Print(r)));
            p.Contains? && p.right == PInClause(word[|CONTAINS| - |d|..] + (c + Print(r))).0
  {
    hide Operand, Print, PInClause, Lower, FindText, Trim, NoWord, Blanks, Tight, HasPrefix, InWord, Lowered, IsWs;
    hide ParseCond, Operand;
    var a, e := Print(l), Print(r);
    OperandIsTight(l);
    OperandIsTight(r);
    LowerLength(word);
    CutText(d, a, b, word, c, e);
    TailTrims(word, |CONTAINS| - |d|, c, e);
  }

  lemma CutText(d: string, a: string, b: string, word: string, c: string, e: string)
    requires Tight(a) && Tight(e) && NoWord(a) && Blanks(d) && 1 <= |d| <= |CONTAINS| == |word|
    requires b != "" && Blanks(b) && Lower(word) == CONTAINS
    ensures var p := ParseCond(d + (a + b + word + c + e));
            p.Contains? && p.right == PInClause(Trim(Trim(word[|CONTAINS| - |d|..] + (c + e)))).0
  {
    hide ParseCond, PInClause, Lower, Lowered, FindText, Trim, NoWord, Blanks, Tight, IsWs;
    LoweredPast(d, a, b, word, c, e);
    CutInside(d, a, b, word, c, e);
    CutAt(d + (a + b + word + c + e), |a| + |b|, word[|CONTAINS| - |d|..] + (c + e));
  }

  lemma TailTrims(word: string, k: nat, c: string, e: string)
    requires Tight(e) && Lower(word) == CONTAINS && k < |CONTAINS| == |word|
    ensures Trim(Trim(word[k..] + (c + e))) == word[k..] + (c + e)
  {
    hide Lower, Trim, Tight, HasPrefix, InWord, IsWs;
    TailIsNoCall(word, k, c + e);
    assert (word[k..] + (c + e))[0] == word[k..][0] == word[k];
    TailIsTight(word[k..], c, e);
    TightTrim(word[k..] + (c + e));
  }

  lemma CutAt(cond: string, n: nat, tail: string)
    requires FindText(Lowered(cond), CONTAINS) == Some(n) && n + |CONTAINS| <= |cond|
    requires cond[n + |CONTAINS|..] == tail
    ensures var p := ParseCond(cond); p.Contains? && p.right == PInClause(Trim(Trim(tail))).0
  {
    hide PInClause, Lowered, FindText, Trim;
  }

  lemma LoweredPast(d: string, a: string, b: string, word: string, c: string, e: string)
    requires Blanks(d) && Tight(a) && Tight(e) && NoWord(a)
    requires b != "" && Blanks(b) && Lower(word) == CONTAINS
    ensures FindText(Lowered(d + (a + b + word + c + e)), CONTAINS) == Some(|a| + |b|)
  {
    hide Lower, FindText, Trim, NoWord, Blanks, Tight;
    var s := a + b + word + c + e;
    assert s == a + (b + word + c) + e;
    TightOuter(a, b + word + c, e);
    NoBlanks();
    TrimAround(d, s, "");
    assert d + s + "" == d + s;
    assert s == a + b + word + (c + e);
    WordFound(a, b, word, c + e);
  }

  lemma CutInside(d: string, a: string, b: string, word: string, c: string, e: string)
    requires |word| == |CONTAINS| >= |d|
    ensures (d + (a + b + word + c + e))[|a| + |b| + |CONTAINS|..] == word[|CONTAINS| - |d|..] + (c + e)
  {}

  lemma TailIsTight(w: string, c: string, e: string)
    requires w != "" && !IsWs(w[0]) && Tight(e)
    ensures Tight(w + (c + e))
  {
    hide IsWs;
    var s := w + (c + e);
    assert s[|s| - 1] == e[|e| - 1];
  }

  /** So a `contains` condition written with one to eight blanks in front never
      holds, whatever its sides are. */
  lemma LeadingBlankNeverHolds(env: Env, d: string, l: Node, b: string, word: string, c: string, r: Node, ctx: Ctx)
    requires Operand(l) && Operand(r) && NoWord(Print(l)) && Blanks(d) && 1 <= |d| <= |CONTAINS|
    requires b != "" && Blanks(b) && Blanks(c) && Lower(word) == CONTAINS
    ensures !Holds(env, d + (Print(l) + b + word + c + Print(r)), ctx)
  {
    hide Operand, Print, PInClause, Lower, NoWord, Blanks, HasPrefix, InWord, Eval, ParseCond;
    LeadingBlankCut(d, l, b, word, c, r);
    var k := |CONTAINS| - |d|;
    TailIsNoCall(word, k, c + Print(r));
    TailIsNoText(env, word[k..] + (c + Print(r)), ctx);
  }
}
