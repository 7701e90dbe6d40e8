/** Spellings that make no difference to what a text compiles to. */
module SpellingTheorems {
  import opened Wrappers
  import opened Text
  import opened Expr
  import opened Walk
  import opened Evaluation
  import opened CompilerTheorems
  import opened ConditionTheorems

  // ----- blanks ------------------------------------------------------------------------------------

  /** Blanks before a token are skipped, whatever is to be read next. */
  lemma BlanksBeforeTokens(b: string, s: string, c: char)
    requires Blanks(b)
    ensures PExpr(b + s) == PExpr(s) && PInClause(b + s) == PInClause(s) && PArgs(b + s) == PArgs(s)
    ensures Eat(b + s, c) == Eat(s, c) && Ident(b + s) == Ident(s) && EatIn(b + s) == EatIn(s)
    ensures PathSegs(b + s) == PathSegs(s) && PCond(b + s) == PCond(s)
    ensures Compile(b + s) == Compile(s)
  {
    hide SkipWs, PAtom, PCast, PToJson, PCoalesce, PCartesian, HasPrefix, Blanks;
    SkipBlanks(b, s);
    ExprBlanks(b + s, s);
    PathBlanks(b + s, s);
  }

  lemma ExprBlanks(s: string, t: string)
    requires SkipWs(s) == SkipWs(t)
    ensures PExpr(s) == PExpr(t)
  {
    hide SkipWs, PAtom, PCast, PToJson, PCoalesce, PCartesian, HasPrefix;
  }

  lemma PathBlanks(s: string, t: string)
    requires SkipWs(s) == SkipWs(t)
    ensures PathSegs(s) == PathSegs(t)
  {
    hide SkipWs, TakeSeg, TakeBracket, BracketSeg;
  }

  // ----- casts -----------------------------------------------------------------------------------------

  predicate IsWord(w: string) { w != "" && forall i :: 0 <= i < |w| ==> IsLetter(w[i]) }

  lemma BlankIsNoIdent(c: char)
    requires IsWs(c) || c == ')'
    ensures !IsIdent(c)
  {}

  lemma LetterIsIdent(c: char)
    requires IsLetter(c)
    ensures IsIdent(c) && !IsWs(c)
  {}

  /** A word between blanks is read as an identifier, up to what ends it. */
  lemma WordRead(b: string, w: string, t: string)
    requires Blanks(b) && IsWord(w) && t != "" && (IsWs(t[0]) || t[0] == ')')
    ensures Ident(b + (w + t)) == (w, t)
  {
    hide IsWs, IsLetter, IsIdent, TakeIdent, SkipWs, Blanks;
    forall i | 0 <= i < |w| ensures IsIdent(w[i]) && !IsWs(w[i]) { LetterIsIdent(w[i]); }
    BlankIsNoIdent(t[0]);
    SkipBlanks(b, w + t);
    assert (w + t)[0] == w[0];
    SkipsNothing(w + t);
    TakeIdentStops(w, t);
  }

  lemma SpacedIsSafe(b: string, w: string, t: string)
    requires Blanks(b) && IsWord(w)
    ensures SafeTail(" " + b + (w + t)) && SkipWs(" " + b + (w + t)) == w + t
  {
    hide SkipWs, IsWs;
    BlankIsWs();
    LetterIsIdent(w[0]);
    assert Blanks(" " + b);
    SkipBlanks(" " + b, w + t);
    assert (w + t)[0] == w[0];
    SkipsNothing(w + t);
    LetterIsNoSegment(w[0]);
  }

  lemma LetterIsNoSegment(c: char)
    requires IsLetter(c)
    ensures c != '.' && c != '['
  {}

  predicate FloatName(w: string) { w == "double" || w == "float" || w == "decimal" }

  predicate IntegerName(w: string) { w == "integer" || w == "int" || w == "long" }

  lemma NamesAre(ty: string)
    ensures CastType(Lower(ty)) ==
            if FloatName(Lower(ty)) then F64Kind else if IntegerName(Lower(ty)) then I64Kind else StrKind
  {
    hide Lower;
  }

  /** A cast compiles to the same whatever blanks are in it, whatever word stands
      for `as`, and by whichever of its names and in whichever case the type is
      called; a type it does not know is a text. */
  lemma CastSpelling(n: Node, a: string, b: string, word: string, c: string, ty: string, d: string)
    requires Operand(n) && Blanks(a) && Blanks(b) && Blanks(c) && Blanks(d) && c != "" && IsWord(word) && IsWord(ty)
    ensures Compile("cast(" + (a + (Print(n) + (" " + b + (word + (c + (ty + (d + ")"))))))))
         == Cast(n, if FloatName(Lower(ty)) then F64Kind else if IntegerName(Lower(ty)) then I64Kind else StrKind)
  {
    hide Operand, Print, PExpr, Blanks, IsWord, Lower, CastType, Ident, SafeTail, SkipWs, Trim, FloatName, IntegerName;
    var last := d + ")";
    var v := c + (ty + last);
    var inner := a + (Print(n) + (" " + b + (word + v)));
    CastTight(inner, a, Print(n), b, word, c, ty, d);
    CallStart(CAST, inner);
    CastInner(n, a, b, word, v);
    WordsRead(word, c, ty, d);
    EatAfter(PExpr(inner).1, word + v, ',');
    NamesAre(ty);
    CloseRead(d);
    NoInAtEnd("");
  }

  /** The operand of the cast is read back, up to the word. */
  lemma CastInner(n: Node, a: string, b: string, word: string, v: string)
    requires Operand(n) && Blanks(a) && Blanks(b) && IsWord(word)
    ensures var r := PExpr(a + (Print(n) + (" " + b + (word + v))));
            r.0 == n && SkipWs(r.1) == SkipWs(word + v)
  {
    hide Operand, Print, PExpr, Blanks, IsWord, SafeTail, SkipWs;
    var t := " " + b + (word + v);
    SpacedIsSafe(b, word, v);
    OperandBack(n, t);
    BlanksBeforeTokens(a, Print(n) + t, ',');
    WordSkips(word, v);
  }

  lemma WordSkips(word: string, v: string)
    requires IsWord(word)
    ensures SkipWs(word + v) == word + v
  {
    LetterIsIdent(word[0]);
    assert (word + v)[0] == word[0];
    SkipsNothing(word + v);
  }

  /** The word and the type are read one after the other. */
  lemma WordsRead(word: string, c: string, ty: string, d: string)
    requires Blanks(c) && c != "" && Blanks(d) && IsWord(word) && IsWord(ty)
    ensures var v := c + (ty + (d + ")"));
            Ident(word + v) == (word, v) && Ident(v) == (ty, d + ")")
  {
    hide Ident, IsWord, IsWs;
    var last := d + ")";
    var v := c + (ty + last);
    NoBlanks();
    assert v[0] == c[0];
    WordRead("", word, v);
    assert "" + (word + v) == word + v;
    assert d != "" ==> last[0] == d[0];
    WordRead(c, ty, last);
  }

  lemma CloseRead(d: string)
    requires Blanks(d)
    ensures Eat(d + ")", ')') == (true, "")
  {
    hide SkipWs, Blanks;
    BlanksBeforeTokens(d, ")", ')');
    ClosingIsNoBlank();
    EatNext(')', "");
    assert ")" + "" == ")";
  }

  lemma ClosingIsNoBlank()
    ensures !IsWs(')') && !IsWs('c')
  {}

  lemma CastTight(inner: string, a: string, p: string, b: string, word: string, c: string, ty: string, d: string)
    requires inner == a + (p + (" " + b + (word + (c + (ty + (d + ")"))))))
    ensures Trim(CAST + inner) == CAST + inner
  {
    hide Trim;
    var s := CAST + inner;
    ClosingIsNoBlank();
    assert s[0] == 'c' && s[|s| - 1] == ')';
    TightTrim(s);
  }

  // ----- membership ----------------------------------------------------------------------------------------

  /** `in` may be written in any case, between any blanks. */
  lemma InSpelling(l: Node, b: string, i: char, n: char, c: string, r: Node)
    requires Operand(l) && Operand(r) && Blanks(b) && Blanks(c) && c != ""
    requires LowerChar(i) == 'i' && LowerChar(n) == 'n'
    ensures Compile(Print(l) + (" " + b + ([i, n] + (c + Print(r))))) == In(l, r)
  {
    hide Operand, Print, PExpr, Blanks, SafeTail, SkipWs, Trim, EatIn;
    var t := " " + b + ([i, n] + (c + Print(r)));
    var s := Print(l) + t;
    OperandIsTight(l);
    OperandIsTight(r);
    assert s[0] == Print(l)[0] && s[|s| - 1] == Print(r)[|Print(r)| - 1];
    TightTrim(s);
    LettersOfIn(i, n);
    SpacedIsSafe(b, [i, n], c + Print(r));
    OperandBack(l, t);
    InRead(i, n, c, Print(r));
    WordSkips([i, n], c + Print(r));
    EatAfter(PExpr(s).1, [i, n] + (c + Print(r)), ',');
    BlanksBeforeTokens(c, Print(r), ',');
    NothingIsSafe();
    OperandBack(r, "");
    assert Print(r) + "" == Print(r);
  }

  lemma NothingIsSafe()
    ensures SafeTail("")
  {}

  lemma LettersOfIn(i: char, n: char)
    requires LowerChar(i) == 'i' && LowerChar(n) == 'n'
    ensures IsWord([i, n])
  {}

  lemma InRead(i: char, n: char, c: string, u: string)
    requires LowerChar(i) == 'i' && LowerChar(n) == 'n' && Blanks(c) && c != ""
    ensures EatIn([i, n] + (c + u)) == (true, c + u)
  {
    hide SkipWs, IsWs;
    var t := [i, n] + (c + u);
    assert t[0] == i && t[1] == n && t[2] == c[0] && t[2..] == c + u;
    LettersOfIn(i, n);
    WordSkips([i, n], c + u);
    BlankIsNoIdent(c[0]);
  }

  // ----- pair filters ---------------------------------------------------------------------------------------

  /** The third argument of a product filters its pairs if it is a quoted text,
      and any other is read and dropped. */
  lemma ThirdArgument(l: Node, r: Node, c: Node)
    requires Operand(l) && Operand(r) && Operand(c)
    ensures Compile("cartesian_product(" + (Print(l) + ("," + (Print(r) + ("," + (Print(c) + ")"))))))
         == CartProd(l, r, if c.Literal? && c.lit.StrLit? then Some(c.lit.s) else None)
  {
    hide Operand, Print, PExpr, Eat, SafeTail, SkipWs, Trim, EatIn;
    var third := Print(c) + ")";
    var right := Print(r) + ("," + third);
    var rest := Print(l) + ("," + right);
    var s := CARTESIAN + rest;
    assert s[0] == 'c' && s[|s| - 1] == ')';
    TightTrim(s);
    assert ")" + "" == ")";
    Tails("");
    Tails(third);
    Tails(right);
    OperandBack(l, "," + right);
    OperandBack(r, "," + third);
    OperandBack(c, ")");
    CallStart(CARTESIAN, rest);
    CommaAfter(PExpr(rest).1, right);
    CommaAfter(PExpr(right).1, third);
    CloseAfter(PExpr(third).1, "");
    NoInAtEnd("");
  }

  // ----- literals ----------------------------------------------------------------------------------------------

  /** What a literal is worth: a numeral its integer, a quoted text the text, the
      words true, false and null themselves, and a float what it is parsed to,
      or 0 if it is not parsed. */
  lemma LiteralsMean(env: Env, ctx: Ctx, i: int, q: string, f: string)
    requires InI64(i) && LitOk(F64Lit(f))
    ensures Eval(env, Compile(DecimalInt(i)), ctx) == LI64(i)
    ensures Eval(env, Compile("'" + Quote(q) + "'"), ctx) == LStr(q)
    ensures Eval(env, Compile("true"), ctx) == LBool(true) && Eval(env, Compile("false"), ctx) == LBool(false)
    ensures Eval(env, Compile("null"), ctx) == LNull
    ensures Eval(env, Compile(f), ctx) == LF64(match env.parseFloat(f) case Some(x) => x case None => "0")
  {
    hide Compile, DecimalInt, Quote, InI64;
    LiteralCompiles(I64Lit(i));
    LiteralCompiles(StrLit(q));
    LiteralCompiles(BoolLit(true));
    LiteralCompiles(BoolLit(false));
    LiteralCompiles(NullLit);
    LiteralCompiles(F64Lit(f));
  }

  lemma LiteralCompiles(l: Lit)
    requires LitOk(l)
    ensures Compile(PrintLit(l)) == Literal(l)
  {
    hide Compile, PrintLit, LitOk;
    LiteralText(l);
    OperandCompiles(Literal(l));
  }

  /** A numeral that does not fit into 64 bits counts as 0. */
  lemma WideNumeralIsZero(i: int)
    requires !InI64(i)
    ensures Compile(DecimalInt(i)) == Literal(I64Lit(0))
  {
    hide SkipWs, Trim, PExpr, IsFloatText, ParseI64, EatIn;
    var w := DecimalInt(i);
    WideNumeral(i);
    NumIsTight(w);
    TightTrim(w);
    assert w + "" == w;
    NumRead(w);
    NoInAtEnd("");
  }

  lemma WideNumeral(i: int)
    requires !InI64(i)
    ensures var w := DecimalInt(i);
            w != "" && (forall k :: 0 <= k < |w| ==> IsNumChar(w[k])) && NumLit(w) == I64Lit(0)
            && (w[0] == '-' || IsDigit(w[0]))
  {
    var n := if i < 0 then -i else i;
    DigitsOfDecimal(n);
    var d := Decimal(n);
    assert IsDigit(d[0]) && forall k :: 0 <= k < |d| ==> IsDigit(d[k]);
    if i < 0 { assert DecimalInt(i)[1..] == d; }
    assert !IsFloatText(DecimalInt(i));
  }

  lemma NumRead(w: string)
    requires w != "" && (forall k :: 0 <= k < |w| ==> IsNumChar(w[k])) && (w[0] == '-' || IsDigit(w[0]))
    ensures PExpr(w) == (Literal(NumLit(w)), "")
  {
    hide IsNumChar, NumLit, PAtom, PExpr, IsWs;
    NumStart(w[0]);
    AtomIsNoCall(w);
    NumAtom(w);
  }

  lemma NumAtom(w: string)
    requires w != "" && (forall k :: 0 <= k < |w| ==> IsNumChar(w[k])) && (w[0] == '-' || IsDigit(w[0]))
    ensures PAtom(w) == (Literal(NumLit(w)), "")
  {
    hide IsNumChar, NumLit, SkipWs, TakeNum, PDollar, TakeQuoted, Ident, IsDigit;
    NumStart(w[0]);
    SkipsNothing(w);
    AllTaken(w);
  }

  lemma NumStart(c: char)
    requires c == '-' || IsDigit(c)
    ensures !IsWs(c) && c != 'c' && c != 't' && c != '$' && c != '\'' && c != 'f' && c != 'n'
  {}

  lemma {:induction false} AllTaken(w: string)
    requires forall k :: 0 <= k < |w| ==> IsNumChar(w[k])
    ensures TakeNum(w) == (w, "")
  {
    hide IsNumChar;
    if w != "" {
      AllTaken(w[1..]);
      assert [w[0]] + w[1..] == w;
    }
  }

  // ----- words and indices that are none -----------------------------------------------------------------------

  lemma WordIsNoCall(w: string, kw: string)
    requires IsWord(w) && kw != "" && kw[|kw| - 1] == '('
    ensures !HasPrefix(w, kw)
  {
    if HasPrefix(w, kw) { PrefixEnds(w, kw); }
  }

  lemma PrefixEnds(w: string, kw: string)
    requires HasPrefix(w, kw) && kw != ""
    ensures |kw| <= |w| && w[|kw| - 1] == kw[|kw| - 1]
  {
    assert w[|kw| - 1] == w[..|kw|][|kw| - 1];
  }

  lemma {:induction false} WordIsTight(w: string)
    requires IsWord(w)
    ensures Tight(w)
  {
    LetterIsIdent(w[0]);
    LetterIsIdent(w[|w| - 1]);
  }

  lemma WordIdent(w: string)
    requires IsWord(w)
    ensures Ident(w) == (w, "") && SkipWs(w) == w
  {
    hide IsIdent, IsLetter, IsWs;
    forall i | 0 <= i < |w| ensures IsIdent(w[i]) && !IsWs(w[i]) { LetterIsIdent(w[i]); }
    SkipsNothing(w);
    TakeIdentStops(w, "");
    assert w + "" == w;
  }

  /** Words outside quotes are known by their first letters: of those that start
      with a t only `true` is true, those that start with an f are false and
      those that start with an n are null. */
  lemma WordCompiles(w: string)
    requires IsWord(w) && (w[0] == 't' || w[0] == 'f' || w[0] == 'n')
    ensures Compile(w) == Literal(if w[0] == 't' then BoolLit(w == "true")
                                  else if w[0] == 'f' then BoolLit(false) else NullLit)
  {
    hide SkipWs, Trim, Ident, IsWord, PCast, PToJson, PCoalesce, PCartesian, HasPrefix, PDollar, TakeQuoted, TakeNum;
    WordIsNoCall(w, CAST);
    WordIsNoCall(w, TO_JSON);
    WordIsNoCall(w, COALESCE);
    WordIsNoCall(w, CARTESIAN);
    WordIsTight(w);
    TightTrim(w);
    WordIdent(w);
    NoInAtEnd("");
  }

  /** A bracket that holds neither blanks only nor a number counts for nothing. */
  lemma BadIndexIsSkipped(num: string, more: string)
    requires (forall i :: 0 <= i < |num| ==> num[i] != ']') && Trim(num) != "" && ParseUsize(Trim(num)).None?
    ensures PathSegs("[" + num + "]" + more) == PathSegs(more)
  {
    hide PathSegs, Trim, ParseUsize;
    BracketParse(num, more);
    assert [] + PathSegs(more).0 == PathSegs(more).0;
  }
}
