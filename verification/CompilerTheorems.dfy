/** The compiler inverts the printer, and its image is exactly the printable nodes. */
module CompilerTheorems {
  import opened Wrappers
  import opened Text
  import opened Expr

  // ----- the image -----------------------------------------------------------------------------

  lemma {:induction false} SegsAreOk(s: string)
    ensures SegsOk(PathSegs(s).0)
    decreases |s|
  {
    hide IsWs, SkipWs, IsSegStop, TakeSeg, TakeBracket, BracketSeg, SegOk;
    var t := SkipWs(s);
    if t != "" && t[0] == '.' {
      var (seg, rest) := TakeSeg(t[1..]);
      if seg != "" { KeyIsOk(seg); }
      SegsAreOk(rest);
    } else if t != "" && t[0] == '[' {
      var (num, rest) := TakeBracket(t[1..]);
      BracketIsOk(num);
      SegsAreOk(rest);
    }
  }

  lemma KeyIsOk(seg: string)
    requires seg != "" && forall i :: 0 <= i < |seg| ==> !IsSegStop(seg[i])
    ensures SegOk(Key(seg))
  {
    hide IsSegStop;
  }

  lemma BracketIsOk(num: string)
    ensures SegsOk(BracketSeg(num))
  {
    hide Trim;
  }

  lemma DollarIsOperand(s: string)
    ensures Operand(PDollar(s).0)
  {
    hide PathSegs, SegsOk;
    var named := s != "" && (IsLetter(s[0]) || s[0] == '_');
    SegsAreOk(if named then Ident(s).1 else s);
  }

  lemma NumIsOk(s: string)
    ensures LitOk(NumLit(TakeNum(s).0))
  {}

  lemma PlainLiterals()
    ensures LitOk(NullLit) && (forall b :: LitOk(BoolLit(b))) && (forall q :: LitOk(StrLit(q)))
  {}

  lemma AtomIsOperand(s: string)
    ensures Operand(PAtom(s).0)
  {
    hide PDollar, TakeNum, TakeQuoted, Ident, NumLit, SegsOk, SkipWs, LitOk;
    var t := SkipWs(s);
    if t != "" && t[0] == '$' { DollarIsOperand(t[1..]); }
    NumIsOk(t);
    PlainLiterals();
  }

  /** Whatever the text, an operand is parsed into a printable operand. */
  lemma {:induction false} ExprIsOperand(s: string)
    ensures Operand(PExpr(s).0)
    decreases |s|, 0
  {
    hide PAtom, SkipWs, PCast, PToJson, PCoalesce, PCartesian, Operand;
    var t := SkipWs(s);
    if HasPrefix(t, CAST) { CastIsOperand(t[|CAST|..]); }
    else if HasPrefix(t, TO_JSON) { ToJsonIsOperand(t[|TO_JSON|..]); }
    else if HasPrefix(t, COALESCE) { CoalesceIsOperand(t[|COALESCE|..]); }
    else if HasPrefix(t, CARTESIAN) { CartIsOperand(t[|CARTESIAN|..]); }
    else { AtomIsOperand(t); }
  }

  lemma {:induction false} CastIsOperand(s: string)
    ensures Operand(PCast(s).0)
    decreases |s|, 1
  {
    hide PExpr, CastType, Ident, Eat, Lower;
    ExprIsOperand(s);
    CastableKind(Lower(Ident(Ident(PExpr(s).1).1).0));
  }

  lemma {:induction false} ToJsonIsOperand(s: string)
    ensures Operand(PToJson(s).0)
    decreases |s|, 1
  {
    hide PExpr;
    ExprIsOperand(s);
  }

  lemma {:induction false} CoalesceIsOperand(s: string)
    ensures Operand(PCoalesce(s).0)
    decreases |s|, 2
  {
    hide PArgs;
    ArgsAreOperands(s);
  }

  lemma {:induction false} CartIsOperand(s: string)
    ensures Operand(PCartesian(s).0)
    decreases |s|, 1
  {
    hide PExpr, Eat, PCond;
    ExprIsOperand(s);
    ExprIsOperand(Eat(PExpr(s).1, ',').1);
  }

  lemma CastableKind(ty: string)
    ensures CastType(ty) != BoolKind
  {}

  lemma {:induction false} ArgsAreOperands(s: string)
    ensures forall i :: 0 <= i < |PArgs(s).0| ==> Operand(PArgs(s).0[i])
    decreases |s|, 1
  {
    hide PExpr, Operand;
    ExprIsOperand(s);
    var (comma, r2) := Eat(PExpr(s).1, ',');
    if comma { ArgsAreOperands(r2); }
  }

  lemma CompileIsPrintable(text: string)
    ensures Printable(Compile(text))
  {
    hide PExpr, EatIn;
    var s := Trim(text);
    ExprIsOperand(s);
    ExprIsOperand(EatIn(PExpr(s).1).1);
  }

  // ----- the round trip ----------------------------------------------------------------------------

  /** What can follow an operand: nothing, or a closing bracket, a comma or a
      blank, with no path continuing after it. */
  predicate SafeTail(t: string) {
    t == "" || ((t[0] == ')' || t[0] == ',' || t[0] == ' ') &&
        (SkipWs(t) == "" || (SkipWs(t)[0] != '.' && SkipWs(t)[0] != '[')))
  }

  lemma {:induction false} TakeIdentStops(id: string, t: string)
    requires forall i :: 0 <= i < |id| ==> IsIdent(id[i])
    requires t == "" || !IsIdent(t[0])
    ensures TakeIdent(id + t) == (id, t)
  {
    hide IsIdent;
    if id == "" {
      assert id + t == t;
    } else {
      TakeIdentStops(id[1..], t);
      assert (id + t)[1..] == id[1..] + t;
      assert id == [id[0]] + id[1..];
    }
  }

  lemma {:induction false} TakeSegStops(seg: string, t: string)
    requires forall i :: 0 <= i < |seg| ==> !IsSegStop(seg[i])
    requires t == "" || IsSegStop(t[0])
    ensures TakeSeg(seg + t) == (seg, t)
  {
    hide IsSegStop;
    if seg == "" {
      assert seg + t == t;
    } else {
      TakeSegStops(seg[1..], t);
      assert (seg + t)[1..] == seg[1..] + t;
      assert seg == [seg[0]] + seg[1..];
    }
  }

  lemma {:induction false} TakeNumStops(num: string, t: string)
    requires forall i :: 0 <= i < |num| ==> IsNumChar(num[i])
    requires t == "" || !IsNumChar(t[0])
    ensures TakeNum(num + t) == (num, t)
  {
    hide IsNumChar;
    if num == "" {
      assert num + t == t;
    } else {
      TakeNumStops(num[1..], t);
      assert (num + t)[1..] == num[1..] + t;
      assert num == [num[0]] + num[1..];
    }
  }

  lemma {:induction false} TakeBracketStops(num: string, t: string)
    requires forall i :: 0 <= i < |num| ==> num[i] != ']'
    ensures TakeBracket(num + "]" + t) == (num, t)
  {
    var all := num + "]" + t;
    if num == "" {
      assert all[1..] == t;
    } else {
      TakeBracketStops(num[1..], t);
      assert all[1..] == num[1..] + "]" + t;
      assert num == [num[0]] + num[1..];
    }
  }

  lemma {:induction false} QuoteRoundTrip(s: string, t: string)
    ensures TakeQuoted(Quote(s) + "'" + t) == (s, t)
    decreases |s|
  {
    var all := Quote(s) + "'" + t;
    if s == "" {
      assert all[1..] == t;
    } else {
      QuoteRoundTrip(s[1..], t);
      var rest := Quote(s[1..]) + "'" + t;
      if s[0] == '\'' || s[0] == '\\' {
        assert all[2..] == rest;
      } else {
        assert all[1..] == rest;
      }
      assert s == [s[0]] + s[1..];
    }
  }

  /** Every printed path continues with text a key cannot contain. */
  lemma SegsStop(segs: seq<Seg>, t: string)
    requires SafeTail(t)
    ensures PrintSegs(segs) + t == "" || IsSegStop((PrintSegs(segs) + t)[0])
  {}

  lemma KeyStep(name: string, more: string)
    requires SegOk(Key(name)) && (more == "" || IsSegStop(more[0]))
    ensures PathSegs(PrintSeg(Key(name)) + more) == ([Key(name)] + PathSegs(more).0, PathSegs(more).1)
  {
    hide IsSegStop, PathSegs;
    var all := PrintSeg(Key(name)) + more;
    assert all[0] == '.' && all[1..] == name + more;
    TakeSegStops(name, more);
    DotStep(all);
  }

  lemma DotStep(s: string)
    requires s != "" && s[0] == '.'
    ensures var (seg, rest) := TakeSeg(s[1..]);
            PathSegs(s) == ((if seg == "" then [] else [Key(seg)]) + PathSegs(rest).0, PathSegs(rest).1)
  {
    hide IsSegStop, TakeSeg, TakeBracket, BracketSeg, SkipWs;
    SkipsNothing(s);
  }

  lemma BracketParse(num: string, more: string)
    requires forall i :: 0 <= i < |num| ==> num[i] != ']'
    ensures PathSegs("[" + num + "]" + more) == (BracketSeg(num) + PathSegs(more).0, PathSegs(more).1)
  {
    hide BracketSeg, TakeSeg, TakeBracket, SkipWs;
    var all := "[" + num + "]" + more;
    assert all[0] == '[' && all[1..] == num + "]" + more;
    SkipsNothing(all);
    TakeBracketStops(num, more);
  }

  lemma BracketStep(g: Seg, more: string)
    requires SegOk(g) && !g.Key?
    ensures PathSegs(PrintSeg(g) + more) == ([g] + PathSegs(more).0, PathSegs(more).1)
  {
    hide BracketSeg, PathSegs;
    if g.Idx? {
      BracketIndex(g.i);
      BracketParse(Decimal(g.i), more);
    } else {
      BracketAll();
      BracketParse("", more);
      assert "[" + "" + "]" + more == PrintSeg(g) + more;
    }
  }

  lemma BracketAll()
    ensures BracketSeg("") == [All]
  {}

  lemma {:induction false} SegsRoundTrip(segs: seq<Seg>, t: string)
    requires SegsOk(segs) && SafeTail(t)
    ensures PathSegs(PrintSegs(segs) + t) == (segs, SkipWs(t))
    decreases |segs|
  {
    hide PathSegs, PrintSeg, SegOk, SafeTail, IsSegStop, SkipWs;
    if segs == [] {
      assert PrintSegs(segs) + t == t;
      NoSegs(t);
    } else {
      var g, rest := segs[0], segs[1..];
      var more := PrintSegs(rest) + t;
      assert PrintSegs(segs) + t == PrintSeg(g) + more;
      SegsRoundTrip(rest, t);
      SegsStop(rest, t);
      if g.Key? { KeyStep(g.name, more); } else { BracketStep(g, more); }
      assert segs == [g] + rest;
    }
  }

  lemma NoSegs(t: string)
    requires SafeTail(t)
    ensures PathSegs(t) == ([], SkipWs(t))
  {}

  lemma BracketIndex(i: nat)
    requires i <= USIZE_MAX
    ensures BracketSeg(Decimal(i)) == [Idx(i)]
  {
    var d := Decimal(i);
    assert IsDigit(d[0]) && IsDigit(d[|d| - 1]);
    TrimIsIdentity(d);
    ParsesUsize(i);
  }

  // Each form of operand parses back, given that its parts do.

  /** Parsing is blind to leading blanks. */
  lemma SkipWsTwice(s: string)
    ensures SkipWs(SkipWs(s)) == SkipWs(s)
  {}

  lemma SkipsNothing(s: string)
    requires s != "" ==> !IsWs(s[0])
    ensures SkipWs(s) == s
  {
    hide IsWs;
  }

  /** Whatever parses back: the node, and the tail up to leading blanks. */
  ghost predicate Back(n: Node, t: string) {
    var r := PExpr(Print(n) + t);
    r.0 == n && SkipWs(r.1) == SkipWs(t)
  }

  lemma EatAfter(s: string, t: string, c: char)
    requires SkipWs(s) == SkipWs(t)
    ensures Eat(s, c) == Eat(t, c) && Ident(s) == Ident(t) && EatIn(s) == EatIn(t)
  {}

  lemma EatNext(c: char, t: string)
    requires !IsWs(c)
    ensures Eat([c] + t, c) == (true, t)
  {
    assert ([c] + t)[1..] == t;
  }

  lemma OtherStart(s: string, p: string, i: nat)
    requires i < |s| && i < |p| && s[i] != p[i]
    ensures !HasPrefix(s, p)
  {}

  /** The call forms are told from atoms by their first characters. */
  lemma AtomIsNoCall(s: string)
    requires s != "" && !IsWs(s[0]) && s[0] != 'c'
    requires s[0] == 't' ==> |s| >= 2 && s[1] == 'r'
    ensures PExpr(s) == PAtom(s)
  {
    hide PAtom, PCast, PToJson, PCoalesce, PCartesian, HasPrefix, IsWs;
    SkipsNothing(s);
    OtherStart(s, CAST, 0);
    OtherStart(s, COALESCE, 0);
    OtherStart(s, CARTESIAN, 0);
    if s[0] == 't' { OtherStart(s, TO_JSON, 1); } else { OtherStart(s, TO_JSON, 0); }
  }

  lemma TaskBack(segs: seq<Seg>, t: string)
    requires SegsOk(segs) && SafeTail(t)
    ensures PDollar("task" + PrintSegs(segs) + t) == (Task(segs), SkipWs(t))
  {
    hide PathSegs, PrintSegs, SegsOk, IsSegStop, IsIdent;
    var more := PrintSegs(segs) + t;
    assert "task" + PrintSegs(segs) + t == "task" + more;
    SegsRoundTrip(segs, t);
    IdentTask(segs, t);
    SkipsNothing("task" + more);
  }

  lemma IdentTask(segs: seq<Seg>, t: string)
    requires SafeTail(t)
    ensures TakeIdent("task" + (PrintSegs(segs) + t)) == ("task", PrintSegs(segs) + t)
  {
    SegsStop(segs, t);
    TakeIdentStops("task", PrintSegs(segs) + t);
  }

  lemma PlainPathBack(segs: seq<Seg>, t: string)
    requires SegsOk(segs) && SafeTail(t)
    ensures PDollar(PrintSegs(segs) + t) == (if segs == [] then Root else Path(segs), SkipWs(t))
  {
    hide PathSegs, PrintSegs, SegsOk;
    SegsRoundTrip(segs, t);
    PathStart(segs, t);
  }

  lemma DollarBack(n: Node, rest: string, t: string)
    requires Print(n) + t == "$" + rest && PDollar(rest) == (n, SkipWs(t))
    ensures Back(n, t)
  {
    hide PDollar, Print;
    var s := "$" + rest;
    AtomIsNoCall(s);
    assert s[1..] == rest;
    SkipsNothing(s);
    SkipWsTwice(t);
  }

  lemma TaskNodeBack(segs: seq<Seg>, t: string)
    requires SegsOk(segs) && SafeTail(t)
    ensures Back(Task(segs), t)
  {
    hide PDollar, Print, PrintSegs, SegsOk, Back, SafeTail, SkipWs;
    TaskBack(segs, t);
    PrintTask(segs, t);
    DollarBack(Task(segs), "task" + PrintSegs(segs) + t, t);
  }

  lemma PrintTask(segs: seq<Seg>, t: string)
    ensures Print(Task(segs)) + t == "$" + ("task" + PrintSegs(segs) + t)
  {
    hide PrintSegs;
  }

  lemma PathNodeBack(segs: seq<Seg>, t: string)
    requires segs != [] && SegsOk(segs) && SafeTail(t)
    ensures Back(Path(segs), t)
  {
    hide PDollar, PrintSegs, SegsOk, Back, SafeTail, SkipWs;
    PlainPathBack(segs, t);
    assert Print(Path(segs)) + t == "$" + (PrintSegs(segs) + t);
    DollarBack(Path(segs), PrintSegs(segs) + t, t);
  }

  lemma RootBack(t: string)
    requires SafeTail(t)
    ensures Back(Root, t)
  {
    hide PDollar, Back, SafeTail;
    PlainPathBack([], t);
    assert PrintSegs([]) + t == t;
    assert Print(Root) + t == "$" + t;
    DollarBack(Root, t, t);
  }

  lemma PathBack(n: Node, t: string)
    requires Operand(n) && (n.Root? || n.Task? || n.Path?) && SafeTail(t)
    ensures Back(n, t)
  {
    hide Back, SafeTail;
    match n
    case Task(segs) => TaskNodeBack(segs, t);
    case Path(segs) => PathNodeBack(segs, t);
    case Root => RootBack(t);
  }

  lemma PathStart(segs: seq<Seg>, t: string)
    requires SafeTail(t)
    ensures var more := PrintSegs(segs) + t; more == "" || !(IsLetter(more[0]) || more[0] == '_')
  {}

  lemma AtomBack(n: Node, s: string, t: string)
    requires Print(n) + t == s && s != "" && !IsWs(s[0]) && s[0] != 'c'
    requires s[0] == 't' ==> |s| >= 2 && s[1] == 'r'
    requires PAtom(s).0 == n && SkipWs(PAtom(s).1) == SkipWs(t)
    ensures Back(n, t)
  {
    hide PAtom, Print, IsWs;
    AtomIsNoCall(s);
  }

  lemma StringBack(q: string, t: string)
    ensures Back(Literal(StrLit(q)), t)
  {
    hide Back, TakeQuoted, Quote;
    var s := "'" + Quote(q) + "'" + t;
    QuoteRoundTrip(q, t);
    assert s[1..] == Quote(q) + "'" + t;
    SkipsNothing(s);
    assert Print(Literal(StrLit(q))) + t == s;
    AtomBack(Literal(StrLit(q)), s, t);
  }

  lemma WordBack(n: Node, w: string, t: string)
    requires (w == "true" && n == Literal(BoolLit(true))) || (w == "false" && n == Literal(BoolLit(false)))
             || (w == "null" && n == Literal(NullLit))
    requires SafeTail(t)
    ensures Back(n, t)
  {
    hide Back, TakeIdent, SkipWs, SafeTail;
    var s := w + t;
    WordStops(w, t);
    SkipsNothing(s);
    assert s[0] == w[0] && s[1] == w[1];
    WordAtom(n, w, t);
    AtomBack(n, s, t);
  }

  lemma WordStops(w: string, t: string)
    requires w == "true" || w == "false" || w == "null"
    requires SafeTail(t)
    ensures TakeIdent(w + t) == (w, t)
  {
    TakeIdentStops(w, t);
  }

  lemma AtomIsWord(s: string)
    requires s != "" && (s[0] == 't' || s[0] == 'f' || s[0] == 'n')
    ensures PAtom(s) == (Literal(WordLit(s[0], TakeIdent(s).0)), TakeIdent(s).1)
  {
    hide TakeIdent, SkipWs, PDollar, TakeNum, NumLit, TakeQuoted, IsWs;
    assert !IsWs(s[0]) by { NotBlank(s[0]); }
    SkipsNothing(s);
  }

  function WordLit(c: char, id: string): Lit {
    if c == 't' then BoolLit(id == "true") else if c == 'f' then BoolLit(false) else NullLit
  }

  lemma WordAtom(n: Node, w: string, t: string)
    requires (w == "true" && n == Literal(BoolLit(true))) || (w == "false" && n == Literal(BoolLit(false)))
             || (w == "null" && n == Literal(NullLit))
    requires TakeIdent(w + t) == (w, t)
    ensures PAtom(w + t) == (n, t)
  {
    hide TakeIdent, PAtom;
    assert (w + t)[0] == w[0];
    AtomIsWord(w + t);
  }

  lemma NumberText(l: Lit)
    requires LitOk(l) && (l.I64Lit? || l.F64Lit?)
    ensures var w := PrintLit(l);
            && w != "" && (forall i :: 0 <= i < |w| ==> IsNumChar(w[i])) && NumLit(w) == l
  {
    if l.I64Lit? {
      ParsesI64(l.i);
      var d := Decimal(if l.i < 0 then -l.i else l.i);
      assert forall i :: 0 <= i < |d| ==> IsDigit(d[i]);
      assert !IsFloatText(DecimalInt(l.i));
    }
  }

  lemma NumberAtom(s: string)
    requires s != "" && IsNumChar(s[0])
    ensures PAtom(s) == (Literal(NumLit(TakeNum(s).0)), TakeNum(s).1)
    ensures !IsWs(s[0]) && s[0] != 'c' && s[0] != 't'
  {
    hide TakeNum, NumLit, PDollar, TakeQuoted, Ident;
    SkipsNothing(s);
  }

  lemma NumberBack(l: Lit, t: string)
    requires LitOk(l) && (l.I64Lit? || l.F64Lit?) && SafeTail(t)
    ensures Back(Literal(l), t)
  {
    hide Back, TakeNum, NumLit, LitOk, PrintLit, PAtom, IsWs;
    NumberText(l);
    var w := PrintLit(l);
    var s := w + t;
    assert s[0] == w[0];
    NumberAtom(s);
    assert t == "" || !IsNumChar(t[0]);
    TakeNumStops(w, t);
    AtomBack(Literal(l), s, t);
  }

  lemma LiteralBack(l: Lit, t: string)
    requires LitOk(l) && SafeTail(t)
    ensures Back(Literal(l), t)
  {
    hide Back, SafeTail;
    match l
    case NullLit => WordBack(Literal(l), "null", t);
    case BoolLit(b) => WordBack(Literal(l), if b then "true" else "false", t);
    case StrLit(q) => StringBack(q, t);
    case _ => NumberBack(l, t);
  }

  // ----- call forms ------------------------------------------------------------------------------

  lemma CallStart(kw: string, rest: string)
    requires kw == CAST || kw == TO_JSON || kw == COALESCE || kw == CARTESIAN
    ensures PExpr(kw + rest) == if kw == CAST then PCast(rest) else if kw == TO_JSON then PToJson(rest)
                                else if kw == COALESCE then PCoalesce(rest) else PCartesian(rest)
  {
    hide PCast, PToJson, PCoalesce, PCartesian, HasPrefix, PAtom;
    var s := kw + rest;
    assert s[|kw|..] == rest && s[..|kw|] == kw;
    SkipsNothing(s);
    PrefixHolds(s, kw);
    if kw == TO_JSON { OtherStart(s, CAST, 0); }
    if kw == COALESCE { OtherStart(s, CAST, 1); }
    if kw == CARTESIAN { OtherStart(s, CAST, 2); }
    if kw == COALESCE || kw == CARTESIAN { OtherStart(s, TO_JSON, 0); }
    if kw == CARTESIAN { OtherStart(s, COALESCE, 1); }
  }

  lemma PrefixHolds(s: string, p: string)
    requires |p| <= |s| && s[..|p|] == p
    ensures HasPrefix(s, p)
  {}

  lemma CloserIsSafe(c: char, u: string)
    requires c == ')' || c == ','
    ensures SafeTail([c] + u)
  {
    hide IsWs, SkipWs;
    NotBlank(c);
    var s := [c] + u;
    assert s[0] == c;
    SkipsNothing(s);
  }

  lemma NotBlank(c: char)
    requires c == ')' || c == ',' || IsLetter(c)
    ensures !IsWs(c)
  {}

  /** A blank and then a letter. */
  lemma WordIsSafe(c: char, u: string)
    requires IsLetter(c)
    ensures SafeTail([' ', c] + u) && SkipWs([' ', c] + u) == [c] + u
  {
    hide IsWs;
    assert IsWs(' ') by { BlankIsWs(); }
    NotBlank(c);
    SkipsNothing([c] + u);
    assert ([' ', c] + u)[1..] == [c] + u;
  }

  lemma BlankIsWs()
    ensures IsWs(' ')
  {}

  lemma Tails(u: string)
    ensures SafeTail(")" + u) && SafeTail("," + u) && SafeTail(" as " + u) && SafeTail(" IN " + u)
    ensures SkipWs(" as " + u) == "as " + u && SkipWs(" IN " + u) == "IN " + u
  {
    hide SafeTail, SkipWs;
    CloserIsSafe(')', u);
    CloserIsSafe(',', u);
    WordIsSafe('a', "s " + u);
    WordIsSafe('I', "N " + u);
    assert " as " + u == " a" + ("s " + u) && "as " + u == "a" + ("s " + u);
    assert " IN " + u == " I" + ("N " + u) && "IN " + u == "I" + ("N " + u);
  }

  lemma CloseAfter(s: string, t: string)
    requires SkipWs(s) == SkipWs(")" + t)
    ensures Eat(s, ')').1 == t && !Eat(s, ',').0
  {
    EatAfter(s, ")" + t, ')');
    EatNext(')', t);
    EatAfter(s, ")" + t, ',');
    SkipsNothing(")" + t);
  }

  lemma CommaAfter(s: string, t: string)
    requires SkipWs(s) == SkipWs("," + t)
    ensures Eat(s, ',') == (true, t)
  {
    EatAfter(s, "," + t, ',');
    EatNext(',', t);
  }

  lemma ToJsonBack(n: Node, t: string)
    requires Back(n, ")" + t)
    ensures Back(ToJson(n), t)
  {
    hide PExpr, Print, Eat, SkipWs;
    var rest := Print(n) + (")" + t);
    PrintToJson(n, t);
    CallStart(TO_JSON, rest);
    CloseAfter(PExpr(rest).1, t);
  }

  lemma PrintToJson(n: Node, t: string)
    ensures Print(ToJson(n)) + t == TO_JSON + (Print(n) + (")" + t))
  {}

  lemma CastBack(n: Node, kind: ColKind, t: string)
    requires kind != BoolKind
    requires Back(n, " as " + (KindName(kind) + ")" + t))
    ensures Back(Cast(n, kind), t)
  {
    hide PExpr, Print, Eat, SkipWs, Ident, CastType, Lower, KindName;
    var u := KindName(kind) + ")" + t;
    var rest := Print(n) + (" as " + u);
    PrintCast(n, kind, t);
    CallStart(CAST, rest);
    AsAfter(PExpr(rest).1, kind, t);
    CloseAfter(")" + t, t);
  }

  lemma PrintCast(n: Node, kind: ColKind, t: string)
    ensures Print(Cast(n, kind)) + t == CAST + (Print(n) + (" as " + (KindName(kind) + ")" + t)))
  {
    hide KindName;
  }

  lemma AsAfter(s: string, kind: ColKind, t: string)
    requires SkipWs(s) == SkipWs(" as " + (KindName(kind) + ")" + t)) && kind != BoolKind
    ensures Ident(Ident(s).1) == (KindName(kind), ")" + t)
    ensures CastType(Lower(KindName(kind))) == kind
  {
    var u := KindName(kind) + ")" + t;
    Tails(u);
    hide SkipWs, TakeIdent, SafeTail, Lower, KindName, CastType;
    WordIs("as", " " + u);
    assert "as" + (" " + u) == "as " + u;
    BlankThen(kind, ")" + t);
    assert KindName(kind) + (")" + t) == u;
    KindIsWord(kind);
    WordIs(KindName(kind), ")" + t);
    KindIsLower(kind);
  }

  lemma WordIs(w: string, t: string)
    requires w != "" && forall i :: 0 <= i < |w| ==> IsLetter(w[i])
    requires t != "" && (t[0] == ' ' || t[0] == ')')
    ensures TakeIdent(w + t) == (w, t)
  {
    TakeIdentStops(w, t);
  }

  lemma KindIsWord(kind: ColKind)
    ensures KindName(kind) != "" && forall i :: 0 <= i < |KindName(kind)| ==> IsLetter(KindName(kind)[i])
  {}

  lemma BlankThen(kind: ColKind, t: string)
    ensures SkipWs(" " + (KindName(kind) + t)) == KindName(kind) + t
  {
    var s := KindName(kind) + t;
    assert (" " + s)[1..] == s;
    SkipsNothing(s);
  }

  lemma KindIsLower(kind: ColKind)
    requires kind != BoolKind
    ensures Lower(KindName(kind)) == KindName(kind) && CastType(KindName(kind)) == kind
  {
    LowerIsLower(KindName(kind));
  }

  lemma {:induction false} LowerIsLower(s: string)
    requires forall i :: 0 <= i < |s| ==> !('A' <= s[i] <= 'Z')
    ensures Lower(s) == s
  {
    if s != "" { LowerIsLower(s[1..]); assert s == [s[0]] + s[1..]; }
  }

  /** An argument list parses back up to the closing parenthesis. */
  ghost predicate ArgsBack(args: seq<Node>, t: string)
    requires args != []
  {
    var r := PArgs(PrintArgs(args) + (")" + t));
    r.0 == args && r.1 == ")" + t
  }

  lemma LastArgBack(n: Node, t: string)
    requires Back(n, ")" + t)
    ensures ArgsBack([n], t)
  {
    hide PExpr, Print, SkipWs;
    var s := Print(n) + (")" + t);
    SkipsNothing(")" + t);
    EatAfter(PExpr(s).1, ")" + t, ',');
  }

  lemma MoreArgsBack(n: Node, args: seq<Node>, t: string)
    requires args != [] && ArgsBack(args, t)
    requires Back(n, "," + (PrintArgs(args) + (")" + t)))
    ensures ArgsBack([n] + args, t)
  {
    hide PExpr, Print, SkipWs, Eat;
    var more := PrintArgs(args) + (")" + t);
    assert ([n] + args)[1..] == args;
    assert PrintArgs([n] + args) + (")" + t) == Print(n) + ("," + more);
    CommaAfter(PExpr(Print(n) + ("," + more)).1, more);
  }

  lemma CoalesceBack(args: seq<Node>, t: string)
    requires args != [] && ArgsBack(args, t)
    ensures Back(Coalesce(args), t)
  {
    hide PArgs, PrintArgs, Eat, SkipWs, PExpr;
    var rest := PrintArgs(args) + (")" + t);
    assert Print(Coalesce(args)) + t == COALESCE + rest;
    CallStart(COALESCE, rest);
    CloseAfter(")" + t, t);
  }

  function CondText(cond: Option<string>): string {
    match cond case None => "" case Some(c) => ",'" + Quote(c) + "'"
  }

  lemma PrintCart(l: Node, r: Node, cond: Option<string>, t: string)
    ensures Print(CartProd(l, r, cond)) + t
         == CARTESIAN + (Print(l) + ("," + (Print(r) + (CondText(cond) + (")" + t)))))
  {
    hide Quote;
    Regroup(CARTESIAN, Print(l), Print(r), CondText(cond), t);
  }

  lemma Regroup(a: string, b: string, c: string, d: string, t: string)
    ensures a + b + "," + c + d + ")" + t == a + (b + ("," + (c + (d + (")" + t)))))
  {}

  lemma CondTail(cond: Option<string>, t: string)
    ensures SafeTail(CondText(cond) + (")" + t))
  {
    hide SafeTail, Quote;
    match cond
    case None =>
      CloserIsSafe(')', t);
      assert CondText(cond) + (")" + t) == ")" + t;
    case Some(c) =>
      var more := "'" + Quote(c) + "'" + (")" + t);
      CloserIsSafe(',', more);
      assert CondText(cond) + (")" + t) == "," + more;
  }

  lemma CondBack(s: string, cond: Option<string>, t: string)
    requires SkipWs(s) == SkipWs(CondText(cond) + (")" + t))
    ensures PCond(s).0 == cond && SkipWs(PCond(s).1) == SkipWs(")" + t)
  {
    hide PCond, CondText, SkipWs;
    match cond
    case None =>
      assert CondText(cond) + (")" + t) == ")" + t by { NoCondText(); }
      NoCondBack(s, t);
    case Some(c) => SomeCondBack(s, c, t);
  }

  lemma NoCondText()
    ensures CondText(None) == ""
  {}

  lemma NoCondBack(s: string, t: string)
    requires SkipWs(s) == SkipWs(")" + t)
    ensures PCond(s).0 == None && SkipWs(PCond(s).1) == SkipWs(")" + t)
  {
    hide PExpr, SkipWs, Eat;
    SkipWsTwice(")" + t);
    NoComma(s, t);
  }

  lemma SomeCondBack(s: string, c: string, t: string)
    requires SkipWs(s) == SkipWs(CondText(Some(c)) + (")" + t))
    ensures PCond(s).0 == Some(c) && SkipWs(PCond(s).1) == SkipWs(")" + t)
  {
    hide PExpr, Quote, SkipWs, Eat;
    var more := "'" + Quote(c) + "'" + (")" + t);
    assert CondText(Some(c)) + (")" + t) == "," + more;
    CommaAfter(s, more);
    StringBack(c, ")" + t);
    assert Print(Literal(StrLit(c))) + (")" + t) == more;
  }

  lemma NoComma(s: string, t: string)
    requires SkipWs(s) == SkipWs(")" + t)
    ensures Eat(s, ',') == (false, SkipWs(")" + t))
  {
    SkipsNothing(")" + t);
  }

  lemma CartBack(l: Node, r: Node, cond: Option<string>, t: string)
    requires Back(l, "," + (Print(r) + (CondText(cond) + (")" + t))))
    requires Back(r, CondText(cond) + (")" + t))
    ensures Back(CartProd(l, r, cond), t)
  {
    hide PExpr, Print, SkipWs, Eat, PCond, CondText;
    var right := Print(r) + (CondText(cond) + (")" + t));
    var rest := Print(l) + ("," + right);
    PrintCart(l, r, cond, t);
    CallStart(CARTESIAN, rest);
    CommaAfter(PExpr(rest).1, right);
    CondBack(PExpr(right).1, cond, t);
    CloseAfter(PCond(PExpr(right).1).1, t);
  }

  /** Every operand parses back from its printed text, whatever safely follows it. */
  lemma {:induction false} OperandBack(n: Node, t: string)
    requires Operand(n) && SafeTail(t)
    ensures Back(n, t)
    decreases n, 0
  {
    hide Back, SafeTail, Print, PrintArgs, CondText, KindName, LitOk, SegsOk, PExpr;
    match n
    case Root => PathBack(n, t);
    case Task(_) => PathBack(n, t);
    case Path(_) => PathBack(n, t);
    case Literal(l) => LiteralBack(l, t);
    case Coalesce(args) =>
      ArgsParseBack(n, 0, t);
      assert args[0..] == args;
      CoalesceBack(args, t);
    case Cast(inner, kind) =>
      var u := KindName(kind) + ")" + t;
      Tails(u);
      OperandBack(inner, " as " + u);
      CastBack(inner, kind, t);
    case ToJson(inner) =>
      Tails(t);
      OperandBack(inner, ")" + t);
      ToJsonBack(inner, t);
    case CartProd(left, right, cond) =>
      var more := CondText(cond) + (")" + t);
      Tails(Print(right) + more);
      CondTail(cond, t);
      OperandBack(left, "," + (Print(right) + more));
      OperandBack(right, more);
      CartBack(left, right, cond, t);
  }

  lemma {:induction false} ArgsParseBack(n: Node, i: nat, t: string)
    requires n.Coalesce? && Operand(n) && i < |n.args|
    ensures ArgsBack(n.args[i..], t)
    decreases n, 0, |n.args| - i
  {
    hide Back, SafeTail, Print, PrintArgs, ArgsBack;
    Tails(t);
    if i == |n.args| - 1 {
      OperandBack(n.args[i], ")" + t);
      LastArgBack(n.args[i], t);
      assert n.args[i..] == [n.args[i]];
    } else {
      var rest := n.args[i + 1..];
      ArgsParseBack(n, i + 1, t);
      var more := PrintArgs(rest) + (")" + t);
      Tails(more);
      OperandBack(n.args[i], "," + more);
      MoreArgsBack(n.args[i], rest, t);
      assert n.args[i..] == [n.args[i]] + rest;
    }
  }

  // ----- whole texts -------------------------------------------------------------------------------

  predicate Tight(s: string) { s != "" && !IsWs(s[0]) && !IsWs(s[|s| - 1]) }

  lemma NumIsTight(w: string)
    requires w != "" && forall i :: 0 <= i < |w| ==> IsNumChar(w[i])
    ensures Tight(w)
  {
    assert IsNumChar(w[0]) && IsNumChar(w[|w| - 1]);
  }

  lemma {:induction false} SegsEndTight(segs: seq<Seg>)
    requires SegsOk(segs) && segs != []
    ensures PrintSegs(segs) != "" && !IsWs(PrintSegs(segs)[|PrintSegs(segs)| - 1])
  {
    if |segs| > 1 { SegsEndTight(segs[1..]); }
  }

  /** Printed text neither starts nor ends with a blank. */
  lemma OperandIsTight(n: Node)
    requires Operand(n)
    ensures Tight(Print(n))
  {
    hide SegsOk, LitOk, Print, PrintLit, Tight;
    match n
    case Task(segs) => if segs != [] { TightPath(n, segs); } else { TaskIsTight(); }
    case Path(segs) => TightPath(n, segs);
    case Literal(l) => TightLiteral(l); LiteralText(l);
    case _ => TightCall(n);
  }

  lemma TaskIsTight()
    ensures Tight(Print(Task([])))
  {}

  lemma LiteralText(l: Lit)
    ensures Print(Literal(l)) == PrintLit(l)
  {}

  lemma TightPath(n: Node, segs: seq<Seg>)
    requires segs != [] && Operand(n) && (n == Task(segs) || n == Path(segs))
    ensures Tight(Print(n))
  {
    hide PrintSegs;
    SegsEndTight(segs);
  }

  lemma TightLiteral(l: Lit)
    requires LitOk(l)
    ensures Tight(PrintLit(l))
  {
    if l.I64Lit? || l.F64Lit? {
      NumberText(l);
      NumIsTight(PrintLit(l));
    }
  }

  lemma TightCall(n: Node)
    requires n.Coalesce? || n.Cast? || n.ToJson? || n.CartProd? || n.Root?
    ensures Tight(Print(n))
  {
    hide PrintArgs, KindName, Quote;
  }

  /** A complete operand text is consumed up to the end, so no IN follows. */
  lemma OperandCompiles(n: Node)
    requires Operand(n)
    ensures Compile(Print(n)) == n
  {
    hide Print, Operand, PExpr, EatIn, Trim;
    var s := Print(n);
    OperandIsTight(n);
    TightTrim(s);
    OperandBack(n, "");
    assert s + "" == s;
    NoInAtEnd(PExpr(s).1);
  }

  lemma TightTrim(s: string)
    requires Tight(s)
    ensures Trim(s) == s
  {
    TrimIsIdentity(s);
  }

  lemma NoInAtEnd(s: string)
    requires SkipWs(s) == SkipWs("")
    ensures !EatIn(s).0
  {}

  lemma InAfter(s: string, u: string)
    requires SkipWs(s) == SkipWs(" IN " + u)
    ensures EatIn(s) == (true, " " + u)
  {
    hide SkipWs, SafeTail;
    Tails(u);
    var t := "IN " + u;
    assert t[2..] == " " + u && t[0] == 'I' && t[1] == 'N' && t[2] == ' ';
  }

  lemma BlankBefore(u: string)
    requires u != "" && !IsWs(u[0])
    ensures PExpr(" " + u) == PExpr(u)
  {
    hide PAtom, PCast, PToJson, PCoalesce, PCartesian, HasPrefix;
    assert (" " + u)[1..] == u;
    SkipsNothing(u);
  }

  lemma InCompiles(l: Node, r: Node)
    requires Operand(l) && Operand(r)
    ensures Compile(Print(In(l, r))) == In(l, r)
  {
    hide Operand, PExpr, EatIn, Trim;
    var s := Print(l) + (" IN " + Print(r));
    PrintIn(l, r);
    hide Print;
    OperandIsTight(l);
    OperandIsTight(r);
    assert s[0] == Print(l)[0] && s[|s| - 1] == Print(r)[|Print(r)| - 1];
    TightTrim(s);
    Tails(Print(r));
    OperandBack(l, " IN " + Print(r));
    InAfter(PExpr(s).1, Print(r));
    BlankBefore(Print(r));
    OperandBack(r, "");
    assert Print(r) + "" == Print(r);
  }

  lemma PrintIn(l: Node, r: Node)
    ensures Print(In(l, r)) == Print(l) + (" IN " + Print(r))
  {}

  /** Compiling the printed text of a printable node gives the node back. */
  lemma CompilerRoundTrip(n: Node)
    requires Printable(n)
    ensures Compile(Print(n)) == n
  {
    hide Operand, Compile, Print;
    if n.In? { InCompiles(n.left, n.right); } else { OperandCompiles(n); }
  }

  /** The compiler's outputs are exactly the printable nodes. */
  lemma ImageIsPrintable(n: Node)
    ensures Printable(n) <==> exists text :: Compile(text) == n
  {
    hide Printable, Compile, Print;
    if Printable(n) {
      CompilerRoundTrip(n);
    }
    if text :| Compile(text) == n {
      CompileIsPrintable(text);
    }
  }

  /** Printing what was compiled changes the text only, not its meaning. */
  lemma RecompileIsStable(text: string)
    ensures Compile(Print(Compile(text))) == Compile(text)
  {
    hide Printable, Compile, Print;
    CompileIsPrintable(text);
    CompilerRoundTrip(Compile(text));
  }

  /** Distinct printable nodes have distinct texts. */
  lemma PrintInjective(a: Node, b: Node)
    requires Printable(a) && Printable(b) && Print(a) == Print(b)
    ensures a == b
  {
    hide Printable, Compile, Print;
    CompilerRoundTrip(a);
    CompilerRoundTrip(b);
  }

  /** The injected filter compiles to the intended membership test, for every
      field that is one key. */
  lemma ChunkFilterCompiles(field: string)
    requires SegOk(Key(field))
    ensures Compile(FilterText(field)) == ChunkFilter(field)
  {
    hide Compile, Printable;
    var n := ChunkFilter(field);
    FilterParts(field);
    PrintIn(n.left, n.right);
    assert Print(n) == FilterText(field) by { hide Print; }
    FilterIsPrintable(field);
    CompilerRoundTrip(n);
  }

  /** The injected filter tests the field in the task's units exactly when the
      field is one key: not empty, with no dot, bracket, comma, parenthesis or
      blank in it. */
  lemma FilterCompilesIff(field: string)
    ensures Compile(FilterText(field)) == ChunkFilter(field) <==> SegOk(Key(field))
  {
    hide Compile, FilterText, SegOk;
    CompileIsPrintable(FilterText(field));
    if SegOk(Key(field)) { ChunkFilterCompiles(field); }
    if Printable(ChunkFilter(field)) { PrintableField(field); }
  }

  lemma PrintableField(field: string)
    requires Printable(ChunkFilter(field))
    ensures SegOk(Key(field))
  {
    hide SegOk;
    assert SegsOk([Key(field)]) && [Key(field)][0] == Key(field);
  }

  /** With a blank in the field the filter stops there: it is the path of the
      text before the blank, and no test at all. */
  lemma BlankFieldCompiles(a: string, b: string)
    requires SegOk(Key(a)) && b != "" && !IsWs(b[0]) && b[0] != '.' && b[0] != '[' && !EatIn(b).0
    ensures Compile(FilterText(a + " " + b)) == Path([Key(a)])
  {
    hide Operand, PExpr, EatIn, Trim, SegOk;
    var n := Path([Key(a)]);
    var tail := b + " IN $task.ctx.units";
    var s := FilterText(a + " " + b);
    FilterParts(a);
    assert s == Print(n) + (" " + tail) by { hide Print; }
    hide Print;
    KeyIsOperand(a);
    TightTrim(s);
    assert tail[0] == b[0];
    BlankTail(tail);
    OperandBack(n, " " + tail);
    StillNoIn(b, " IN $task.ctx.units");
    EatAfter(PExpr(s).1, tail, ' ');
  }

  lemma KeyIsOperand(a: string)
    requires SegOk(Key(a))
    ensures Operand(Path([Key(a)]))
  {}

  lemma BlankTail(t: string)
    requires t != "" && !IsWs(t[0]) && t[0] != '.' && t[0] != '['
    ensures SafeTail(" " + t) && SkipWs(" " + t) == t == SkipWs(t)
  {
    assert (" " + t)[1..] == t;
    SkipsNothing(t);
  }

  lemma StillNoIn(b: string, u: string)
    requires b != "" && !IsWs(b[0]) && !EatIn(b).0 && u != "" && u[0] == ' '
    ensures !EatIn(b + u).0
  {
    hide SkipWs;
    SkipsNothing(b);
    SkipsNothing(b + u);
  }

  lemma FilterParts(field: string)
    ensures Print(Path([Key(field)])) == "$." + field
    ensures Print(Task([Key("ctx"), Key("units")])) == "$task.ctx.units"
  {
    assert PrintSegs([Key(field)]) == "." + field + "";
    assert [Key("ctx"), Key("units")][1..] == [Key("units")];
    assert PrintSegs([Key("units")]) == ".units" + "";
    assert PrintSegs([Key("ctx"), Key("units")]) == ".ctx" + ".units";
  }

  lemma FilterIsPrintable(field: string)
    requires SegOk(Key(field))
    ensures Printable(ChunkFilter(field))
  {}
}
