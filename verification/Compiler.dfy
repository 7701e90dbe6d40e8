/** The expression compiler: a cursor over the characters of the text.
    Each method is proved to do what the grammar in Expr says of the rest. */
module Compilation {
  import opened Wrappers
  import opened Text
  import opened Expr

  class Compiler {
    const chars: string
    var pos: nat

    ghost predicate Valid()
      reads this
    {
      pos <= |chars|
    }

    /** The text not yet read. */
    ghost function Rest(): (s: string)
      requires Valid()
      reads this
      ensures |s| == |chars| - pos
    {
      chars[pos..]
    }

    constructor (text: string)
      ensures Valid() && Rest() == text
    {
      chars := text;
      pos := 0;
    }

    method SkipBlanks()
      requires Valid()
      modifies `pos
      ensures Valid() && Rest() == SkipWs(old(Rest()))
    {
      hide IsWs;
      while pos < |chars| && IsWs(chars[pos])
        invariant Valid() && SkipWs(Rest()) == SkipWs(old(Rest()))
      {
        assert Rest()[1..] == chars[pos + 1..];
        pos := pos + 1;
      }
    }

    method StartsWith(p: string) returns (b: bool)
      requires Valid()
      modifies `pos
      ensures Valid() && Rest() == SkipWs(old(Rest())) && b == HasPrefix(Rest(), p)
    {
      hide SkipWs;
      SkipBlanks();
      b := |chars| - pos >= |p| && chars[pos..pos + |p|] == p;
      assert |Rest()| >= |p| ==> Rest()[..|p|] == chars[pos..pos + |p|];
    }

    method Step(n: nat)
      requires Valid() && n <= |SkipWs(Rest())|
      modifies `pos
      ensures Valid() && Rest() == SkipWs(old(Rest()))[n..]
    {
      hide SkipWs;
      SkipBlanks();
      assert Rest()[n..] == chars[pos + n..];
      pos := pos + n;
    }

    method EatChar(c: char) returns (b: bool)
      requires Valid()
      modifies `pos
      ensures Valid() && (b, Rest()) == Eat(old(Rest()), c)
    {
      hide SkipWs;
      SkipBlanks();
      b := pos < |chars| && chars[pos] == c;
      if b {
        assert Rest()[1..] == chars[pos + 1..];
        pos := pos + 1;
      }
    }

    method ReadIdent() returns (id: string)
      requires Valid()
      modifies `pos
      ensures Valid() && (id, Rest()) == Ident(old(Rest()))
    {
      hide SkipWs, IsIdent, TakeIdent, Joins;
      SkipBlanks();
      id := "";
      ghost var s := Rest();
      JoinsStart(TakeIdent(s));
      while pos < |chars| && IsIdent(chars[pos])
        invariant Valid() && |Rest()| <= |s|
        invariant Joins(TakeIdent(s), id, TakeIdent(Rest()))
      {
        assert Rest()[1..] == chars[pos + 1..];
        TakeIdentTurn(Rest());
        JoinsStep(TakeIdent(s), id, [chars[pos]], TakeIdent(chars[pos + 1..]));
        id := id + [chars[pos]];
        pos := pos + 1;
      }
      TakeIdentTurn(Rest());
      JoinsEnd(TakeIdent(s), id, Rest());
    }

    method ReadSegName() returns (seg: string)
      requires Valid()
      modifies `pos
      ensures Valid() && (seg, Rest()) == TakeSeg(old(Rest()))
    {
      hide IsSegStop, Joins;
      seg := "";
      ghost var s := Rest();
      JoinsStart(TakeSeg(s));
      while pos < |chars| && !IsSegStop(chars[pos])
        invariant Valid() && |Rest()| <= |s|
        invariant Joins(TakeSeg(s), seg, TakeSeg(Rest()))
      {
        assert Rest()[1..] == chars[pos + 1..];
        JoinsStep(TakeSeg(s), seg, [chars[pos]], TakeSeg(chars[pos + 1..]));
        seg := seg + [chars[pos]];
        pos := pos + 1;
      }
      JoinsEnd(TakeSeg(s), seg, Rest());
    }

    method ReadBracket() returns (num: string)
      requires Valid()
      modifies `pos
      ensures Valid() && (num, Rest()) == TakeBracket(old(Rest()))
    {
      hide Joins;
      num := "";
      ghost var s := Rest();
      JoinsStart(TakeBracket(s));
      while pos < |chars|
        invariant Valid() && Joins(TakeBracket(s), num, TakeBracket(Rest()))
      {
        var c := chars[pos];
        assert Rest()[1..] == chars[pos + 1..];
        if c != ']' { JoinsStep(TakeBracket(s), num, [c], TakeBracket(chars[pos + 1..])); }
        pos := pos + 1;
        if c == ']' { break; }
        num := num + [c];
      }
      JoinsEnd(TakeBracket(s), num, Rest());
    }

    method PathSegments() returns (segs: seq<Seg>)
      requires Valid()
      modifies `pos
      ensures Valid() && (segs, Rest()) == PathSegs(old(Rest()))
    {
      hide PathSegs, SkipWs, TakeSeg, TakeBracket, BracketSeg, Joins;
      segs := [];
      ghost var s := Rest();
      JoinsStart(PathSegs(s));
      while true
        invariant Valid() && |Rest()| <= |s|
        invariant Joins(PathSegs(s), segs, PathSegs(Rest()))
        decreases |chars| - pos
      {
        PathSegsStep(Rest());
        SkipBlanks();
        ghost var t := Rest();
        if pos < |chars| && chars[pos] == '.' {
          pos := pos + 1;
          assert t[1..] == Rest();
          var seg := ReadSegName();
          var one := if seg == "" then [] else [Key(seg)];
          JoinsStep(PathSegs(s), segs, one, PathSegs(Rest()));
          segs := segs + one;
        } else if pos < |chars| && chars[pos] == '[' {
          pos := pos + 1;
          assert t[1..] == Rest();
          var num := ReadBracket();
          JoinsStep(PathSegs(s), segs, BracketSeg(num), PathSegs(Rest()));
          segs := segs + BracketSeg(num);
        } else {
          break;
        }
      }
      JoinsEnd(PathSegs(s), segs, Rest());
    }

    method ReadQuoted() returns (q: string)
      requires Valid()
      modifies `pos
      ensures Valid() && (q, Rest()) == TakeQuoted(old(Rest()))
    {
      hide Joins;
      q := "";
      ghost var s := Rest();
      JoinsStart(TakeQuoted(s));
      while pos < |chars|
        invariant Valid() && Joins(TakeQuoted(s), q, TakeQuoted(Rest()))
      {
        var c := chars[pos];
        ghost var t := Rest();
        pos := pos + 1;
        assert t[1..] == Rest();
        if c == '\'' { break; }
        if c == '\\' {
          if pos < |chars| {
            assert t[2..] == chars[pos + 1..];
            JoinsStep(TakeQuoted(s), q, [chars[pos]], TakeQuoted(chars[pos + 1..]));
            q := q + [chars[pos]];
            pos := pos + 1;
          }
        } else {
          JoinsStep(TakeQuoted(s), q, [c], TakeQuoted(Rest()));
          q := q + [c];
        }
      }
      JoinsEnd(TakeQuoted(s), q, Rest());
    }

    method ReadNum() returns (num: string)
      requires Valid()
      modifies `pos
      ensures Valid() && (num, Rest()) == TakeNum(old(Rest()))
    {
      hide IsNumChar, Joins;
      num := "";
      ghost var s := Rest();
      JoinsStart(TakeNum(s));
      while pos < |chars| && IsNumChar(chars[pos])
        invariant Valid() && |Rest()| <= |s|
        invariant Joins(TakeNum(s), num, TakeNum(Rest()))
      {
        assert Rest()[1..] == chars[pos + 1..];
        JoinsStep(TakeNum(s), num, [chars[pos]], TakeNum(chars[pos + 1..]));
        num := num + [chars[pos]];
        pos := pos + 1;
      }
      JoinsEnd(TakeNum(s), num, Rest());
    }

    method ParseDollar() returns (n: Node)
      requires Valid()
      modifies `pos
      ensures Valid() && (n, Rest()) == PDollar(old(Rest()))
    {
      hide PathSegs, Ident;
      var isTask := false;
      if pos < |chars| && (IsLetter(chars[pos]) || chars[pos] == '_') {
        var id := ReadIdent();
        isTask := id == "task";
      }
      var segs := PathSegments();
      n := if isTask then Task(segs) else if segs == [] then Root else Path(segs);
    }

    method ParseAtom() returns (n: Node)
      requires Valid()
      modifies `pos
      ensures Valid() && (n, Rest()) == PAtom(old(Rest()))
    {
      hide SkipWs, PDollar, TakeQuoted, TakeNum, Ident, NumLit;
      SkipBlanks();
      if pos == |chars| { return Literal(NullLit); }
      var c := chars[pos];
      assert Rest()[1..] == chars[pos + 1..];
      SkipWsIdem(old(Rest()));
      if c == '$' {
        pos := pos + 1;
        n := ParseDollar();
      } else if c == '\'' {
        pos := pos + 1;
        var q := ReadQuoted();
        n := Literal(StrLit(q));
      } else if c == 't' {
        var id := ReadIdent();
        n := Literal(BoolLit(id == "true"));
      } else if c == 'f' {
        var _ := ReadIdent();
        n := Literal(BoolLit(false));
      } else if c == 'n' {
        var _ := ReadIdent();
        n := Literal(NullLit);
      } else {
        var num := ReadNum();
        n := Literal(NumLit(num));
      }
    }

    method ParseExpr() returns (n: Node)
      requires Valid()
      modifies `pos
      ensures Valid() && (n, Rest()) == PExpr(old(Rest()))
      decreases |chars| - pos, 0
    {
      hide SkipWs, PExpr, PCast, PToJson, PCoalesce, PCartesian, HasPrefix;
      ghost var s := Rest();
      SkipWsIdem(s);
      PExprForms(s);
      SkipBlanks();
      var cast := StartsWith(CAST);
      if cast {
        Step(|CAST|);
        n := ParseCast();
        return;
      }
      var toJson := StartsWith(TO_JSON);
      if toJson {
        Step(|TO_JSON|);
        n := ParseToJson();
        return;
      }
      var coalesce := StartsWith(COALESCE);
      if coalesce {
        Step(|COALESCE|);
        n := ParseCoalesce();
        return;
      }
      var cartesian := StartsWith(CARTESIAN);
      if cartesian {
        Step(|CARTESIAN|);
        n := ParseCartesian();
        return;
      }
      n := ParseAtom();
    }

    method ParseCast() returns (n: Node)
      requires Valid()
      modifies `pos
      ensures Valid() && (n, Rest()) == PCast(old(Rest()))
      decreases |chars| - pos, 1
    {
      hide PExpr, Ident, Eat, Lower, CastType;
      var inner := ParseExpr();
      var _ := ReadIdent();
      var ty := ReadIdent();
      var _ := EatChar(')');
      n := Cast(inner, CastType(Lower(ty)));
    }

    method ParseToJson() returns (n: Node)
      requires Valid()
      modifies `pos
      ensures Valid() && (n, Rest()) == PToJson(old(Rest()))
      decreases |chars| - pos, 1
    {
      hide PExpr, Eat;
      var inner := ParseExpr();
      var _ := EatChar(')');
      n := ToJson(inner);
    }

    method ParseCoalesce() returns (n: Node)
      requires Valid()
      modifies `pos
      ensures Valid() && (n, Rest()) == PCoalesce(old(Rest()))
      decreases |chars| - pos, 2
    {
      hide PExpr, PArgs, Eat, Joins;
      var args: seq<Node> := [];
      ghost var s := Rest();
      JoinsStart(PArgs(s));
      var more := true;
      while more
        invariant Valid() && |Rest()| <= |s|
        invariant Joins(PArgs(s), args, if more then PArgs(Rest()) else ([], Rest()))
        decreases |chars| - pos, more
      {
        ghost var t := Rest();
        var v := ParseExpr();
        more := EatChar(',');
        ArgsStep(t, v, more, Rest());
        JoinsStep(PArgs(s), args, [v], if more then PArgs(Rest()) else ([], Rest()));
        args := args + [v];
      }
      JoinsEnd(PArgs(s), args, Rest());
      var _ := EatChar(')');
      n := Coalesce(args);
    }

    method ParseCartesian() returns (n: Node)
      requires Valid()
      modifies `pos
      ensures Valid() && (n, Rest()) == PCartesian(old(Rest()))
      decreases |chars| - pos, 1
    {
      hide PExpr, Eat;
      var left := ParseExpr();
      var _ := EatChar(',');
      var right := ParseExpr();
      var cond: Option<string> := None;
      var third := EatChar(',');
      if third {
        var c := ParseExpr();
        if c.Literal? && c.lit.StrLit? { cond := Some(c.lit.s); }
      }
      var _ := EatChar(')');
      n := CartProd(left, right, cond);
    }

    method EatInWord() returns (b: bool)
      requires Valid()
      modifies `pos
      ensures Valid() && (b, Rest()) == EatIn(old(Rest()))
    {
      hide SkipWs, IsIdent;
      SkipBlanks();
      if |chars| - pos < 2 { return false; }
      if LowerChar(chars[pos]) == 'i' && LowerChar(chars[pos + 1]) == 'n' {
        if pos + 2 < |chars| && IsIdent(chars[pos + 2]) { return false; }
        assert Rest()[2..] == chars[pos + 2..];
        pos := pos + 2;
        return true;
      }
      return false;
    }

    method ParseInClause() returns (n: Node)
      requires Valid()
      modifies `pos
      ensures Valid() && (n, Rest()) == PInClause(old(Rest()))
    {
      hide PExpr, EatIn, SkipWs;
      n := ParseExpr();
      EatInAnyway(Rest());
      SkipBlanks();
      var isIn := EatInWord();
      if isIn {
        var right := ParseExpr();
        n := In(n, right);
      }
    }
  }

  lemma EatInAnyway(s: string)
    ensures EatIn(SkipWs(s)) == EatIn(s)
  {
    hide SkipWs, IsIdent, LowerChar;
    SkipWsIdem(s);
  }

  lemma SkipWsIdem(s: string)
    ensures SkipWs(SkipWs(s)) == SkipWs(s)
  {}

  lemma ArgsStep(t: string, v: Node, comma: bool, rest: string)
    requires PExpr(t).0 == v && Eat(PExpr(t).1, ',') == (comma, rest)
    ensures var r := if comma then PArgs(rest) else ([], rest);
            PArgs(t) == ([v] + r.0, r.1)
  {
    hide PExpr, Eat;
    assert [v] + [] == [v];
  }

  /** One turn of the identifier loop. */
  lemma TakeIdentTurn(s: string)
    ensures TakeIdent(s) ==
        if s != "" && IsIdent(s[0]) then ([s[0]] + TakeIdent(s[1..]).0, TakeIdent(s[1..]).1) else ("", s)
  {
    hide IsIdent;
  }

  /** One turn of the path loop. */
  lemma PathSegsStep(s: string)
    ensures var t := SkipWs(s);
            if t != "" && t[0] == '.' then
              var (seg, rest) := TakeSeg(t[1..]);
              PathSegs(s) == ((if seg == "" then [] else [Key(seg)]) + PathSegs(rest).0, PathSegs(rest).1)
            else if t != "" && t[0] == '[' then
              var (num, rest) := TakeBracket(t[1..]);
              PathSegs(s) == (BracketSeg(num) + PathSegs(rest).0, PathSegs(rest).1)
            else PathSegs(s) == ([], t) && PathSegs(t) == ([], t)
  {
    hide SkipWs, TakeSeg, TakeBracket, BracketSeg;
    SkipWsIdem(s);
  }

  lemma PExprForms(s: string)
    ensures var t := SkipWs(s);
            && (HasPrefix(t, CAST) ==> |CAST| <= |t| && PExpr(s) == PCast(t[|CAST|..]))
            && (!HasPrefix(t, CAST) && HasPrefix(t, TO_JSON) ==>
                |TO_JSON| <= |t| && PExpr(s) == PToJson(t[|TO_JSON|..]))
            && (!HasPrefix(t, CAST) && !HasPrefix(t, TO_JSON) && HasPrefix(t, COALESCE) ==>
                |COALESCE| <= |t| && PExpr(s) == PCoalesce(t[|COALESCE|..]))
            && (!HasPrefix(t, CAST) && !HasPrefix(t, TO_JSON) && !HasPrefix(t, COALESCE) && HasPrefix(t, CARTESIAN) ==>
                |CARTESIAN| <= |t| && PExpr(s) == PCartesian(t[|CARTESIAN|..]))
            && (!HasPrefix(t, CAST) && !HasPrefix(t, TO_JSON) && !HasPrefix(t, COALESCE) && !HasPrefix(t, CARTESIAN) ==>
                PExpr(s) == PAtom(t))
  {
    hide SkipWs, PAtom, PCast, PToJson, PCoalesce, PCartesian;
  }

  /** Compiling a text yields the node the grammar gives it, and always ends. */
  method CompileText(text: string) returns (n: Node)
    ensures n == Compile(text)
  {
    hide PInClause, Trim;
    var c := new Compiler(Trim(text));
    n := c.ParseInClause();
  }
}
