/** The record splitter: cuts a JSON array document into its top-level records
    without parsing them. */
module Scanner {
  import opened Wrappers
  import opened Text

  predicate IsAsciiWs(c: char) { c == ' ' || c == '\t' || c == '\n' || c == '\r' || c as int == 12 }

  predicate IsSep(c: char) { IsAsciiWs(c) || c == ',' }

  predicate IsOpen(c: char) { c == '{' || c == '[' }

  predicate IsClose(c: char) { c == '}' || c == ']' }

  function SkipAsciiWs(s: string): (r: string)
    ensures |r| <= |s|
  {
    if s != "" && IsAsciiWs(s[0]) then SkipAsciiWs(s[1..]) else s
  }

  function SkipSeps(s: string): (r: string)
    ensures |r| <= |s|
  {
    if s != "" && IsSep(s[0]) then SkipSeps(s[1..]) else s
  }

  function Cons(c: char, r: (string, string)): (string, string) { ([c] + r.0, r.1) }

  /** The text of one record and what is left, from inside the record: the
      bracket depth, and whether a string, and an escape in it, is open. */
  function TakeRecord(s: string, depth: int, inStr: bool, esc: bool): (r: (string, string))
    ensures |r.1| <= |s| && (s != "" ==> |r.1| < |s| && r.0 != "")
  {
    if s == "" then ("", "")
    else if inStr then
      Cons(s[0], TakeRecord(s[1..], depth, esc || s[0] != '"', !esc && s[0] == '\\'))
    else if s[0] == '"' then Cons(s[0], TakeRecord(s[1..], depth, true, esc))
    else if IsOpen(s[0]) then Cons(s[0], TakeRecord(s[1..], depth + 1, false, esc))
    else if IsClose(s[0]) then
      if depth - 1 <= 0 then ([s[0]], s[1..]) else Cons(s[0], TakeRecord(s[1..], depth - 1, false, esc))
    else Cons(s[0], TakeRecord(s[1..], depth, false, esc))
  }

  /** Where the next record starts, if there is one. */
  function Lead(s: string): (r: string)
    ensures |r| <= |s|
  {
    var t := SkipAsciiWs(s);
    if t == "" then t else SkipSeps(if t[0] == '[' then t[1..] else t)
  }

  function NextRecord(s: string): (r: (Option<string>, string))
    ensures |r.1| <= |s| && (r.0.Some? ==> |r.1| < |s|)
  {
    var t := Lead(s);
    if t == "" || t[0] == ']' then (None, t)
    else var (rec, rest) := TakeRecord(t, 0, false, false); (Some(rec), rest)
  }

  /** Everything the scanner yields. */
  function Records(s: string): seq<string>
    decreases |s|
  {
    var (rec, rest) := NextRecord(s);
    match rec
    case None => []
    case Some(text) => [text] + Records(rest)
  }

  class RecordScanner {
    const text: string
    var i: nat
    var done: bool

    ghost predicate Valid()
      reads this
    {
      i <= |text|
    }

    ghost function Rest(): (s: string)
      requires Valid()
      reads this
      ensures |s| == |text| - i
    {
      text[i..]
    }

    constructor (t: string)
      ensures Valid() && !done && Rest() == t
    {
      text := t;
      i := 0;
      done := false;
    }

    method SkipBlanks()
      requires Valid()
      modifies `i
      ensures Valid() && Rest() == SkipAsciiWs(old(Rest()))
    {
      while i < |text| && IsAsciiWs(text[i])
        invariant Valid() && SkipAsciiWs(Rest()) == SkipAsciiWs(old(Rest()))
      {
        assert Rest()[1..] == text[i + 1..];
        i := i + 1;
      }
    }

    method SkipSeparators()
      requires Valid()
      modifies `i
      ensures Valid() && Rest() == SkipSeps(old(Rest()))
    {
      while i < |text| && (IsAsciiWs(text[i]) || text[i] == ',')
        invariant Valid() && SkipSeps(Rest()) == SkipSeps(old(Rest()))
      {
        assert Rest()[1..] == text[i + 1..];
        i := i + 1;
      }
    }

    /** The loop over one record. */
    method ReadRecord() returns (rec: string)
      requires Valid()
      modifies `i
      ensures Valid() && (rec, Rest()) == TakeRecord(old(Rest()), 0, false, false)
    {
      hide Joins;
      var start := i;
      ghost var whole := TakeRecord(Rest(), 0, false, false);
      ghost var read := "";
      var depth: int, inStr, esc := 0, false, false;
      JoinsStart(whole);
      while i < |text|
        invariant Valid() && start <= i && read == text[start..i]
        invariant Joins(whole, read, TakeRecord(Rest(), depth, inStr, esc))
      {
        var c := text[i];
        ghost var s := Rest();
        assert s[1..] == text[i + 1..];
        ghost var d', n', e' := depth, inStr, esc;
        var last := false;
        if inStr {
          if esc { esc := false; }
          else if c == '\\' { esc := true; }
          else if c == '"' { inStr := false; }
        } else if c == '"' {
          inStr := true;
        } else if c == '{' || c == '[' {
          depth := depth + 1;
        } else if c == '}' || c == ']' {
          depth := depth - 1;
          last := depth <= 0;
        }
        i := i + 1;
        RecordTurn(s, d', n', e', Rest(), depth, inStr, esc, last);
        JoinsStep(whole, read, [c], if last then ("", Rest()) else TakeRecord(Rest(), depth, inStr, esc));
        read := read + [c];
        assert text[start..i] == read;
        if last {
          JoinsEnd(whole, read, Rest());
          return text[start..i];
        }
      }
      JoinsEnd(whole, read, Rest());
      rec := text[start..i];
    }

    method Next() returns (rec: Option<string>)
      requires Valid()
      modifies this
      ensures Valid() && done == (old(done) || rec.None?)
      ensures old(done) ==> rec.None?
      ensures !old(done) ==> (rec, Rest()) == NextRecord(old(Rest()))
    {
      if done { return None; }
      SkipBlanks();
      if i >= |text| {
        done := true;
        return None;
      }
      if text[i] == '[' {
        assert Rest()[1..] == text[i + 1..];
        i := i + 1;
      }
      SkipSeparators();
      if i >= |text| || text[i] == ']' {
        done := true;
        return None;
      }
      var r := ReadRecord();
      rec := Some(r);
    }
  }

  /** One turn of the record loop is one step of `TakeRecord`. */
  lemma RecordTurn(s: string, d: int, n: bool, e: bool, t: string, d': int, n': bool, e': bool, last: bool)
    requires s != "" && t == s[1..]
    requires n ==> d' == d && !last && e' == (!e && s[0] == '\\') && n' == (e || s[0] != '"')
    requires !n ==> e' == e && n' == (s[0] == '"')
                    && d' == d + (if s[0] != '"' && IsOpen(s[0]) then 1
                                  else if s[0] != '"' && IsClose(s[0]) then -1 else 0)
                    && (last <==> s[0] != '"' && IsClose(s[0]) && d' <= 0)
    ensures var r := if last then ("", t) else TakeRecord(t, d', n', e');
            TakeRecord(s, d, n, e) == ([s[0]] + r.0, r.1)
  {
    assert [s[0]] + "" == [s[0]];
  }

  /** Running the scanner to its end yields `Records`, and it always ends. */
  method CollectRecords(text: string) returns (recs: seq<string>)
    ensures recs == Records(text)
  {
    hide NextRecord;
    var scanner := new RecordScanner(text);
    recs := [];
    var more := true;
    while more
      invariant scanner.Valid() && scanner.done == !more
      invariant Records(text) == recs + (if more then Records(scanner.Rest()) else [])
      decreases |scanner.text| - scanner.i, more
    {
      var r := scanner.Next();
      match r
      case None => more := false;
      case Some(rec) => recs := recs + [rec];
    }
  }
}
