/** Characters, numerals and splitting, as the text-handling code uses them. */
module Text {
  import opened Wrappers

  /** The Unicode White_Space property. */
  predicate IsWs(c: char) {
    var n := c as int;
    (0x09 <= n <= 0x0D) || n == 0x20 || n == 0x85 || n == 0xA0 || n == 0x1680 || (0x2000 <= n <= 0x200A)
    || n == 0x2028 || n == 0x2029 || n == 0x202F || n == 0x205F || n == 0x3000
  }

  predicate IsDigit(c: char) { '0' <= c <= '9' }

  predicate IsLetter(c: char) { ('a' <= c <= 'z') || ('A' <= c <= 'Z') }

  predicate IsIdent(c: char) { IsLetter(c) || IsDigit(c) || c == '_' }

  function LowerChar(c: char): char { if 'A' <= c <= 'Z' then c + ' ' else c }

  function Lower(s: string): string
  {
    if s == "" then "" else [LowerChar(s[0])] + Lower(s[1..])
  }

  function SkipWs(s: string): (r: string)
    ensures |r| <= |s| && (r == "" || !IsWs(r[0]))
  {
    if s != "" && IsWs(s[0]) then SkipWs(s[1..]) else s
  }

  function TrimEnd(s: string): string {
    if s != "" && IsWs(s[|s| - 1]) then TrimEnd(s[..|s| - 1]) else s
  }

  function Trim(s: string): string { TrimEnd(SkipWs(s)) }

  lemma TrimIsIdentity(s: string)
    requires s != "" ==> !IsWs(s[0]) && !IsWs(s[|s| - 1])
    ensures Trim(s) == s
  {}

  lemma {:induction false} LowerLength(s: string)
    ensures |Lower(s)| == |s|
  {
    if s != "" { LowerLength(s[1..]); }
  }

  lemma {:induction false} LowerConcat(a: string, b: string)
    ensures Lower(a + b) == Lower(a) + Lower(b)
  {
    if a == "" {
      assert a + b == b;
    } else {
      assert (a + b)[1..] == a[1..] + b;
      LowerConcat(a[1..], b);
    }
  }

  lemma {:induction false} LowerAt(s: string, i: nat)
    requires i < |s|
    ensures |Lower(s)| == |s| && Lower(s)[i] == LowerChar(s[i])
  {
    LowerLength(s);
    if i > 0 { LowerAt(s[1..], i - 1); }
  }

  // ----- blanks around a text -----------------------------------------------------------------

  predicate Blanks(b: string) { forall i :: 0 <= i < |b| ==> IsWs(b[i]) }

  lemma {:induction false} SkipBlanks(b: string, s: string)
    requires Blanks(b)
    ensures SkipWs(b + s) == SkipWs(s)
  {
    hide IsWs;
    if b == "" {
      assert b + s == s;
    } else {
      assert (b + s)[1..] == b[1..] + s;
      SkipBlanks(b[1..], s);
    }
  }

  lemma {:induction false} EndBlanks(s: string, b: string)
    requires Blanks(b)
    ensures TrimEnd(s + b) == TrimEnd(s)
    decreases |b|
  {
    hide IsWs;
    if b == "" {
      assert s + b == s;
    } else {
      var n := |b| - 1;
      assert (s + b)[..|s| + n] == s + b[..n] && (s + b)[|s| + n] == b[n];
      EndBlanks(s, b[..n]);
    }
  }

  // ----- searching ---------------------------------------------------------------------------

  /** Where the text first occurs. */
  function FindText(s: string, word: string): (r: Option<nat>)
    ensures r.Some? ==> r.value + |word| <= |s|
    decreases |s|
  {
    if |s| < |word| then None
    else if s[..|word|] == word then Some(0)
    else if s == "" then None
    else match FindText(s[1..], word) case None => None case Some(i) => Some(i + 1)
  }

  const CONTAINS := "contains"

  ghost predicate OccursAt(s: string, word: string, i: nat) { i + |word| <= |s| && s[i..i + |word|] == word }

  lemma OccursShift(s: string, word: string, i: nat)
    requires s != "" && i > 0
    ensures OccursAt(s, word, i) <==> OccursAt(s[1..], word, i - 1)
  {
    var n := |word|;
    if i + n <= |s| {
      var a, b := s[i..i + n], s[1..][i - 1..i - 1 + n];
      assert forall k :: 0 <= k < n ==> a[k] == s[i + k] && b[k] == s[i + k];
      assert a == b;
    }
  }

  /** The search finds the first occurrence, if there is any. */
  lemma {:induction false} FindsFirst(s: string, word: string)
    ensures match FindText(s, word)
            case None => forall i: nat :: !OccursAt(s, word, i)
            case Some(i) => OccursAt(s, word, i) && forall j: nat :: j < i ==> !OccursAt(s, word, j)
    decreases |s|
  {
    if |s| >= |word| {
      assert s[0..0 + |word|] == s[..|word|];
      if s[..|word|] != word && s != "" {
        FindsFirst(s[1..], word);
        forall i: nat | i > 0 ensures OccursAt(s, word, i) <==> OccursAt(s[1..], word, i - 1) {
          OccursShift(s, word, i);
        }
      }
    }
  }

  ghost predicate Occurs(s: string, word: string) { exists i: nat :: OccursAt(s, word, i) }

  lemma FoundIffOccurs(s: string, word: string)
    ensures FindText(s, word).Some? <==> Occurs(s, word)
  {
    hide FindText, OccursAt;
    FindsFirst(s, word);
    match FindText(s, word)
    case None =>
    case Some(i) => assert OccursAt(s, word, i);
  }

  lemma FoundIsIn(s: string, c: char)
    ensures FindText(s, [c]).Some? ==> c in s
  {
    FindsFirst(s, [c]);
    var f := FindText(s, [c]);
    if f.Some? { assert s[f.value] == s[f.value..f.value + 1][0]; }
  }

  // ----- numerals --------------------------------------------------------------------------

  function DigitChar(d: nat): (c: char)
    requires d < 10
    ensures IsDigit(c) && DigitValue(c) == d
  {
    '0' + (d as char)
  }

  function DigitValue(c: char): nat
    requires IsDigit(c)
  {
    c as int - '0' as int
  }

  function Decimal(n: nat): (s: string)
    ensures s != "" && forall i :: 0 <= i < |s| ==> IsDigit(s[i])
  {
    if n < 10 then [DigitChar(n)] else Decimal(n / 10) + [DigitChar(n % 10)]
  }

  function DecimalInt(i: int): (s: string)
    ensures s != ""
  {
    if i < 0 then "-" + Decimal(-i) else Decimal(i)
  }

  /** The value of a run of digits, or nothing. */
  function DigitsValue(s: string): Option<nat> {
    if s == "" || !IsDigit(s[|s| - 1]) then None
    else if |s| == 1 then Some(DigitValue(s[0]))
    else match DigitsValue(s[..|s| - 1])
         case None => None
         case Some(n) => Some(10 * n + DigitValue(s[|s| - 1]))
  }

  lemma {:induction false} DigitsOfDecimal(n: nat)
    ensures DigitsValue(Decimal(n)) == Some(n)
  {
    if n >= 10 {
      DigitsOfDecimal(n / 10);
      var s := Decimal(n);
      assert s[..|s| - 1] == Decimal(n / 10);
    }
  }

  const USIZE_MAX: nat := 0xFFFF_FFFF_FFFF_FFFF
  const I64_MAX: int := 0x7FFF_FFFF_FFFF_FFFF

  /** `str::parse::<usize>`: an optional plus, then digits, within 64 bits. */
  function ParseUsize(s: string): (r: Option<nat>)
    ensures r.Some? ==> r.value <= USIZE_MAX
  {
    match DigitsValue(if s != "" && s[0] == '+' then s[1..] else s)
    case Some(n) => if n <= USIZE_MAX then Some(n) else None
    case None => None
  }

  predicate InI64(i: int) { -I64_MAX - 1 <= i <= I64_MAX }

  /** `str::parse::<i64>`: an optional sign, then digits, within 64 bits. */
  function ParseI64(s: string): (r: Option<int>)
    ensures r.Some? ==> InI64(r.value)
  {
    var neg := s != "" && s[0] == '-';
    match DigitsValue(if s != "" && (s[0] == '+' || s[0] == '-') then s[1..] else s)
    case Some(n) => var v: int := n; var i := if neg then -v else v; if InI64(i) then Some(i) else None
    case None => None
  }

  lemma ParsesUsize(n: nat)
    requires n <= USIZE_MAX
    ensures ParseUsize(Decimal(n)) == Some(n)
  {
    DigitsOfDecimal(n);
    assert IsDigit(Decimal(n)[0]);
  }

  lemma ParsesI64(i: int)
    requires InI64(i)
    ensures ParseI64(DecimalInt(i)) == Some(i)
  {
    DigitsOfDecimal(if i < 0 then -i else i);
    assert IsDigit(Decimal(if i < 0 then -i else i)[0]);
    if i < 0 {
      assert DecimalInt(i)[1..] == Decimal(-i);
    }
  }

  lemma {:induction false} DecimalInjective(a: nat, b: nat)
    requires Decimal(a) == Decimal(b)
    ensures a == b
  {
    DigitsOfDecimal(a);
    DigitsOfDecimal(b);
  }

  // ----- reading loops -------------------------------------------------------------------------

  /** What was read so far, and what reading the rest gives, make up the whole. */
  ghost predicate Joins<T>(whole: (seq<T>, string), done: seq<T>, rest: (seq<T>, string)) {
    whole.0 == done + rest.0 && whole.1 == rest.1
  }

  lemma JoinsStart<T>(whole: (seq<T>, string))
    ensures Joins(whole, [], whole)
  {}

  lemma JoinsStep<T>(whole: (seq<T>, string), done: seq<T>, more: seq<T>, rest: (seq<T>, string))
    requires Joins(whole, done, (more + rest.0, rest.1))
    ensures Joins(whole, done + more, rest)
  {}

  lemma JoinsEnd<T>(whole: (seq<T>, string), done: seq<T>, t: string)
    requires Joins(whole, done, ([], t))
    ensures whole == (done, t)
  {
    assert done + [] == done;
  }
}
