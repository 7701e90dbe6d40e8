/** JSON strings and arrays of strings: what the engine writes, and a reader
    that follows RFC 8259, sections 2, 5 and 7. */
module Json {
  import opened Wrappers
  import opened Text

  // ----- writing -------------------------------------------------------------------------------

  function HexChar(d: nat): (c: char)
    requires d < 16
  {
    if d < 10 then '0' + (d as char) else 'a' + ((d - 10) as char)
  }

  function EscapeChar(c: char): (e: string)
    ensures e != ""
  {
    if c == '"' then "\\\""
    else if c == '\\' then "\\\\"
    else if c == '\n' then "\\n"
    else if c == '\r' then "\\r"
    else if c == '\t' then "\\t"
    else if c as int < 0x20 then ['\\', 'u', '0', '0', HexChar(c as int / 16), HexChar(c as int % 16)]
    else [c]
  }

  function Escape(s: string): string {
    if s == "" then "" else EscapeChar(s[0]) + Escape(s[1..])
  }

  function QuoteJson(s: string): string { "\"" + Escape(s) + "\"" }

  function ItemsText(items: seq<string>): string {
    if items == [] then ""
    else if |items| == 1 then QuoteJson(items[0])
    else QuoteJson(items[0]) + "," + ItemsText(items[1..])
  }

  function ArrayText(items: seq<string>): string { "[" + ItemsText(items) + "]" }

  lemma {:induction false} EscapeSnoc(s: string, c: char)
    ensures Escape(s + [c]) == Escape(s) + EscapeChar(c)
  {
    if s == "" {
      assert s + [c] == [c];
      assert Escape([c]) == EscapeChar(c) + Escape([c][1..]);
      assert Escape([c][1..]) == "";
    } else {
      assert (s + [c])[1..] == s[1..] + [c];
      EscapeSnoc(s[1..], c);
      assert EscapeChar(s[0]) + (Escape(s[1..]) + EscapeChar(c)) == EscapeChar(s[0]) + Escape(s[1..]) + EscapeChar(c);
    }
  }

  /** The escaping loop of both the expression engine and the table reader. */
  method EscapeText(s: string) returns (out: string)
    ensures out == Escape(s)
  {
    hide EscapeChar;
    out := "";
    for i := 0 to |s|
      invariant out == Escape(s[..i])
    {
      assert s[..i + 1] == s[..i] + [s[i]];
      EscapeSnoc(s[..i], s[i]);
      out := out + EscapeChar(s[i]);
    }
    assert s[..|s|] == s;
  }

  lemma {:induction false} ItemsSnoc(items: seq<string>, x: string)
    ensures ItemsText(items + [x]) == ItemsText(items) + (if items == [] then "" else ",") + QuoteJson(x)
  {
    hide QuoteJson;
    if items == [] {
      assert items + [x] == [x];
    } else {
      var all := items + [x];
      assert all[1..] == items[1..] + [x];
      ItemsSnoc(items[1..], x);
      var q := QuoteJson(items[0]);
      if |items| > 1 {
        var more := ItemsText(items[1..]);
        assert q + "," + (more + "," + QuoteJson(x)) == q + "," + more + "," + QuoteJson(x);
      }
    }
  }

  method WriteArray(items: seq<string>) returns (out: string)
    ensures out == ArrayText(items)
  {
    hide QuoteJson, ItemsText;
    out := "[";
    assert ItemsText([]) == "" by { NoItems(); }
    assert items[..0] == [];
    for i := 0 to |items|
      invariant out == "[" + ItemsText(items[..i])
    {
      var quoted := QuoteItem(items[i]);
      assert items[..i + 1] == items[..i] + [items[i]];
      ItemsSnoc(items[..i], items[i]);
      Regroup(out, ItemsText(items[..i]), if i == 0 then "" else ",", quoted);
      if i > 0 { out := out + ","; }
      out := out + quoted;
    }
    assert items[..|items|] == items;
    out := out + "]";
  }

  lemma NoItems()
    ensures ItemsText([]) == ""
  {}

  lemma Regroup(out: string, done: string, comma: string, quoted: string)
    requires out == "[" + done
    ensures out + comma + quoted == "[" + (done + comma + quoted)
    ensures comma == "" ==> out + quoted == out + comma + quoted
  {}

  method QuoteItem(s: string) returns (q: string)
    ensures q == QuoteJson(s)
  {
    var e := EscapeText(s);
    q := "\"" + e + "\"";
  }

  // ----- reading -------------------------------------------------------------------------------

  predicate IsHex(c: char) { IsDigit(c) || ('a' <= c <= 'f') || ('A' <= c <= 'F') }

  function HexValue(c: char): (v: nat)
    requires IsHex(c)
    ensures v < 16
  {
    if IsDigit(c) then c as int - '0' as int
    else if 'a' <= c <= 'f' then c as int - 'a' as int + 10
    else c as int - 'A' as int + 10
  }

  /** The character after a backslash and a letter other than u. */
  function Simple(c: char): Option<char> {
    if c == '"' || c == '\\' || c == '/' then Some(c)
    else if c == 'b' then Some(8 as char)
    else if c == 'f' then Some(12 as char)
    else if c == 'n' then Some('\n')
    else if c == 'r' then Some('\r')
    else if c == 't' then Some('\t')
    else None
  }

  function CodeUnit(s: string): Option<char>
    requires |s| == 4
  {
    if IsHex(s[0]) && IsHex(s[1]) && IsHex(s[2]) && IsHex(s[3]) then
      var n := 0x1000 * HexValue(s[0]) + 0x100 * HexValue(s[1]) + 16 * HexValue(s[2]) + HexValue(s[3]);
      if 0xD800 <= n < 0xE000 then None else Some(n as char)
    else None
  }

  /** One character of a string literal: its value and the text after it. */
  function ReadChar(s: string): (r: Option<(char, string)>)
    ensures r.Some? ==> |r.value.1| < |s|
  {
    if s == "" || s[0] == '"' || s[0] as int < 0x20 then None
    else if s[0] != '\\' then Some((s[0], s[1..]))
    else if |s| >= 6 && s[1] == 'u' then
      match CodeUnit(s[2..6])
      case Some(c) => Some((c, s[6..]))
      case None => None
    else if |s| >= 2 then
      match Simple(s[1])
      case Some(c) => Some((c, s[2..]))
      case None => None
    else None
  }

  /** A string literal after its opening quote: its value and the text after its closing quote. */
  function ReadString(s: string): (r: Option<(string, string)>)
    ensures r.Some? ==> |r.value.1| < |s|
    decreases |s|
  {
    if s != "" && s[0] == '"' then Some(("", s[1..]))
    else match ReadChar(s)
         case None => None
         case Some(first) =>
           match ReadString(first.1)
           case None => None
           case Some(more) => Some(([first.0] + more.0, more.1))
  }

  predicate IsJsonWs(c: char) { c == ' ' || c == '\t' || c == '\n' || c == '\r' }

  function SkipJsonWs(s: string): (r: string)
    ensures |r| <= |s|
  {
    if s != "" && IsJsonWs(s[0]) then SkipJsonWs(s[1..]) else s
  }

  /** String elements up to and including the closing bracket. */
  function ReadItems(s: string): Option<seq<string>>
    decreases |s|
  {
    var t := SkipJsonWs(s);
    if t == "" || t[0] != '"' then None
    else match ReadString(t[1..])
         case None => None
         case Some(item) =>
           var u := SkipJsonWs(item.1);
           if u == "]" then Some([item.0])
           else if u != "" && u[0] == ',' then
             match ReadItems(u[1..])
             case None => None
             case Some(more) => Some([item.0] + more)
           else None
  }

  function ReadArray(s: string): Option<seq<string>> {
    if s == "" || s[0] != '[' then None
    else if SkipJsonWs(s[1..]) == "]" then Some([])
    else ReadItems(s[1..])
  }

  // ----- round trips -----------------------------------------------------------------------------

  lemma HexRoundTrip(d: nat)
    requires d < 16
    ensures IsHex(HexChar(d)) && HexValue(HexChar(d)) == d
  {}

  lemma ControlRoundTrip(n: nat)
    requires n < 0x20
    ensures CodeUnit(['0', '0', HexChar(n / 16), HexChar(n % 16)]) == Some(n as char)
  {
    HexRoundTrip(n / 16);
    HexRoundTrip(n % 16);
  }

  lemma CharRoundTrip(c: char, t: string)
    ensures ReadChar(EscapeChar(c) + t) == Some((c, t))
    ensures (EscapeChar(c) + t)[0] != '"'
  {
    var e := EscapeChar(c);
    var s := e + t;
    assert s[|e|..] == t;
    if c as int < 0x20 && c != '\n' && c != '\r' && c != '\t' {
      ControlRoundTrip(c as int);
      assert s[2..6] == e[2..6] == ['0', '0', HexChar(c as int / 16), HexChar(c as int % 16)];
    }
  }

  /** Whatever the string holds, its literal reads back, and reading stops right after it. */
  lemma {:induction false} StringRoundTrip(s: string, t: string)
    ensures ReadString(Escape(s) + "\"" + t) == Some((s, t))
  {
    hide ReadChar, EscapeChar;
    var all := Escape(s) + "\"" + t;
    if s == "" {
      assert all[0] == '"' && all[1..] == t;
    } else {
      var rest := Escape(s[1..]) + "\"" + t;
      assert all == EscapeChar(s[0]) + rest;
      StringRoundTrip(s[1..], t);
      CharRoundTrip(s[0], rest);
      assert s == [s[0]] + s[1..];
    }
  }

  lemma ItemStep(x: string, t: string)
    requires t != "" && (t[0] == ',' || t == "]")
    ensures ReadItems(QuoteJson(x) + t)
         == (if t == "]" then Some([x]) else match ReadItems(t[1..]) case None => None case Some(more) =>
             Some([x] + more))
  {
    hide ReadString, Escape;
    var all := QuoteJson(x) + t;
    assert all[0] == '"' && all[1..] == Escape(x) + "\"" + t;
    StringRoundTrip(x, t);
  }

  lemma {:induction false} ItemsRoundTrip(items: seq<string>)
    requires items != []
    ensures ReadItems(ItemsText(items) + "]") == Some(items)
  {
    hide QuoteJson, ReadItems;
    if |items| == 1 {
      ItemStep(items[0], "]");
      assert items == [items[0]];
    } else {
      var t := "," + (ItemsText(items[1..]) + "]");
      assert ItemsText(items) + "]" == QuoteJson(items[0]) + t;
      ItemStep(items[0], t);
      assert t[1..] == ItemsText(items[1..]) + "]";
      ItemsRoundTrip(items[1..]);
      assert items == [items[0]] + items[1..];
    }
  }

  lemma ItemsStart(items: seq<string>)
    requires items != []
    ensures ItemsText(items) != "" && ItemsText(items)[0] == '"'
  {}

  /** The printed array is JSON that reads back to exactly the list. */
  lemma ArrayRoundTrip(items: seq<string>)
    ensures ReadArray(ArrayText(items)) == Some(items)
  {
    hide ReadItems, ItemsText;
    var s := ArrayText(items);
    var t := ItemsText(items) + "]";
    assert s[0] == '[' && s[1..] == t;
    if items == [] {
      NoItems();
      assert t == "]";
    } else {
      ItemsStart(items);
      assert t[0] == '"';
      ItemsRoundTrip(items);
    }
  }

  // ----- the unescaped printer --------------------------------------------------------------------

  predicate PlainChar(c: char) { c != '"' && c != '\\' && c as int >= 0x20 }

  predicate IsPlain(s: string) { forall i :: 0 <= i < |s| ==> PlainChar(s[i]) }

  /** `to_json_string` of a string puts quotes around it and escapes nothing. */
  function QuoteRaw(s: string): string { "\"" + s + "\"" }

  /** Reading never gains characters, and loses none only on plain text. */
  lemma {:induction false} ReadingShrinks(u: string)
    requires ReadString(u).Some?
    ensures var r := ReadString(u).value;
            |r.0| + 1 + |r.1| <= |u| && (|r.0| + 1 + |r.1| == |u| ==> IsPlain(u[..|r.0|]))
    decreases |u|
  {
    hide Simple, CodeUnit;
    if u[0] != '"' {
      ReadingShrinks(ReadChar(u).value.1);
    }
  }

  lemma {:induction false} PlainReadsBack(s: string)
    requires IsPlain(s)
    ensures ReadString(s + "\"") == Some((s, ""))
  {
    if s != "" {
      hide Simple, CodeUnit;
      PlainReadsBack(s[1..]);
      assert (s + "\"")[1..] == s[1..] + "\"";
      assert s == [s[0]] + s[1..];
    }
  }

  /** The unescaped text is a literal for the same string exactly when the
      string holds no quote, no backslash and no control character. */
  lemma RawQuoteIsJsonIffPlain(s: string)
    ensures ReadString(QuoteRaw(s)[1..]) == Some((s, "")) <==> IsPlain(s)
  {
    hide ReadString, IsPlain;
    assert QuoteRaw(s)[1..] == s + "\"";
    if ReadString(s + "\"") == Some((s, "")) {
      ReadingShrinks(s + "\"");
      assert (s + "\"")[..|s|] == s;
    }
    if IsPlain(s) { PlainReadsBack(s); }
  }
}
