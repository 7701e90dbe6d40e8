/** JSON values, the record context, and the three walkers over a path. */
module Walk {
  import opened Wrappers
  import opened Text
  import opened Expr

  // A float is held as its text.  The first of two equal keys wins.
  datatype Value =
    | VNull
    | VBool(b: bool)
    | VInt(i: int)
    | VFloat(text: string)
    | VStr(s: string)
    | VArr(items: seq<Value>)
    | VObj(fields: seq<(string, Value)>)

  // A node of the record, and whether it is the record itself.
  datatype Ref = Ref(v: Value, root: bool)

  datatype Ctx = Ctx(base: Value, raw: string, elem: Option<Value>, alias: Option<string>, task: Option<Value>)

  // A record of the input: its value and its text.
  datatype Record = Record(v: Value, raw: string)

  function RecordCtx(r: Record, task: Option<Value>): Ctx { Ctx(r.v, r.raw, None, None, task) }

  function Find(fields: seq<(string, Value)>, key: string): Option<Value> {
    if fields == [] then None
    else if fields[0].0 == key then Some(fields[0].1)
    else Find(fields[1..], key)
  }

  function Get(v: Value, key: string): Option<Value> { if v.VObj? then Find(v.fields, key) else None }

  function GetIdx(v: Value, i: nat): Option<Value> {
    if v.VArr? && i < |v.items| then Some(v.items[i]) else None
  }

  function Below(v: Option<Value>): Option<Ref> {
    match v case None => None case Some(x) => Some(Ref(x, false))
  }

  // ----- one node ------------------------------------------------------------------------------

  /** The node one wildcard-free segment leads to. */
  function Child(r: Ref, g: Seg): Option<Ref> {
    match g
    case Key(k) => Below(Get(r.v, k))
    case Idx(i) => Below(GetIdx(r.v, i))
    case All => None
  }

  function Follow(r: Ref, segs: seq<Seg>): Option<Ref>
    decreases |segs|
  {
    if segs == [] then Some(r)
    else match Child(r, segs[0])
         case None => None
         case Some(next) => Follow(next, segs[1..])
  }

  predicate AliasHit(ctx: Ctx, g: Seg) { g.Key? && ctx.alias == Some(g.name) }

  function Base(ctx: Ctx): Ref { Ref(ctx.base, true) }

  /** What the alias stands for: the unwound element, or the record if there is none. */
  function Overlay(ctx: Ctx): Ref {
    match ctx.elem case Some(e) => Ref(e, false) case None => Base(ctx)
  }

  /** The node a record path names: its first segment may be the alias. */
  function PathNode(ctx: Ctx, segs: seq<Seg>): Option<Ref> {
    if segs != [] && AliasHit(ctx, segs[0]) then Follow(Overlay(ctx), segs[1..]) else Follow(Base(ctx), segs)
  }

  function TaskNode(ctx: Ctx, segs: seq<Seg>): Option<Ref> {
    match ctx.task case None => None case Some(t) => Follow(Ref(t, false), segs)
  }

  method ResolveSingle(ctx: Ctx, segs: seq<Seg>) returns (r: Option<Ref>)
    ensures r == PathNode(ctx, segs)
  {
    var cur := Base(ctx);
    var first := true;
    for n := 0 to |segs|
      invariant first == (n == 0)
      invariant PathNode(ctx, segs) == if first then PathNode(ctx, segs) else Follow(cur, segs[n..])
      invariant first ==> cur == Base(ctx)
    {
      assert segs[n..][1..] == segs[n + 1..];
      if first && AliasHit(ctx, segs[n]) {
        cur := Overlay(ctx);
      } else {
        var next := Child(cur, segs[n]);
        if next.None? { return None; }
        cur := next.value;
      }
      first := false;
    }
    r := Some(cur);
  }

  method ResolveTaskSingle(ctx: Ctx, segs: seq<Seg>) returns (r: Option<Ref>)
    ensures r == TaskNode(ctx, segs)
  {
    if ctx.task.None? { return None; }
    var cur := Ref(ctx.task.value, false);
    for n := 0 to |segs|
      invariant Follow(Ref(ctx.task.value, false), segs) == Follow(cur, segs[n..])
    {
      assert segs[n..][1..] == segs[n + 1..];
      var next := Child(cur, segs[n]);
      if next.None? { return None; }
      cur := next.value;
    }
    r := Some(cur);
  }

  // ----- all nodes -----------------------------------------------------------------------------

  function Elems(items: seq<Value>): seq<Ref> {
    if items == [] then [] else [Ref(items[0], false)] + Elems(items[1..])
  }

  function ListOf(r: Option<Ref>): seq<Ref> { match r case None => [] case Some(x) => [x] }

  /** The nodes one segment leads to from one node; `[]` fans out over an array. */
  function Kids(r: Ref, g: Seg): seq<Ref> {
    if g.All? then (if r.v.VArr? then Elems(r.v.items) else []) else ListOf(Child(r, g))
  }

  function Fan(nodes: seq<Ref>, g: Seg): seq<Ref> {
    if nodes == [] then [] else Kids(nodes[0], g) + Fan(nodes[1..], g)
  }

  function Collect(nodes: seq<Ref>, segs: seq<Seg>): seq<Ref>
    decreases |segs|
  {
    if segs == [] then nodes else Collect(Fan(nodes, segs[0]), segs[1..])
  }

  function PathNodes(ctx: Ctx, segs: seq<Seg>): seq<Ref> {
    if segs != [] && AliasHit(ctx, segs[0]) then Collect([Overlay(ctx)], segs[1..]) else Collect([Base(ctx)], segs)
  }

  function TaskNodes(ctx: Ctx, segs: seq<Seg>): seq<Ref> {
    match ctx.task case None => [] case Some(t) => Collect([Ref(t, false)], segs)
  }

  lemma {:induction false} ElemsAt(items: seq<Value>)
    ensures |Elems(items)| == |items|
    ensures forall i :: 0 <= i < |items| ==> Elems(items)[i] == Ref(items[i], false)
  {
    if items != [] { ElemsAt(items[1..]); }
  }

  lemma {:induction false} ElemsSnoc(items: seq<Value>, n: nat)
    requires n < |items|
    ensures Elems(items[..n + 1]) == Elems(items[..n]) + [Ref(items[n], false)]
  {
    ElemsAt(items[..n + 1]);
    ElemsAt(items[..n]);
  }

  lemma {:induction false} FanConcat(a: seq<Ref>, b: seq<Ref>, g: Seg)
    ensures Fan(a + b, g) == Fan(a, g) + Fan(b, g)
  {
    hide Kids;
    if a == [] {
      assert a + b == b;
    } else {
      assert (a + b)[1..] == a[1..] + b;
      FanConcat(a[1..], b, g);
    }
  }

  lemma FanSnoc(nodes: seq<Ref>, n: nat, g: Seg)
    requires n < |nodes|
    ensures Fan(nodes[..n + 1], g) == Fan(nodes[..n], g) + Kids(nodes[n], g)
  {
    hide Kids;
    assert nodes[..n + 1] == nodes[..n] + [nodes[n]];
    FanConcat(nodes[..n], [nodes[n]], g);
    assert Fan([nodes[n]], g) == Kids(nodes[n], g) + Fan([], g);
    assert Kids(nodes[n], g) + [] == Kids(nodes[n], g);
  }

  /** What one node adds to the next generation. */
  method AddKids(next: seq<Ref>, cur: Ref, g: Seg) returns (all: seq<Ref>)
    ensures all == next + Kids(cur, g)
  {
    all := next;
    match g
    case All =>
      if cur.v.VArr? {
        var items := cur.v.items;
        assert items[..0] == [];
        for i := 0 to |items|
          invariant all == next + Elems(items[..i])
        {
          ElemsSnoc(items, i);
          all := all + [Ref(items[i], false)];
        }
        assert items[..|items|] == items;
      }
    case Idx(i) =>
      var e := GetIdx(cur.v, i);
      if e.Some? { all := all + [Ref(e.value, false)]; }
    case Key(k) =>
      var e := Get(cur.v, k);
      if e.Some? { all := all + [Ref(e.value, false)]; }
  }

  lemma {:induction false} CollectNothing(segs: seq<Seg>)
    ensures Collect([], segs) == []
  {
    if segs != [] { CollectNothing(segs[1..]); }
  }

  method CollectPath(ctx: Ctx, segs: seq<Seg>) returns (nodes: seq<Ref>)
    ensures nodes == PathNodes(ctx, segs)
  {
    hide Kids, Fan;
    nodes := [Base(ctx)];
    var first := true;
    for n := 0 to |segs|
      invariant first == (n == 0)
      invariant first ==> nodes == [Base(ctx)]
      invariant !first ==> PathNodes(ctx, segs) == Collect(nodes, segs[n..])
    {
      assert segs[n..][1..] == segs[n + 1..];
      var next: seq<Ref> := [];
      NoFan(segs[n]);
      assert nodes[..0] == [];
      for m := 0 to |nodes|
        invariant next == if first && AliasHit(ctx, segs[n]) then (if m == 0 then [] else [Overlay(ctx)])
                          else Fan(nodes[..m], segs[n])
      {
        FanSnoc(nodes, m, segs[n]);
        if first && AliasHit(ctx, segs[n]) {
          next := next + [Overlay(ctx)];
        } else {
          next := AddKids(next, nodes[m], segs[n]);
        }
      }
      assert nodes[..|nodes|] == nodes;
      first := false;
      nodes := next;
      if nodes == [] {
        CollectNothing(segs[n + 1..]);
        return;
      }
    }
  }

  lemma NoFan(g: Seg)
    ensures Fan([], g) == []
  {}

  method CollectTask(ctx: Ctx, segs: seq<Seg>) returns (nodes: seq<Ref>)
    ensures nodes == TaskNodes(ctx, segs)
  {
    hide Kids, Fan;
    if ctx.task.None? { return []; }
    nodes := [Ref(ctx.task.value, false)];
    for n := 0 to |segs|
      invariant TaskNodes(ctx, segs) == Collect(nodes, segs[n..])
    {
      assert segs[n..][1..] == segs[n + 1..];
      var next: seq<Ref> := [];
      NoFan(segs[n]);
      assert nodes[..0] == [];
      for m := 0 to |nodes|
        invariant next == Fan(nodes[..m], segs[n])
      {
        FanSnoc(nodes, m, segs[n]);
        next := AddKids(next, nodes[m], segs[n]);
      }
      assert nodes[..|nodes|] == nodes;
      nodes := next;
      if nodes == [] {
        CollectNothing(segs[n + 1..]);
        return;
      }
    }
  }

  // ----- the walk over the path's text ------------------------------------------------------------

  function Descend(r: Ref, seg: string): Option<Ref> {
    if seg == "" then Some(r)
    else match ParseUsize(seg)
         case Some(i) => if r.v.VArr? then Below(GetIdx(r.v, i)) else None
         case None => if r.v.VObj? then Below(Get(r.v, seg)) else None
  }

  function StepTo(ctx: Ctx, r: Ref, seg: string, first: bool): Option<Ref> {
    if first && ctx.alias == Some(seg) then Some(Overlay(ctx)) else Descend(r, seg)
  }

  /** One segment of the text: what it leads to, and the text after it. */
  function TextStep(ctx: Ctx, r: Ref, s: string, first: bool): (o: (Option<Ref>, string))
    requires s != "" && !IsWs(s[0])
    ensures |o.1| < |s|
  {
    if s[0] == '[' then var (seg, rest) := TakeBracket(s[1..]); (Descend(r, seg), rest)
    else if s[0] == '.' then var (seg, rest) := TakeSeg(s[1..]); (StepTo(ctx, r, seg, first), rest)
    else var (seg, rest) := TakeSeg(s[1..]); (StepTo(ctx, r, [s[0]] + seg, first), rest)
  }

  function TextWalk(ctx: Ctx, r: Ref, s: string, first: bool): Option<Ref>
    decreases |s|
  {
    if s == "" then Some(r)
    else if IsWs(s[0]) then TextWalk(ctx, r, s[1..], first)
    else
      var (next, rest) := TextStep(ctx, r, s, first);
      match next
      case None => None
      case Some(n) => TextWalk(ctx, n, rest, false)
  }

  function TextNode(ctx: Ctx, path: string): Option<Ref> {
    var p := Trim(path);
    if p == "" || p[0] != '$' then None else TextWalk(ctx, Base(ctx), p[1..], true)
  }

  /** Characters up to a stop character. */
  method ReadSeg(chars: string, from: nat) returns (seg: string, i: nat)
    requires from <= |chars|
    ensures from <= i <= |chars| && (seg, chars[i..]) == TakeSeg(chars[from..])
  {
    hide IsSegStop, Joins;
    seg, i := "", from;
    ghost var whole := TakeSeg(chars[from..]);
    JoinsStart(whole);
    while i < |chars| && !IsSegStop(chars[i])
      invariant from <= i <= |chars| && Joins(whole, seg, TakeSeg(chars[i..]))
    {
      assert chars[i..][1..] == chars[i + 1..];
      JoinsStep(whole, seg, [chars[i]], TakeSeg(chars[i + 1..]));
      seg := seg + [chars[i]];
      i := i + 1;
    }
    JoinsEnd(whole, seg, chars[i..]);
  }

  /** Characters up to a closing bracket, which is consumed. */
  method ReadBracketed(chars: string, from: nat) returns (seg: string, i: nat)
    requires from <= |chars|
    ensures from <= i <= |chars| && (seg, chars[i..]) == TakeBracket(chars[from..])
  {
    hide Joins;
    seg, i := "", from;
    ghost var whole := TakeBracket(chars[from..]);
    JoinsStart(whole);
    while i < |chars|
      invariant from <= i <= |chars| && Joins(whole, seg, TakeBracket(chars[i..]))
    {
      var c := chars[i];
      assert chars[i..][1..] == chars[i + 1..];
      if c != ']' { JoinsStep(whole, seg, [c], TakeBracket(chars[i + 1..])); }
      i := i + 1;
      if c == ']' { break; }
      seg := seg + [c];
    }
    JoinsEnd(whole, seg, chars[i..]);
  }

  method ResolvePath(ctx: Ctx, path: string) returns (r: Option<Ref>)
    ensures r == TextNode(ctx, path)
  {
    hide Trim, IsWs, TakeSeg, TakeBracket, Descend, StepTo;
    var chars := Trim(path);
    if chars == "" || chars[0] != '$' { return None; }
    var cur := Base(ctx);
    var i := 1;
    var isFirst := true;
    while i < |chars|
      invariant 1 <= i <= |chars|
      invariant TextNode(ctx, path) == TextWalk(ctx, cur, chars[i..], isFirst)
    {
      var c := chars[i];
      ghost var s := chars[i..];
      i := i + 1;
      assert s[1..] == chars[i..];
      if IsWs(c) { continue; }
      var next: Option<Ref>;
      if c == '[' {
        var seg: string;
        seg, i := ReadBracketed(chars, i);
        next := Descend(cur, seg);
      } else if c == '.' {
        var seg: string;
        seg, i := ReadSeg(chars, i);
        next := StepTo(ctx, cur, seg, isFirst);
      } else {
        var seg: string;
        seg, i := ReadSeg(chars, i);
        next := StepTo(ctx, cur, [c] + seg, isFirst);
      }
      assert TextStep(ctx, cur, s, isFirst) == (next, chars[i..]);
      if next.None? { return None; }
      cur := next.value;
      isFirst := false;
    }
    r := Some(cur);
  }
}
