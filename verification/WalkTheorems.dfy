/** The path walkers agree: the fanning walk refines the single walk, a wildcard
    stands for all its indices, and the walk over a path's text refines both. */
module WalkTheorems {
  import opened Wrappers
  import opened Text
  import opened Expr
  import opened Walk
  import CompilerTheorems

  predicate NoWild(segs: seq<Seg>) { forall i :: 0 <= i < |segs| ==> !segs[i].All? }

  // ----- fanning and single walks ------------------------------------------------------------------

  lemma FanOfOne(r: Ref, g: Seg)
    ensures Fan([r], g) == Kids(r, g)
  {
    hide Kids;
    assert Kids(r, g) + [] == Kids(r, g);
  }

  lemma {:induction false} CollectIsFollow(r: Ref, segs: seq<Seg>)
    requires NoWild(segs)
    ensures Collect([r], segs) == ListOf(Follow(r, segs))
    decreases |segs|
  {
    if segs != [] {
      FanOfOne(r, segs[0]);
      hide Child, Fan;
      match Child(r, segs[0])
      case None => CollectNothing(segs[1..]);
      case Some(next) => CollectIsFollow(next, segs[1..]);
    }
  }

  /** On wildcard-free segments the collecting walks return the list of the one
      node the single walks return, alias overlay included. */
  lemma SingleWalkIsCollect(ctx: Ctx, segs: seq<Seg>)
    requires NoWild(segs)
    ensures PathNodes(ctx, segs) == ListOf(PathNode(ctx, segs))
    ensures TaskNodes(ctx, segs) == ListOf(TaskNode(ctx, segs))
  {
    hide Collect, Follow;
    if segs != [] && AliasHit(ctx, segs[0]) {
      CollectIsFollow(Overlay(ctx), segs[1..]);
    } else {
      CollectIsFollow(Base(ctx), segs);
    }
    if ctx.task.Some? { CollectIsFollow(Ref(ctx.task.value, false), segs); }
  }

  // ----- wildcards -----------------------------------------------------------------------------------

  /** `inst` is `segs` with an index in place of every wildcard. */
  predicate Instance(segs: seq<Seg>, inst: seq<Seg>) {
    && |inst| == |segs|
    && forall i :: 0 <= i < |segs| ==> if segs[i].All? then inst[i].Idx? else inst[i] == segs[i]
  }

  ghost predicate Reached(r: Ref, segs: seq<Seg>, x: Ref) {
    exists inst :: Instance(segs, inst) && Follow(r, inst) == Some(x)
  }

  lemma {:induction false} CollectConcat(a: seq<Ref>, b: seq<Ref>, segs: seq<Seg>)
    ensures Collect(a + b, segs) == Collect(a, segs) + Collect(b, segs)
    decreases |segs|
  {
    hide Fan;
    if segs != [] {
      FanConcat(a, b, segs[0]);
      CollectConcat(Fan(a, segs[0]), Fan(b, segs[0]), segs[1..]);
    }
  }

  lemma {:induction false} CollectEach(nodes: seq<Ref>, segs: seq<Seg>, x: Ref)
    ensures x in Collect(nodes, segs) <==> exists i :: 0 <= i < |nodes| && x in Collect([nodes[i]], segs)
    decreases |nodes|
  {
    if nodes == [] {
      CollectNothing(segs);
    } else {
      hide Collect;
      assert nodes == [nodes[0]] + nodes[1..];
      CollectConcat([nodes[0]], nodes[1..], segs);
      CollectEach(nodes[1..], segs, x);
      if i :| 0 <= i < |nodes[1..]| && x in Collect([nodes[1..][i]], segs) { assert nodes[i + 1] == nodes[1..][i]; }
      if i :| 0 <= i < |nodes| && x in Collect([nodes[i]], segs) {
        if i > 0 { assert nodes[1..][i - 1] == nodes[i]; }
      }
    }
  }

  /** The segments a wildcard, or any segment, can be taken as. */
  predicate TakenAs(g: Seg, h: Seg) { if g.All? then h.Idx? else h == g }

  lemma KidsAreChildren(r: Ref, g: Seg, y: Ref)
    ensures y in Kids(r, g) <==> exists h :: TakenAs(g, h) && Child(r, h) == Some(y)
  {
    if g.All? {
      if r.v.VArr? {
        var items := r.v.items;
        ElemsAt(items);
        if y in Kids(r, g) {
          var i :| 0 <= i < |items| && Elems(items)[i] == y;
          assert TakenAs(g, Idx(i)) && Child(r, Idx(i)) == Some(y);
        }
      }
    } else if y in Kids(r, g) {
      assert TakenAs(g, g) && Child(r, g) == Some(y);
    }
  }

  lemma InstanceSplit(segs: seq<Seg>, inst: seq<Seg>)
    requires segs != []
    ensures Instance(segs, inst) <==> inst != [] && TakenAs(segs[0], inst[0]) && Instance(segs[1..], inst[1..])
  {
    if inst != [] && TakenAs(segs[0], inst[0]) && Instance(segs[1..], inst[1..]) {
      forall i | 0 <= i < |segs|
        ensures if segs[i].All? then inst[i].Idx? else inst[i] == segs[i] {
        if i > 0 { assert segs[i] == segs[1..][i - 1] && inst[i] == inst[1..][i - 1]; }
      }
    }
  }

  lemma ReachedStep(r: Ref, segs: seq<Seg>, x: Ref)
    requires segs != []
    ensures Reached(r, segs, x)
       <==> exists h :: TakenAs(segs[0], h) && Child(r, h).Some? && Reached(Child(r, h).value, segs[1..], x)
  {
    hide Child, Instance;
    if Reached(r, segs, x) {
      var inst :| Instance(segs, inst) && Follow(r, inst) == Some(x);
      InstanceSplit(segs, inst);
      assert TakenAs(segs[0], inst[0]) && Instance(segs[1..], inst[1..]);
    }
    if h :| TakenAs(segs[0], h) && Child(r, h).Some? && Reached(Child(r, h).value, segs[1..], x) {
      var inst :| Instance(segs[1..], inst) && Follow(Child(r, h).value, inst) == Some(x);
      var all := [h] + inst;
      assert all[1..] == inst;
      InstanceSplit(segs, all);
      assert Instance(segs, all) && Follow(r, all) == Some(x);
    }
  }

  /** A walk with wildcards reaches exactly the nodes that some choice of
      indices for the wildcards reaches. */
  lemma {:induction false} CollectReaches(r: Ref, segs: seq<Seg>, x: Ref)
    ensures x in Collect([r], segs) <==> Reached(r, segs, x)
    decreases |segs|
  {
    if segs == [] {
      assert Instance(segs, []);
    } else {
      hide Kids, Reached, Child, TakenAs;
      var g, rest := segs[0], segs[1..];
      var kids := Kids(r, g);
      FanOfOne(r, g);
      assert Collect([r], segs) == Collect(kids, rest) by { hide Fan; }
      hide Collect, Fan;
      CollectEach(kids, rest, x);
      ReachedStep(r, segs, x);
      if x in Collect(kids, rest) {
        var i :| 0 <= i < |kids| && x in Collect([kids[i]], rest);
        CollectReaches(kids[i], rest, x);
        KidsAreChildren(r, g, kids[i]);
        var h :| TakenAs(g, h) && Child(r, h) == Some(kids[i]);
      }
      if h :| TakenAs(g, h) && Child(r, h).Some? && Reached(Child(r, h).value, rest, x) {
        var y := Child(r, h).value;
        KidsAreChildren(r, g, y);
        var i :| 0 <= i < |kids| && kids[i] == y;
        CollectReaches(y, rest, x);
      }
    }
  }

  // ----- the text of a path ----------------------------------------------------------------------------

  /** No key of the path reads as an array index. */
  predicate NamesOnly(segs: seq<Seg>) {
    forall i :: 0 <= i < |segs| && segs[i].Key? ==> ParseUsize(segs[i].name).None?
  }

  /** What the text walk does at one segment, before the alias is looked at. */
  function TextChild(r: Ref, g: Seg): Option<Ref>
    requires !g.All?
  {
    if g.Key? then Descend(r, g.name) else Child(r, g)
  }

  lemma DescendIndex(r: Ref, i: nat)
    requires i <= USIZE_MAX
    ensures Descend(r, Decimal(i)) == Child(r, Idx(i))
  {
    ParsesUsize(i);
  }

  lemma DescendKey(r: Ref, k: string)
    requires k != ""
    ensures ParseUsize(k).None? ==> Descend(r, k) == Child(r, Key(k))
    ensures ParseUsize(k).Some? && r.v.VObj? ==> Descend(r, k) == None
  {
    hide ParseUsize;
  }

  lemma TextStepIndex(ctx: Ctx, r: Ref, i: nat, more: string, first: bool)
    requires i <= USIZE_MAX
    ensures TextStep(ctx, r, PrintSeg(Idx(i)) + more, first) == (Child(r, Idx(i)), more)
  {
    hide Descend, TakeBracket;
    var s := PrintSeg(Idx(i)) + more;
    assert s[1..] == Decimal(i) + "]" + more;
    CompilerTheorems.TakeBracketStops(Decimal(i), more);
    DescendIndex(r, i);
  }

  lemma TextStepKey(ctx: Ctx, r: Ref, k: string, more: string, first: bool)
    requires SegOk(Key(k)) && (more == "" || IsSegStop(more[0]))
    ensures TextStep(ctx, r, PrintSeg(Key(k)) + more, first) == (StepTo(ctx, r, k, first), more)
  {
    hide StepTo, TakeSeg, IsSegStop;
    var s := PrintSeg(Key(k)) + more;
    assert s[1..] == k + more;
    CompilerTheorems.TakeSegStops(k, more);
  }

  lemma PrintedStops(segs: seq<Seg>)
    ensures PrintSegs(segs) == "" || IsSegStop(PrintSegs(segs)[0])
  {}

  predicate Dots(s: string) { forall i :: 0 <= i < |s| ==> s[i] == '.' }

  lemma DotsStop(dots: string)
    requires Dots(dots)
    ensures dots == "" || IsSegStop(dots[0])
  {}

  lemma SegStart(g: Seg, more: string)
    ensures PrintSeg(g) + more != "" && !IsWs((PrintSeg(g) + more)[0])
  {}

  /** One segment of a rendered path, whatever dots follow the path. */
  lemma DottedStep(ctx: Ctx, r: Ref, segs: seq<Seg>, dots: string, first: bool)
    requires segs != [] && SegsOk(segs) && !segs[0].All? && Dots(dots)
    ensures var next := if first && AliasHit(ctx, segs[0]) then Some(Overlay(ctx)) else TextChild(r, segs[0]);
            TextWalk(ctx, r, PrintSegs(segs) + dots, first)
            == if next.None? then None else TextWalk(ctx, next.value, PrintSegs(segs[1..]) + dots, false)
  {
    hide IsWs, Descend, Child, Overlay, PrintSeg, SegOk, TextStep;
    var g, more := segs[0], PrintSegs(segs[1..]) + dots;
    assert PrintSegs(segs) + dots == PrintSeg(g) + more;
    PrintedStops(segs[1..]);
    DotsStop(dots);
    SegStart(g, more);
    assert SegOk(g);
    if g.Key? {
      TextStepKey(ctx, r, g.name, more, first);
    } else {
      IndexInRange(g);
      TextStepIndex(ctx, r, g.i, more, first);
    }
  }

  lemma TextWalkStep(ctx: Ctx, r: Ref, segs: seq<Seg>, first: bool)
    requires segs != [] && SegsOk(segs) && !segs[0].All?
    ensures var next := if first && AliasHit(ctx, segs[0]) then Some(Overlay(ctx)) else TextChild(r, segs[0]);
            TextWalk(ctx, r, PrintSegs(segs), first)
            == if next.None? then None else TextWalk(ctx, next.value, PrintSegs(segs[1..]), false)
  {
    hide TextWalk, PrintSegs, SegOk, Overlay, TextChild;
    DottedStep(ctx, r, segs, "", first);
    assert PrintSegs(segs) + "" == PrintSegs(segs) && PrintSegs(segs[1..]) + "" == PrintSegs(segs[1..]);
  }

  lemma IndexInRange(g: Seg)
    requires SegOk(g) && g.Idx?
    ensures g.i <= USIZE_MAX
  {}

  lemma {:induction false} TextWalkFollows(ctx: Ctx, r: Ref, segs: seq<Seg>)
    requires SegsOk(segs) && NoWild(segs) && NamesOnly(segs)
    ensures TextWalk(ctx, r, PrintSegs(segs), false) == Follow(r, segs)
    decreases |segs|
  {
    if segs != [] {
      hide TextWalk, Child, PrintSegs, SegOk, ParseUsize;
      TextWalkStep(ctx, r, segs, false);
      SameChild(r, segs);
      var next := TextChild(r, segs[0]);
      if next.Some? { TextWalkFollows(ctx, next.value, segs[1..]); }
    }
  }

  lemma SameChild(r: Ref, segs: seq<Seg>)
    requires segs != [] && SegsOk(segs) && NoWild(segs) && NamesOnly(segs)
    ensures TextChild(r, segs[0]) == Child(r, segs[0])
  {
    hide ParseUsize, Descend, Child;
    assert SegOk(segs[0]);
    if segs[0].Key? { DescendKey(r, segs[0].name); }
  }

  function PathText(segs: seq<Seg>): string { "$" + PrintSegs(segs) }

  lemma PathTextTrimmed(segs: seq<Seg>)
    requires SegsOk(segs)
    ensures Trim(PathText(segs)) == PathText(segs) && PathText(segs)[1..] == PrintSegs(segs)
  {
    if segs != [] { CompilerTheorems.SegsEndTight(segs); }
    hide PrintSegs;
    TrimIsIdentity(PathText(segs));
  }

  /** The text walk on a rendered path of proper names and indices reaches the
      node the compiled path reaches, alias overlay included. */
  lemma TextWalkAgrees(ctx: Ctx, segs: seq<Seg>)
    requires SegsOk(segs) && NoWild(segs) && NamesOnly(segs)
    ensures TextNode(ctx, PathText(segs)) == PathNode(ctx, segs)
  {
    hide PrintSegs, Trim, SegOk, Child, ParseUsize;
    PathTextTrimmed(segs);
    if segs == [] {
      NoSegsText();
    } else {
      TextWalkStep(ctx, Base(ctx), segs, true);
      SameChild(Base(ctx), segs);
      hide TextWalk;
      if AliasHit(ctx, segs[0]) {
        TextWalkFollows(ctx, Overlay(ctx), segs[1..]);
      } else {
        var next := Child(Base(ctx), segs[0]);
        if next.Some? { TextWalkFollows(ctx, next.value, segs[1..]); }
      }
    }
  }

  lemma NoSegsText()
    ensures PrintSegs([]) == ""
  {}

  /** After the first segment, a dot that no name follows stays where it is. */
  lemma {:induction false} DotsStay(ctx: Ctx, r: Ref, dots: string)
    requires Dots(dots)
    ensures TextWalk(ctx, r, dots, false) == Some(r)
    decreases |dots|
  {
    if dots != [] {
      assert Dots(dots[1..]);
      DotsStay(ctx, r, dots[1..]);
    }
  }

  lemma {:induction false} DotsAfter(ctx: Ctx, r: Ref, segs: seq<Seg>, dots: string, first: bool)
    requires SegsOk(segs) && NoWild(segs) && Dots(dots) && (segs == [] ==> !first)
    ensures TextWalk(ctx, r, PrintSegs(segs) + dots, first) == TextWalk(ctx, r, PrintSegs(segs), first)
    decreases |segs|
  {
    if segs == [] {
      NoSegsText();
      DotsStay(ctx, r, dots);
      DotsStay(ctx, r, "");
      assert "" + dots == dots;
    } else {
      hide TextWalk, TextChild, PrintSegs, SegOk, Overlay;
      DottedStep(ctx, r, segs, dots, first);
      TextWalkStep(ctx, r, segs, first);
      var next := if first && AliasHit(ctx, segs[0]) then Some(Overlay(ctx)) else TextChild(r, segs[0]);
      if next.Some? { DotsAfter(ctx, next.value, segs[1..], dots, false); }
    }
  }

  /** A text that does not start with `$` is no path, and dots at the end of one
      make no difference. */
  lemma TextPaths(ctx: Ctx, text: string, segs: seq<Seg>, dots: string)
    requires SegsOk(segs) && NoWild(segs) && segs != [] && Dots(dots)
    ensures !HasPrefix(Trim(text), "$") ==> TextNode(ctx, text) == None
    ensures TextNode(ctx, PathText(segs) + dots) == TextNode(ctx, PathText(segs))
  {
    hide TextWalk, PrintSegs, Trim, SegOk;
    PathTextTrimmed(segs);
    var s := PathText(segs) + dots;
    assert Trim(s) == s by { DottedTight(segs, dots); }
    assert s[1..] == PrintSegs(segs) + dots;
    DotsAfter(ctx, Base(ctx), segs, dots, true);
  }

  lemma DottedTight(segs: seq<Seg>, dots: string)
    requires SegsOk(segs) && segs != [] && Dots(dots)
    ensures Trim(PathText(segs) + dots) == PathText(segs) + dots
  {
    CompilerTheorems.SegsEndTight(segs);
    hide PrintSegs;
    TrimIsIdentity(PathText(segs) + dots);
  }

  // ----- where the walks part ---------------------------------------------------------------------------

  /** A record in which the path names a node. */
  function Witness(segs: seq<Seg>): Value {
    if segs == [] then VNull
    else match segs[0]
         case Key(k) => VObj([(k, Witness(segs[1..]))])
         case Idx(i) => VArr(seq(i + 1, _ => Witness(segs[1..])))
         case All => VNull
  }

  lemma WitnessStep(segs: seq<Seg>, root: bool)
    requires segs != [] && !segs[0].All?
    ensures Child(Ref(Witness(segs), root), segs[0]) == Some(Ref(Witness(segs[1..]), false))
  {}

  lemma {:induction false} WitnessReached(segs: seq<Seg>, root: bool)
    requires NoWild(segs)
    ensures Follow(Ref(Witness(segs), root), segs).Some?
    decreases |segs|
  {
    if segs != [] {
      hide Witness, Child;
      WitnessStep(segs, root);
      WitnessReached(segs[1..], false);
    }
  }

  lemma {:induction false} WitnessMissed(ctx: Ctx, segs: seq<Seg>, root: bool, first: bool)
    requires SegsOk(segs) && NoWild(segs) && !NamesOnly(segs) && ctx.alias == None
    ensures TextWalk(ctx, Ref(Witness(segs), root), PrintSegs(segs), first) == None
    decreases |segs|
  {
    hide Child, PrintSegs, SegOk, ParseUsize, Descend;
    var r := Ref(Witness(segs), root);
    var g := segs[0];
    assert SegOk(g);
    TextWalkStep(ctx, r, segs, first);
    WitnessStep(segs, root);
    hide TextWalk;
    if g.Key? {
      KeyNonEmpty(g);
      DescendKey(r, g.name);
    }
    if g.Key? && ParseUsize(g.name).Some? {
      assert r.v.VObj?;
    } else {
      StillIndexed(segs);
      hide Witness;
      WitnessMissed(ctx, segs[1..], false, false);
    }
  }

  lemma KeyNonEmpty(g: Seg)
    requires SegOk(g) && g.Key?
    ensures g.name != ""
  {}

  lemma StillIndexed(segs: seq<Seg>)
    requires segs != [] && !NamesOnly(segs) && (segs[0].Key? ==> ParseUsize(segs[0].name).None?)
    ensures !NamesOnly(segs[1..])
  {
    hide ParseUsize;
    var i :| 0 <= i < |segs| && segs[i].Key? && ParseUsize(segs[i].name).Some?;
    assert segs[1..][i - 1] == segs[i];
  }

  ghost predicate TextWalkIsExact(segs: seq<Seg>) {
    forall ctx :: TextNode(ctx, PathText(segs)) == PathNode(ctx, segs)
  }

  /** The text walk agrees with the compiled one on every record exactly when
      no key of the path reads as an array index. */
  lemma TextWalkAgreesIff(segs: seq<Seg>)
    requires SegsOk(segs) && NoWild(segs)
    ensures TextWalkIsExact(segs) <==> NamesOnly(segs)
  {
    hide SegOk, ParseUsize, PathText, TextNode, PathNode;
    if NamesOnly(segs) {
      forall ctx ensures TextNode(ctx, PathText(segs)) == PathNode(ctx, segs) {
        TextWalkAgrees(ctx, segs);
      }
    } else {
      PartsOnWitness(segs);
    }
  }

  lemma PartsOnWitness(segs: seq<Seg>)
    requires SegsOk(segs) && NoWild(segs) && !NamesOnly(segs)
    ensures var ctx := Ctx(Witness(segs), "", None, None, None);
            TextNode(ctx, PathText(segs)) != PathNode(ctx, segs)
  {
    hide TextWalk, Follow, Witness, Trim, PrintSegs, SegOk, ParseUsize;
    var ctx := Ctx(Witness(segs), "", None, None, None);
    PathTextTrimmed(segs);
    WitnessMissed(ctx, segs, true, true);
    WitnessReached(segs, true);
  }
}
