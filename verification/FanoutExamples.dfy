/** Fan-outs that go wrong, each over the smallest input. */
module FanoutExamples {
  import opened Wrappers
  import opened Walk
  import opened Evaluation
  import opened Fanout
  import opened FanoutTheorems
  import opened Planning
  import PlanTheorems
  import S = Scan

  // ----- one value, two chunks -----------------------------------------------------------------------

  function NamedA(raw: string): Record { Record(VObj([("u", VStr("A"))]), raw) }

  /** Two records of one value. */
  function Twins(): seq<Record> { [NamedA("1"), NamedA("2")] }

  function TwinPipe(): Pipeline {
    Pipeline(None, [], [Planning.Dataset("twins", false, [], None, false, [], None)])
  }

  lemma TwinsNamed(ser: Value -> string)
    ensures AllNamed("u", Twins()) && Universe(Values(Twins()), Some("u"), ser) == ["A", "A"]
  {
    NamedAs(["1", "2"]);
    var rs, one := Twins(), [NamedA("2")];
    assert rs[1..] == one && one[1..] == [];
    var v := NamedA("1").v;
    assert Values(one) == [v] && Values(rs) == [v] + [v] == [v, v];
    assert [v, v][1..] == [v] && [v][1..] == [];
    assert Universe([v], Some("u"), ser) == ["A"] + Universe([], Some("u"), ser) == ["A"];
    assert Universe([v, v], Some("u"), ser) == ["A"] + ["A"];
  }

  lemma NamedAs(raws: seq<string>)
    ensures forall r :: r in raws ==> Get(NamedA(r).v, "u") == Some(VStr("A"))
  {}

  lemma TwinWhole(w: S.World)
    ensures var whole := Whole(w, TwinPipe().datasets[0], Twins());
            |whole| == 2 && forall i :: 0 <= i < 2 ==> Needle(w.env, "u", whole[i]) == Some("A")
  {
    var d := TwinPipe().datasets[0];
    NamedAs(["1", "2"]);
    hide Whole;
    WholeIsOffered(w, d, Twins());
    WholeIsOffered(w, d, Twins()[1..]);
    WholeIsOffered(w, d, Twins()[1..][1..]);
    TwinOffered(w, NamedA("1"));
    TwinOffered(w, NamedA("2"));
    var a, b := Bare(RecordCtx(NamedA("1"), w.task)), Bare(RecordCtx(NamedA("2"), w.task));
    TwinNeedle(w.env, a, NamedA("1").raw);
    TwinNeedle(w.env, b, NamedA("2").raw);
    assert Whole(w, d, Twins()) == [a] + ([b] + []);
  }

  lemma TwinOffered(w: S.World, r: Record)
    ensures Offered(w, TwinPipe().datasets[0], r) == [Bare(RecordCtx(r, w.task))]
  {
    var c := RecordCtx(r, w.task);
    assert [c][1..] == [];
    assert Bared([c]) == [Bare(c)] + Bared([c][1..]) == [Bare(c)];
    assert S.Offers(w, Compiled(TwinPipe().datasets[0]), r) == [c];
  }

  lemma TwinNeedle(env: Env, ctx: Ctx, raw: string)
    requires ctx.base == NamedA(raw).v && ctx.alias == None
    ensures Needle(env, "u", ctx) == Some("A")
  {
    hide Needle;
    NeedleIs(env, "u", ctx);
    NamedAs([raw]);
  }

  /** One value a chunk: chunk `c` is the value at `c`. */
  lemma OneEach(u: seq<string>, c: nat)
    requires c < |u|
    ensures Slices(u, |u|)[c] == [u[c]]
  {
    StartsAt(|u|, c);
    SliceIs(u, |u|, c);
    hide ChunkStart, ChunkLen, SliceAt;
    assert Slices(u, |u|)[c] == SliceAt(u, |u|, c) == u[c..c + 1];
  }

  lemma StartsAt(n: nat, c: nat)
    requires c < n
    ensures ChunkStart(n, n, c) == c && ChunkLen(n, n, c) == 1
  {
    assert n / n == 1 && n % n == 0;
  }

  lemma TwinChunks()
    ensures Slices(["A", "A"], 2) == [["A"], ["A"]]
  {
    hide Slices, SliceAt, ChunkStart, ChunkLen;
    var u := ["A", "A"];
    assert |u| == 2 && u[0] == "A" && u[1] == "A";
    OneEach(u, 0);
    OneEach(u, 1);
    TwoOf(Slices(u, 2), ["A"], ["A"]);
  }

  lemma TwoOf(s: seq<seq<string>>, a: seq<string>, b: seq<string>)
    requires |s| == 2 && s[0] == a && s[1] == b
    ensures s == [a, b]
  {}

  /** Two records of one value over two workers: each chunk holds the value, and
      every row is made twice. */
  lemma SharedValueDoubles(w: S.World, name: string, src: string, m: nat, stage: nat, job: Value, ser: Value -> string)
    ensures var u := Universe(Values(Twins()), Some("u"), ser);
            var whole := Whole(w, TwinPipe().datasets[0], Twins());
            && AllNamed("u", Twins()) && |whole| == 2
            && Gathered(w, FanoutTasks(TwinPipe(), name, src, Some("u"), Slices(u, 2), 0, m, stage), job, 0, Twins())
               == whole + whole
  {
    TwinsNamed(ser);
    TwinWhole(w);
    TwinChunks();
    hide Values, Universe, AllNamed, Whole, Slices, Gathered, FanoutTasks, Having, Needle, Twins;
    var chunks := [["A"], ["A"]];
    FanoutGathers(w, TwinPipe(), name, src, "u", chunks, 0, m, stage, job, 0, Twins());
    assert chunks[0..] == chunks && chunks[1..] == [["A"]] && chunks[1..][1..] == [];
    var whole := Whole(w, TwinPipe().datasets[0], Twins());
    HavingAll(w.env, "u", ["A"], whole, true);
    assert HavingAny(w.env, "u", [["A"]], whole) == whole + [];
  }

  // ----- one id, two tasks -----------------------------------------------------------------------------

  function FanNode(f: string): GroupNode { Node("p", Some(PlanTheorems.PartitionText("s", Some(f), 1)), None) }

  /** A stage that fans one pipeline out twice, by two fields. */
  function TwiceFanned(): seq<GroupNode> {
    [FanNode("a"), FanNode("b")]
  }

  function OneUnit(): Value { VObj([("a", VStr("x")), ("b", VStr("y"))]) }

  function TwiceConfig(): Config {
    Config([Pipeline(Some("p"), [Source("s", Some(VArr([OneUnit()])))], [])], [TwiceFanned()])
  }

  lemma UnitFields()
    ensures Get(OneUnit(), "a") == Some(VStr("x")) && Get(OneUnit(), "b") == Some(VStr("y"))
  {
    var fields := OneUnit().fields;
    assert fields[1..] == [("b", VStr("y"))];
    assert "a"[0] != "b"[0];
    assert Find(fields, "b") == Find(fields[1..], "b");
  }

  lemma OneChunk(x: string)
    ensures Slices([x], 1) == [[x]]
  {
    OneEach([x], 0);
    hide Slices;
    assert |Slices([x], 1)| == 1;
  }

  lemma FanText(f: string)
    requires f == "a" || f == "b"
    ensures ParsePartition(PlanTheorems.PartitionText("s", Some(f), 1)) == Ok(Split("s", Some(f), 1))
  {
    hide ParsePartition, PlanTheorems.PartitionText;
    assert PlanTheorems.Tidy("s" + "." + f) && '.' !in f;
    PlanTheorems.PartitionRoundTrip("s", Some(f), 1);
  }

  lemma FanUniverse(f: string, x: string, ser: Value -> string)
    requires Get(OneUnit(), f) == Some(VStr(x)) && x != ""
    ensures UniverseOf(TwiceConfig().pipelines[0].sources[0], Some(f), ser) == Ok([x])
  {
    hide OneUnit, Get;
    var items := [OneUnit()];
    assert items[1..] == [];
    assert Universe(items, Some(f), ser) == [x] + Universe([], Some(f), ser) == [x];
  }

  lemma FanTasks(pipe: Pipeline, f: string, x: string, m: nat, stage: nat)
    ensures FanoutTasks(pipe, "p", "s", Some(f), [[x]], 0, m, stage)
         == [FanoutTask(pipe, "p", Chunk([x], 0, 1, "s", Some(f)), m, stage)]
  {
    hide FanoutTask;
    assert FanoutTasks(pipe, "p", "s", Some(f), [[x]], 1, m, stage) == [];
  }

  lemma TwiceFinds()
    ensures |TwiceConfig().pipelines| == 1 && |TwiceConfig().pipelines[0].sources| == 1
    ensures var pipe := TwiceConfig().pipelines[0];
            && FindPipeline(TwiceConfig().pipelines, "p") == Ok(pipe)
            && FindSource(pipe.sources, "s") == Ok(pipe.sources[0]) && pipe.sources[0].name == "s"
  {
    hide OneUnit;
  }

  /** What a node that fans out plans, once its expression, pipeline, source and universe are known. */
  lemma FansOut(cfg: Config, node: GroupNode, m: nat, stage: nat, ser: Value -> string, split: Split, pipe: Pipeline,
                src: Source, universe: seq<string>)
    requires node.Node? && node.partition.Some? && ParsePartition(node.partition.value) == Ok(split)
    requires FindPipeline(cfg.pipelines, node.pipeline) == Ok(pipe) && FindSource(pipe.sources, split.source) == Ok(src)
    requires UniverseOf(src, split.field, ser) == Ok(universe)
    ensures NodeTasks(cfg, node, m, stage, ser)
         == Ok(FanoutTasks(pipe, node.pipeline, src.name, split.field, Slices(universe, AtLeastOne(split.workers)), 0,
                           m, stage))
  {}

  /** The one task of a node that fans `p` out by a field. */
  lemma FannedOnce(f: string, x: string, m: nat, stage: nat, ser: Value -> string)
    requires Get(OneUnit(), f) == Some(VStr(x)) && x != "" && (f == "a" || f == "b")
    ensures NodeTasks(TwiceConfig(), FanNode(f), m, stage, ser)
         == Ok([FanoutTask(TwiceConfig().pipelines[0], "p", Chunk([x], 0, 1, "s", Some(f)), m, stage)])
  {
    hide NodeTasks, TwiceConfig, ParsePartition, UniverseOf, Slices, FanoutTask, FanoutTasks, OneUnit, FindPipeline,
         FindSource, Get, PlanTheorems.PartitionText;
    TwiceFinds();
    FanText(f);
    FanUniverse(f, x, ser);
    OneChunk(x);
    FanTasks(TwiceConfig().pipelines[0], f, x, m, stage);
    var pipe := TwiceConfig().pipelines[0];
    FansOut(TwiceConfig(), FanNode(f), m, stage, ser, Split("s", Some(f), 1), pipe, pipe.sources[0], [x]);
  }

  lemma TwoNodes(cfg: Config, a: GroupNode, b: GroupNode, m: nat, stage: nat, ser: Value -> string,
                 x: PlannedTask, y: PlannedTask)
    requires NodeTasks(cfg, a, m, stage, ser) == Ok([x]) && NodeTasks(cfg, b, m, stage, ser) == Ok([y])
    ensures StageTasks(cfg, [a, b], m, stage, ser) == Ok([x, y])
  {
    hide NodeTasks;
    assert [a, b][..1] == [a] && [a][..0] == [];
    assert StageTasks(cfg, [], m, stage, ser) == Ok([]);
    assert StageTasks(cfg, [a], m, stage, ser) == Ok([] + [x]);
    assert [] + [x] == [x] && [x] + [y] == [x, y];
  }

  /** A stage that fans one pipeline out twice plans two tasks of one id. */
  lemma TwoFanoutsShareIds(m: nat, stage: nat, ser: Value -> string)
    ensures var r := StageTasks(TwiceConfig(), TwiceFanned(), m, stage, ser);
            && r.Ok? && |r.value| == 2
            && r.value[0].id == r.value[1].id && r.value[0].chunk != r.value[1].chunk
  {
    hide StageTasks, NodeTasks, TwiceConfig, FanNode, Get, OneUnit, Injected, FindPipeline, FindSource;
    UnitFields();
    TwiceFinds();
    FannedOnce("a", "x", m, stage, ser);
    FannedOnce("b", "y", m, stage, ser);
    var pipe := TwiceConfig().pipelines[0];
    TwoNodes(TwiceConfig(), FanNode("a"), FanNode("b"), m, stage, ser,
             FanoutTask(pipe, "p", Chunk(["x"], 0, 1, "s", Some("a")), m, stage),
             FanoutTask(pipe, "p", Chunk(["y"], 0, 1, "s", Some("b")), m, stage));
  }
}
