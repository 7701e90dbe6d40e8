/** When the ids planned for a stage are distinct, so that every planned task is
    the one that runs under its id. */
module PlanIds {
  import opened Wrappers
  import opened Text
  import opened Walk
  import opened Planning
  import opened PlanTheorems
  import StagedRun
  import StagedTheorems
  import StagedPayloads

  function NodeName(node: GroupNode): string { if node.Name? then node.name else node.pipeline }

  /** The stage names each pipeline once, by a name without slashes. */
  predicate PlainNames(nodes: seq<GroupNode>) {
    && (forall i :: 0 <= i < |nodes| ==> '/' !in NodeName(nodes[i]))
    && forall i, j :: 0 <= i < j < |nodes| ==> NodeName(nodes[i]) != NodeName(nodes[j])
  }

  predicate DistinctIds(tasks: seq<PlannedTask>) {
    forall i, j :: 0 <= i < j < |tasks| ==> tasks[i].id != tasks[j].id
  }

  /** The id of a task planned for the pipeline, or for a chunk of it. */
  ghost predicate Named(id: string, stage: nat, name: string) {
    exists rest: string :: (rest == "" || rest[0] == '/') && id == TaskId(stage, name + rest)
  }

  function ChunkId(stage: nat, name: string, c: nat): string { TaskId(stage, name + "/x/" + Decimal(c)) }

  ghost predicate FromChunk(id: string, stage: nat, name: string, lo: nat) {
    exists c: nat :: c >= lo && id == ChunkId(stage, name, c)
  }

  lemma SameRest(stage: nat, a: string, b: string)
    requires TaskId(stage, a) == TaskId(stage, b)
    ensures a == b
  {
    hide Decimal;
    var p := Decimal(stage) + "-";
    assert TaskId(stage, a)[|p|..] == a && TaskId(stage, b)[|p|..] == b;
  }

  lemma ChunkIdInjective(stage: nat, name: string, c: nat, d: nat)
    requires ChunkId(stage, name, c) == ChunkId(stage, name, d)
    ensures c == d
  {
    hide Decimal, TaskId;
    var p := name + "/x/";
    SameRest(stage, p + Decimal(c), p + Decimal(d));
    assert (p + Decimal(c))[|p|..] == Decimal(c) && (p + Decimal(d))[|p|..] == Decimal(d);
    DecimalInjective(c, d);
  }

  lemma NamesApart(id: string, stage: nat, a: string, b: string)
    requires '/' !in a && '/' !in b && Named(id, stage, a) && Named(id, stage, b)
    ensures a == b
  {
    hide TaskId;
    var r: string :| (r == "" || r[0] == '/') && id == TaskId(stage, a + r);
    var q: string :| (q == "" || q[0] == '/') && id == TaskId(stage, b + q);
    SameRest(stage, a + r, b + q);
    if |a| < |b| { LongerHasSlash(a, r, b, q); }
    if |b| < |a| { LongerHasSlash(b, q, a, r); }
    assert (a + r)[..|a|] == a && (b + q)[..|b|] == b;
  }

  lemma LongerHasSlash(a: string, r: string, b: string, q: string)
    requires a + r == b + q && |a| < |b| && (r == "" || r[0] == '/')
    ensures '/' in b
  {
    assert |a + r| == |b + q|;
    assert (a + r)[|a|] == r[0] && (b + q)[|a|] == b[|a|];
  }

  lemma ChunkIsNamed(id: string, stage: nat, name: string, lo: nat)
    requires FromChunk(id, stage, name, lo)
    ensures Named(id, stage, name)
  {
    hide TaskId, Decimal;
    var c: nat :| c >= lo && id == ChunkId(stage, name, c);
    var rest := "/x/" + Decimal(c);
    assert name + rest == name + "/x/" + Decimal(c);
    assert rest[0] == '/' && id == TaskId(stage, name + rest);
  }

  lemma {:induction false} FanoutIds(pipe: Pipeline, name: string, src: string, field: Option<string>,
                                     chunks: seq<seq<string>>, i: nat, maxAttempts: nat, stage: nat)
    requires i <= |chunks|
    ensures var ts := FanoutTasks(pipe, name, src, field, chunks, i, maxAttempts, stage);
            DistinctIds(ts) && forall t :: 0 <= t < |ts| ==> FromChunk(ts[t].id, stage, name, i)
    decreases |chunks| - i
  {
    hide Injected, ChunkId;
    if i < |chunks| {
      FanoutIds(pipe, name, src, field, chunks, i + 1, maxAttempts, stage);
      var rest := FanoutTasks(pipe, name, src, field, chunks, i + 1, maxAttempts, stage);
      var t := FanoutTask(pipe, name, Chunk(chunks[i], i, |chunks|, src, field), maxAttempts, stage);
      ChunkIdIs(pipe, name, Chunk(chunks[i], i, |chunks|, src, field), maxAttempts, stage);
      forall k | 0 <= k < |rest|
        ensures rest[k].id != t.id && FromChunk(rest[k].id, stage, name, i) {
        var c: nat :| c >= i + 1 && rest[k].id == ChunkId(stage, name, c);
        if rest[k].id == t.id { ChunkIdInjective(stage, name, c, i); }
      }
    }
  }

  lemma ChunkIdIs(pipe: Pipeline, name: string, c: Chunk, maxAttempts: nat, stage: nat)
    ensures FanoutTask(pipe, name, c, maxAttempts, stage).id == ChunkId(stage, name, c.index)
  {}

  lemma NodeIds(cfg: Config, node: GroupNode, maxAttempts: nat, stage: nat, ser: Value -> string)
    ensures var r := NodeTasks(cfg, node, maxAttempts, stage, ser);
            r.Ok? ==> DistinctIds(r.value) && forall t :: 0 <= t < |r.value| ==>
                Named(r.value[t].id, stage, NodeName(node))
  {
    hide ParsePartition, FindPipeline, FindSource, UniverseOf, Slices, FanoutTasks, TaskId, Named, FromChunk;
    var name := NodeName(node);
    var r := NodeTasks(cfg, node, maxAttempts, stage, ser);
    if node.Name? || node.partition.None? {
      assert Named(TaskId(stage, name), stage, name) by { PlainIsNamed(stage, name); }
    } else if r.Ok? {
      var split := ParsePartition(node.partition.value).value;
      var pipe := FindPipeline(cfg.pipelines, name).value;
      var src := FindSource(pipe.sources, split.source).value;
      var u := UniverseOf(src, split.field, ser).value;
      FanoutIds(pipe, name, src.name, split.field, Slices(u, AtLeastOne(split.workers)), 0, maxAttempts, stage);
      forall t | 0 <= t < |r.value| ensures Named(r.value[t].id, stage, name) {
        ChunkIsNamed(r.value[t].id, stage, name, 0);
      }
    }
  }

  lemma PlainIsNamed(stage: nat, name: string)
    ensures Named(TaskId(stage, name), stage, name)
  {
    hide TaskId;
    assert name + "" == name;
  }

  ghost predicate NamedIn(id: string, stage: nat, nodes: seq<GroupNode>) {
    exists n :: 0 <= n < |nodes| && Named(id, stage, NodeName(nodes[n]))
  }

  ghost predicate AllNamed(tasks: seq<PlannedTask>, stage: nat, nodes: seq<GroupNode>) {
    forall t :: 0 <= t < |tasks| ==> NamedIn(tasks[t].id, stage, nodes)
  }

  lemma TwoNodes(a: seq<PlannedTask>, b: seq<PlannedTask>, stage: nat, nodes: seq<GroupNode>)
    requires nodes != [] && PlainNames(nodes) && DistinctIds(a) && DistinctIds(b)
    requires AllNamed(a, stage, nodes[..|nodes| - 1])
    requires forall t :: 0 <= t < |b| ==> Named(b[t].id, stage, NodeName(nodes[|nodes| - 1]))
    ensures DistinctIds(a + b) && AllNamed(a + b, stage, nodes)
  {
    hide Named;
    var init, z := nodes[..|nodes| - 1], |nodes| - 1;
    forall i, j | 0 <= i < |a| && 0 <= j < |b| ensures a[i].id != b[j].id {
      assert NamedIn(a[i].id, stage, init);
      var n :| 0 <= n < |init| && Named(a[i].id, stage, NodeName(init[n]));
      assert init[n] == nodes[n];
      if a[i].id == b[j].id { NamesApart(a[i].id, stage, NodeName(nodes[n]), NodeName(nodes[z])); }
    }
    forall t | 0 <= t < |a| ensures NamedIn(a[t].id, stage, nodes) {
      assert NamedIn(a[t].id, stage, init);
      var n :| 0 <= n < |init| && Named(a[t].id, stage, NodeName(init[n]));
      assert init[n] == nodes[n];
    }
    forall t | 0 <= t < |b| ensures NamedIn(b[t].id, stage, nodes) {
      assert Named(b[t].id, stage, NodeName(nodes[z]));
    }
  }

  lemma {:induction false} StageIds(cfg: Config, nodes: seq<GroupNode>, maxAttempts: nat, stage: nat,
                                    ser: Value -> string)
    requires PlainNames(nodes)
    ensures var r := StageTasks(cfg, nodes, maxAttempts, stage, ser);
            r.Ok? ==> DistinctIds(r.value) && AllNamed(r.value, stage, nodes)
    decreases |nodes|
  {
    hide NodeTasks, Named, DistinctIds, AllNamed;
    if nodes == [] {
      NoIds(stage);
    } else if StageTasks(cfg, nodes, maxAttempts, stage, ser).Ok? {
      var init, last := nodes[..|nodes| - 1], nodes[|nodes| - 1];
      StageIds(cfg, init, maxAttempts, stage, ser);
      NodeIds(cfg, last, maxAttempts, stage, ser);
      TwoNodes(StageTasks(cfg, init, maxAttempts, stage, ser).value,
          NodeTasks(cfg, last, maxAttempts, stage, ser).value,
               stage, nodes);
    }
  }

  lemma NoIds(stage: nat)
    ensures DistinctIds([]) && AllNamed([], stage, [])
  {}

  lemma {:induction false} PlanIdsDistinct(cfg: Config, stages: seq<seq<GroupNode>>, maxAttempts: nat,
                                           ser: Value -> string)
    requires forall s :: 0 <= s < |stages| ==> PlainNames(stages[s])
    ensures var r := PlanStages(cfg, stages, maxAttempts, ser);
            r.Ok? ==> forall s :: 0 <= s < |r.value| ==> DistinctIds(r.value[s])
    decreases |stages|
  {
    hide StageTasks, DistinctIds, PlainNames;
    if stages != [] {
      PlanIdsDistinct(cfg, stages[..|stages| - 1], maxAttempts, ser);
      StageIds(cfg, stages[|stages| - 1], maxAttempts, |stages| - 1, ser);
    }
  }

  /** A config whose stages each name a pipeline once, without slashes, plans
      distinct ids: when its run ends ok, every planned payload was run. */
  lemma PlainConfigRunsEverything(cfg: Config, m: nat, ser: Value -> string, render: PlannedTask -> string, slots: nat,
                                  plan: StagedRun.Plan, actions: seq<StagedRun.Action>, s: StagedRun.Sys)
    requires PlanOf(cfg, m, ser).Ok? && plan == ToPlan(PlanOf(cfg, m, ser).value, render)
    requires forall i :: 0 <= i < |StageNodes(cfg)| ==> PlainNames(StageNodes(cfg)[i])
    requires StagedTheorems.Possible(plan, m, StagedRun.InitSys(slots), actions)
    requires s == StagedTheorems.RunSys(plan, m, StagedRun.InitSys(slots), actions)
    requires StagedRun.Ended(plan, s) && s.kills == []
    ensures forall j, i :: 0 <= j < |plan| && 0 <= i < |plan[j]| ==> StagedPayloads.PayloadRan(s.kernel, plan[j][i])
  {
    hide PlainNames, StageNodes, PlanStages, StagedTheorems.Possible, StagedTheorems.RunSys, StagedPayloads.PayloadRan;
    PlansAreStaged(cfg, m, ser, render);
    PlanIdsDistinct(cfg, StageNodes(cfg), m, ser);
    var stages := PlanOf(cfg, m, ser).value;
    forall j, i, k | 0 <= j < |plan| && 0 <= i < |plan[j]| && 0 <= k < |plan[j]| && plan[j][i].id == plan[j][k].id
      ensures plan[j][i].info == plan[j][k].info {
      assert DistinctIds(stages[j]);
      assert plan[j][i].id == stages[j][i].id && plan[j][k].id == stages[j][k].id;
    }
    assert StagedPayloads.OnePayloadPerId(plan);
    StagedPayloads.OkRunsEveryPayloadIff(plan, m, slots, actions, s);
  }
}
