/** What a plan holds, and when there is none, in terms of the config alone. */
module PlanMeaning {
  import opened Wrappers
  import opened Text
  import opened Walk
  import opened Planning

  // ----- names -----------------------------------------------------------------------------------

  /** A pipeline without a name goes by `unnamed`. */
  predicate Called(p: Pipeline, name: string) { p.name == Some(name) || (p.name.None? && name == "unnamed") }

  predicate FirstPipeline(pipes: seq<Pipeline>, name: string, i: nat) {
    i < |pipes| && Called(pipes[i], name) && forall j :: 0 <= j < i ==> !Called(pipes[j], name)
  }

  predicate NoPipelineOf(pipes: seq<Pipeline>, name: string) {
    forall j :: 0 <= j < |pipes| ==> !Called(pipes[j], name)
  }

  predicate FirstSource(sources: seq<Source>, name: string, k: nat) {
    k < |sources| && sources[k].name == name && forall j :: 0 <= j < k ==> sources[j].name != name
  }

  predicate NoSourceOf(sources: seq<Source>, name: string) {
    forall j :: 0 <= j < |sources| ==> sources[j].name != name
  }

  function Wanted(node: GroupNode): string { if node.Name? then node.name else node.pipeline }

  predicate Plain(node: GroupNode) { node.Name? || node.partition.None? }

  /** The nodes of a stage; without an execution section, one for each pipeline. */
  predicate IsStage(cfg: Config, i: nat, nodes: seq<GroupNode>) {
    if cfg.execution != [] then i < |cfg.execution| && nodes == cfg.execution[i]
    else i < |cfg.pipelines| && |nodes| == 1 && nodes[0].Name? && Called(cfg.pipelines[i], nodes[0].name)
  }

  function StageCount(cfg: Config): nat { if cfg.execution != [] then |cfg.execution| else |cfg.pipelines| }

  // ----- what one node gives -----------------------------------------------------------------------

  predicate GivesPlain(cfg: Config, node: GroupNode, stage: nat, m: nat, ts: seq<PlannedTask>, i: nat) {
    && FirstPipeline(cfg.pipelines, Wanted(node), i)
    && |ts| == 1 && ts[0].id == Decimal(stage) + "-" + Wanted(node) && ts[0].pipe == cfg.pipelines[i]
    && ts[0].priority == (if node.Node? && node.priority.Some? then node.priority.value else 0)
    && ts[0].maxAttempts == m && ts[0].chunk.None?
  }

  /** The text a record contributes to the values that are split. */
  predicate UnitIs(item: Value, field: Option<string>, ser: Value -> string, u: string) {
    u != "" && match field case None => u == ser(item) case Some(f) => Get(item, f) == Some(VStr(u))
  }

  /** `units` are the texts of the items at `rows`, ascending, and of no others. */
  predicate Collects(items: seq<Value>, field: Option<string>, ser: Value -> string, units: seq<string>,
                     rows: seq<nat>) {
    && |rows| == |units|
    && (forall k :: 0 <= k < |rows| ==> rows[k] < |items| && UnitIs(items[rows[k]], field, ser, units[k]))
    && (forall k, l :: 0 <= k < l < |rows| ==> rows[k] < rows[l])
    && forall i :: 0 <= i < |items| && i !in rows ==> !HasUnit(items[i], field, ser)
  }

  predicate HasUnit(item: Value, field: Option<string>, ser: Value -> string) {
    match field
    case None => ser(item) != ""
    case Some(f) => match Get(item, f) case Some(VStr(s)) => s != "" case _ => false
  }

  /** A pipeline but for the filters of its datasets: with a field, a dataset
      without a filter gets the test for the chunk. */
  predicate Narrowed(p: Pipeline, q: Pipeline, field: Option<string>) {
    && q.name == p.name && q.sources == p.sources && |q.datasets| == |p.datasets|
    && forall d :: 0 <= d < |p.datasets| ==>
         q.datasets[d] == p.datasets[d].(filter :=
           if field.None? || p.datasets[d].filter.Some? then p.datasets[d].filter
           else Some("$." + field.value + " IN $task.ctx.units"))
  }

  predicate ChunkTask(t: PlannedTask, c: nat, p: Pipeline, name: string, s: Split, stage: nat, m: nat) {
    && t.id == Decimal(stage) + "-" + (name + "/x/" + Decimal(c)) && t.priority == 0 && t.maxAttempts == m
    && Narrowed(p, t.pipe, s.field)
    && t.chunk.Some? && t.chunk.value.source == s.source && t.chunk.value.field == s.field
    && t.chunk.value.index == c && t.chunk.value.total == s.workers && t.chunk.value.units != []
  }

  function UnitsOf(ts: seq<PlannedTask>): seq<string> {
    if ts == [] then [] else (if ts[0].chunk.Some? then ts[0].chunk.value.units else []) + UnitsOf(ts[1..])
  }

  /** The tasks of a fan-out: of the first source of the name in the first
      pipeline of the name, the values in order, over as many workers as have one. */
  predicate GivesFanned(cfg: Config, node: GroupNode, stage: nat, m: nat, ser: Value -> string, ts: seq<PlannedTask>,
                        s: Split, i: nat, k: nat, rows: seq<nat>)
    requires node.Node? && node.partition.Some?
  {
    && ParsePartition(node.partition.value) == Ok(s) && FirstPipeline(cfg.pipelines, Wanted(node), i)
    && FirstSource(cfg.pipelines[i].sources, s.source, k) && cfg.pipelines[i].sources[k].doc.Some?
    && cfg.pipelines[i].sources[k].doc.value.VArr?
    && Collects(cfg.pipelines[i].sources[k].doc.value.items, s.field, ser, UnitsOf(ts), rows)
    && |ts| == MinNat(s.workers, |UnitsOf(ts)|)
    && forall c :: 0 <= c < |ts| ==> ChunkTask(ts[c], c, cfg.pipelines[i], Wanted(node), s, stage, m)
  }

  ghost predicate NodeGives(cfg: Config, node: GroupNode, stage: nat, m: nat, ser: Value -> string,
                            ts: seq<PlannedTask>) {
    if Plain(node) then exists i: nat :: GivesPlain(cfg, node, stage, m, ts, i)
    else exists s, i: nat, k: nat, rows :: GivesFanned(cfg, node, stage, m, ser, ts, s, i, k, rows)
  }

  /** Why a node cannot be planned. */
  ghost predicate Refuses(cfg: Config, node: GroupNode, e: Error) {
    if Plain(node) then NoPipelineOf(cfg.pipelines, Wanted(node)) && e == NoPipeline
    else match ParsePartition(node.partition.value)
      case Err(x) => e == x
      case Ok(s) =>
        || (e == NoPipeline && NoPipelineOf(cfg.pipelines, Wanted(node)))
        || exists i: nat :: FirstPipeline(cfg.pipelines, Wanted(node), i) &&
            RefusesSource(cfg.pipelines[i].sources, s.source, e)
  }

  ghost predicate RefusesSource(sources: seq<Source>, name: string, e: Error) {
    || (e == NoSource && NoSourceOf(sources, name))
    || (e == BadUniverse && exists k: nat :: FirstSource(sources, name, k) && NoArray(sources[k]))
  }

  predicate NoArray(s: Source) { s.doc.None? || !s.doc.value.VArr? }

  ghost predicate Accepted(cfg: Config, node: GroupNode) { forall e :: !Refuses(cfg, node, e) }

  // ----- the searches ------------------------------------------------------------------------------

  lemma {:induction false} PipelineFound(pipes: seq<Pipeline>, name: string) returns (i: nat)
    ensures match FindPipeline(pipes, name)
            case Ok(p) => FirstPipeline(pipes, name, i) && p == pipes[i]
            case Err(e) => e == NoPipeline && NoPipelineOf(pipes, name)
  {
    i := 0;
    if pipes != [] && NameOf(pipes[0]) != name {
      var j := PipelineFound(pipes[1..], name);
      assert !Called(pipes[0], name);
      assert forall l :: 0 < l < |pipes| ==> pipes[l] == pipes[1..][l - 1];
      i := j + 1;
    }
  }

  lemma OneFirst(pipes: seq<Pipeline>, name: string, i: nat, j: nat)
    requires FirstPipeline(pipes, name, i) && FirstPipeline(pipes, name, j)
    ensures i == j
  {}

  lemma {:induction false} SourceFound(sources: seq<Source>, name: string) returns (k: nat)
    ensures match FindSource(sources, name)
            case Ok(s) => FirstSource(sources, name, k) && s == sources[k]
            case Err(e) => e == NoSource && NoSourceOf(sources, name)
  {
    k := 0;
    if sources != [] && sources[0].name != name {
      var j := SourceFound(sources[1..], name);
      assert forall l :: 0 < l < |sources| ==> sources[l] == sources[1..][l - 1];
      k := j + 1;
    }
  }

  // ----- the values ----------------------------------------------------------------------------------

  lemma {:induction false} UniverseCollects(items: seq<Value>, field: Option<string>, ser: Value -> string)
    returns (rows: seq<nat>)
    ensures Collects(items, field, ser, Universe(items, field, ser), rows)
    decreases |items|
  {
    if items == [] {
      rows := [];
    } else {
      var n := |items| - 1;
      var init := UniverseCollects(items[..n], field, ser);
      UniverseSnoc(items, n, field, ser);
      assert items[..n + 1] == items;
      UnitFacts(items[n], field, ser);
      var u := UnitList(items[n], field, ser);
      rows := init + (if u == [] then [] else [n]);
      CollectsOneMore(items, field, ser, Universe(items[..n], field, ser), init, u);
    }
  }

  lemma CollectsOneMore(items: seq<Value>, field: Option<string>, ser: Value -> string, units: seq<string>,
                        rows: seq<nat>, u: seq<string>)
    requires items != [] && Collects(items[..|items| - 1], field, ser, units, rows)
    requires var n := |items| - 1;
             && (u == [] ==> !HasUnit(items[n], field, ser))
             && (u != [] ==> |u| == 1 && UnitIs(items[n], field, ser, u[0]))
    ensures Collects(items, field, ser, units + u, rows + (if u == [] then [] else [|items| - 1]))
  {
    hide UnitIs, HasUnit;
    var n := |items| - 1;
    var all := rows + (if u == [] then [] else [n]);
    assert forall i :: 0 <= i < n ==> items[..n][i] == items[i];
    assert u != [] ==> all[|rows|] == n;
    forall i | 0 <= i < |items| && i !in all ensures !HasUnit(items[i], field, ser) { assert i in rows ==> i in all; }
  }

  lemma UnitFacts(item: Value, field: Option<string>, ser: Value -> string)
    ensures var u := UnitList(item, field, ser);
            && (u == [] ==> !HasUnit(item, field, ser)) && (u != [] ==> |u| == 1 && UnitIs(item, field, ser, u[0]))
  {}

  // ----- the chunks ----------------------------------------------------------------------------------

  lemma NonEmptyChunks(n: nat, k: nat, c: nat)
    requires k >= 1 && c < k
    ensures ChunkLen(n, k, c) > 0 <==> c < MinNat(k, n)
  {
    if n < k { SmallDiv(n, k); } else { BigDiv(n, k); }
  }

  lemma SmallDiv(n: nat, k: nat)
    requires n < k
    ensures n / k == 0 && n % k == n
  {}

  lemma BigDiv(n: nat, k: nat)
    requires n >= k >= 1
    ensures n / k >= 1
  {
    assert n == k * (n / k) + n % k && n % k < k;
  }

  /** Where exactly the first `p` chunks hold anything, there is a task for each of those. */
  lemma {:induction false} FanoutList(pipe: Pipeline, name: string, s: Split, chunks: seq<seq<string>>, i: nat,
                                      m: nat, stage: nat, p: nat)
    requires i <= |chunks| && p <= |chunks| == s.workers
    requires forall c :: 0 <= c < |chunks| ==> (chunks[c] != [] <==> c < p)
    ensures var ts := FanoutTasks(pipe, name, s.source, s.field, chunks, i, m, stage);
            && |ts| == (if i < p then p - i else 0) && UnitsOf(ts) == Flatten(chunks[i..])
            && forall c :: 0 <= c < |ts| ==> ChunkTask(ts[c], i + c, pipe, name, s, stage, m)
    decreases |chunks| - i
  {
    hide ChunkTask;
    if i < |chunks| {
      FanoutList(pipe, name, s, chunks, i + 1, m, stage, p);
      assert chunks[i..][1..] == chunks[i + 1..];
      var rest := FanoutTasks(pipe, name, s.source, s.field, chunks, i + 1, m, stage);
      var ts := FanoutTasks(pipe, name, s.source, s.field, chunks, i, m, stage);
      if i < p {
        var c := Chunk(chunks[i], i, |chunks|, s.source, s.field);
        FanoutTaskIs(pipe, name, c, s, m, stage);
        assert ts == [FanoutTask(pipe, name, c, m, stage)] + rest;
        assert ts[1..] == rest;
      } else {
        assert ts == [] + rest == rest;
        assert Flatten(chunks[i..]) == [] + Flatten(chunks[i + 1..]);
      }
    }
  }

  lemma FanoutTaskIs(pipe: Pipeline, name: string, c: Chunk, s: Split, m: nat, stage: nat)
    requires c.source == s.source && c.field == s.field && c.total == s.workers && c.units != []
    ensures var t := FanoutTask(pipe, name, c, m, stage);
            ChunkTask(t, c.index, pipe, name, s, stage, m) && t.chunk == Some(c)
  {
    hide Decimal;
    FilterIs(s.field);
  }

  lemma FilterIs(field: Option<string>)
    ensures field.Some? ==> Expr.FilterText(field.value) == "$." + field.value + " IN $task.ctx.units"
  {}

  lemma SplitGives(cfg: Config, node: GroupNode, stage: nat, m: nat, ser: Value -> string, s: Split, i: nat, k: nat)
    requires !Plain(node) && ParsePartition(node.partition.value) == Ok(s)
    requires FirstPipeline(cfg.pipelines, Wanted(node), i) && FirstSource(cfg.pipelines[i].sources, s.source, k)
    requires !NoArray(cfg.pipelines[i].sources[k]) && s.workers >= 1
    ensures var units := Universe(cfg.pipelines[i].sources[k].doc.value.items, s.field, ser);
            NodeGives(cfg, node, stage, m, ser,
              FanoutTasks(cfg.pipelines[i], Wanted(node), s.source, s.field, Slices(units, s.workers), 0, m, stage))
  {
    hide ParsePartition, Universe, Collects, FanoutTasks, Slices, ChunkLen, ChunkTask, Flatten, UnitsOf;
    var items := cfg.pipelines[i].sources[k].doc.value.items;
    var rows := UniverseCollects(items, s.field, ser);
    var units := Universe(items, s.field, ser);
    var chunks := Slices(units, s.workers);
    SlicesCover(units, s.workers);
    forall c | 0 <= c < |chunks| ensures chunks[c] != [] <==> c < MinNat(s.workers, |units|) {
      NonEmptyChunks(|units|, s.workers, c);
    }
    FanoutList(cfg.pipelines[i], Wanted(node), s, chunks, 0, m, stage, MinNat(s.workers, |units|));
    assert chunks[0..] == chunks;
    var ts := FanoutTasks(cfg.pipelines[i], Wanted(node), s.source, s.field, chunks, 0, m, stage);
    assert GivesFanned(cfg, node, stage, m, ser, ts, s, i, k, rows);
    assert NodeGives(cfg, node, stage, m, ser, ts) by { FannedIsGiven(cfg, node, stage, m, ser, ts, s, i, k, rows); }
  }

  lemma FannedIsGiven(cfg: Config, node: GroupNode, stage: nat, m: nat, ser: Value -> string, ts: seq<PlannedTask>,
                      s: Split, i: nat, k: nat, rows: seq<nat>)
    requires !Plain(node) && GivesFanned(cfg, node, stage, m, ser, ts, s, i, k, rows)
    ensures NodeGives(cfg, node, stage, m, ser, ts)
  {
    hide GivesFanned;
  }

  lemma SplitHasWorkers(text: string)
    ensures ParsePartition(text).Ok? ==> ParsePartition(text).value.workers >= 1
  {
    hide Trim, SplitFirst, SplitLast, ParseUsize;
  }

  // ----- one node --------------------------------------------------------------------------------------

  lemma PlainMeans(cfg: Config, node: GroupNode, m: nat, stage: nat, ser: Value -> string)
    requires Plain(node)
    ensures match NodeTasks(cfg, node, m, stage, ser)
            case Ok(ts) => NodeGives(cfg, node, stage, m, ser, ts) && Accepted(cfg, node)
            case Err(e) => Refuses(cfg, node, e)
  {
    hide FindPipeline, Decimal;
    var i := PipelineFound(cfg.pipelines, Wanted(node));
    if FindPipeline(cfg.pipelines, Wanted(node)).Ok? {
      assert GivesPlain(cfg, node, stage, m, NodeTasks(cfg, node, m, stage, ser).value, i);
    }
  }

  lemma FannedMeans(cfg: Config, node: GroupNode, m: nat, stage: nat, ser: Value -> string)
    requires !Plain(node)
    ensures match NodeTasks(cfg, node, m, stage, ser)
            case Ok(ts) => NodeGives(cfg, node, stage, m, ser, ts) && Accepted(cfg, node)
            case Err(e) => Refuses(cfg, node, e)
  {
    hide ParsePartition, FindPipeline, FindSource, Slices, FanoutTasks, FirstPipeline, FirstSource, Universe, NodeGives,
      NoPipelineOf, NoSourceOf;
    var split := ParsePartition(node.partition.value);
    SplitHasWorkers(node.partition.value);
    if split.Ok? {
      var s := split.value;
      var i := PipelineFound(cfg.pipelines, Wanted(node));
      if FindPipeline(cfg.pipelines, Wanted(node)).Ok? {
        var sources := cfg.pipelines[i].sources;
        var k := SourceFound(sources, s.source);
        OnlyThisPipeline(cfg, node, s, i);
        if FindSource(sources, s.source).Ok? {
          OnlyThisSource(sources, s.source, k);
          FoundName(sources, s.source, k);
          if !NoArray(sources[k]) { SplitGives(cfg, node, stage, m, ser, s, i, k); }
        }
      }
    }
  }

  lemma FoundName(sources: seq<Source>, name: string, k: nat)
    requires FirstSource(sources, name, k)
    ensures sources[k].name == name && !NoSourceOf(sources, name)
  {}

  /** Once the pipeline is found only its sources can refuse the node. */
  lemma OnlyThisPipeline(cfg: Config, node: GroupNode, s: Split, i: nat)
    requires !Plain(node) && ParsePartition(node.partition.value) == Ok(s)
    requires FirstPipeline(cfg.pipelines, Wanted(node), i)
    ensures forall e :: Refuses(cfg, node, e) <==> RefusesSource(cfg.pipelines[i].sources, s.source, e)
  {
    hide ParsePartition, RefusesSource;
  }

  lemma OnlyThisSource(sources: seq<Source>, name: string, k: nat)
    requires FirstSource(sources, name, k)
    ensures forall e :: RefusesSource(sources, name, e) <==> e == BadUniverse && NoArray(sources[k])
  {
    hide NoArray;
  }

  lemma NodeMeans(cfg: Config, node: GroupNode, m: nat, stage: nat, ser: Value -> string)
    ensures match NodeTasks(cfg, node, m, stage, ser)
            case Ok(ts) => NodeGives(cfg, node, stage, m, ser, ts) && Accepted(cfg, node)
            case Err(e) => Refuses(cfg, node, e)
  {
    if Plain(node) { PlainMeans(cfg, node, m, stage, ser); } else { FannedMeans(cfg, node, m, stage, ser); }
  }

  // ----- stages ----------------------------------------------------------------------------------------

  /** The tasks of a stage are those of its nodes, node after node. */
  ghost predicate StageGives(cfg: Config, nodes: seq<GroupNode>, stage: nat, m: nat, ser: Value -> string,
                             ts: seq<PlannedTask>) {
    exists parts :: PartsGive(cfg, nodes, stage, m, ser, parts) && ts == Flatten(parts)
  }

  ghost predicate PartsGive(cfg: Config, nodes: seq<GroupNode>, stage: nat, m: nat, ser: Value -> string,
                            parts: seq<seq<PlannedTask>>) {
    |parts| == |nodes| && forall j :: 0 <= j < |nodes| ==> NodeGives(cfg, nodes[j], stage, m, ser, parts[j])
  }

  ghost predicate AllAccepted(cfg: Config, nodes: seq<GroupNode>) {
    forall j :: 0 <= j < |nodes| ==> Accepted(cfg, nodes[j])
  }

  /** The first node that cannot be planned is the `j`-th, because of `e`. */
  ghost predicate StageFailsAt(cfg: Config, nodes: seq<GroupNode>, j: nat, e: Error) {
    j < |nodes| && AllAccepted(cfg, nodes[..j]) && Refuses(cfg, nodes[j], e)
  }

  lemma {:induction false} StageMeans(cfg: Config, nodes: seq<GroupNode>, m: nat, stage: nat, ser: Value -> string)
    ensures match StageTasks(cfg, nodes, m, stage, ser)
            case Ok(ts) => StageGives(cfg, nodes, stage, m, ser, ts) && AllAccepted(cfg, nodes)
            case Err(e) => exists j: nat :: StageFailsAt(cfg, nodes, j, e)
    decreases |nodes|
  {
    hide NodeTasks, NodeGives, Accepted, Refuses;
    if nodes == [] {
      assert PartsGive(cfg, nodes, stage, m, ser, []);
      assert Flatten<PlannedTask>([]) == [];
    } else {
      var n := |nodes| - 1;
      StageMeans(cfg, nodes[..n], m, stage, ser);
      NodeMeans(cfg, nodes[n], m, stage, ser);
      match StageTasks(cfg, nodes[..n], m, stage, ser)
      case Err(e) =>
        var j: nat :| StageFailsAt(cfg, nodes[..n], j, e);
        assert nodes[..n][..j] == nodes[..j];
        assert StageFailsAt(cfg, nodes, j, e);
        assert StageTasks(cfg, nodes, m, stage, ser) == Err(e);
      case Ok(ts) =>
        var parts :| PartsGive(cfg, nodes[..n], stage, m, ser, parts) && ts == Flatten(parts);
        match NodeTasks(cfg, nodes[n], m, stage, ser)
        case Err(e) => assert StageFailsAt(cfg, nodes, n, e);
        case Ok(more) =>
          FlattenSnoc(parts, more);
          assert PartsGive(cfg, nodes, stage, m, ser, parts + [more]);
    }
  }

  // ----- the plan ----------------------------------------------------------------------------------------

  ghost predicate PlanGives(cfg: Config, stages: seq<seq<GroupNode>>, m: nat, ser: Value -> string,
                            plan: seq<seq<PlannedTask>>) {
    |plan| == |stages| && forall i :: 0 <= i < |plan| ==> StageGives(cfg, stages[i], i, m, ser, plan[i])
  }

  ghost predicate PlanFailsAt(cfg: Config, stages: seq<seq<GroupNode>>, i: nat, j: nat, e: Error) {
    && i < |stages| && StageFailsAt(cfg, stages[i], j, e)
    && forall h :: 0 <= h < i ==> AllAccepted(cfg, stages[h])
  }

  lemma {:induction false} StagesMean(cfg: Config, stages: seq<seq<GroupNode>>, m: nat, ser: Value -> string)
    ensures match PlanStages(cfg, stages, m, ser)
            case Ok(plan) =>
              && PlanGives(cfg, stages, m, ser, plan)
              && forall h :: 0 <= h < |stages| ==> AllAccepted(cfg, stages[h])
            case Err(e) => exists i: nat, j: nat :: PlanFailsAt(cfg, stages, i, j, e)
    decreases |stages|
  {
    hide StageTasks, StageGives, StageFailsAt, AllAccepted;
    if stages != [] {
      var n := |stages| - 1;
      StagesMean(cfg, stages[..n], m, ser);
      StageMeans(cfg, stages[n], m, n, ser);
      match PlanStages(cfg, stages[..n], m, ser)
      case Err(e) =>
        var i: nat, j: nat :| PlanFailsAt(cfg, stages[..n], i, j, e);
        assert PlanFailsAt(cfg, stages, i, j, e);
      case Ok(plan) =>
        match StageTasks(cfg, stages[n], m, n, ser)
        case Err(e) =>
          var j: nat :| StageFailsAt(cfg, stages[n], j, e);
          assert PlanFailsAt(cfg, stages, n, j, e);
          assert PlanStages(cfg, stages, m, ser) == Err(e);
        case Ok(ts) => assert PlanGives(cfg, stages, m, ser, plan + [ts]);
    }
  }

  /** Only one node is the first to be refused, and for one reason. */
  lemma OneFailure(cfg: Config, stages: seq<seq<GroupNode>>, i: nat, j: nat, e: Error, i': nat, j': nat, e': Error)
    requires PlanFailsAt(cfg, stages, i, j, e) && PlanFailsAt(cfg, stages, i', j', e')
    ensures e == e'
  {
    hide Refuses;
    RefusedIsNotAccepted(cfg, stages, i, j, e);
    RefusedIsNotAccepted(cfg, stages, i', j', e');
    assert i == i';
    NotAmong(cfg, stages[i], j, j');
    NotAmong(cfg, stages[i], j', j);
    OneReason(cfg, stages[i][j], e, e');
  }

  lemma NotAmong(cfg: Config, nodes: seq<GroupNode>, j: nat, k: nat)
    requires j < |nodes| && k <= |nodes| && !Accepted(cfg, nodes[j]) && AllAccepted(cfg, nodes[..k])
    ensures j >= k
  {
    hide Accepted;
    forall i | 0 <= i < k ensures Accepted(cfg, nodes[i]) { assert nodes[..k][i] == nodes[i]; }
  }

  lemma RefusedIsNotAccepted(cfg: Config, stages: seq<seq<GroupNode>>, i: nat, j: nat, e: Error)
    requires PlanFailsAt(cfg, stages, i, j, e)
    ensures !Accepted(cfg, stages[i][j]) && !AllAccepted(cfg, stages[i])
  {
    hide Refuses;
  }

  lemma OneReason(cfg: Config, node: GroupNode, e: Error, e': Error)
    requires Refuses(cfg, node, e) && Refuses(cfg, node, e')
    ensures e == e'
  {
    hide ParsePartition, Called;
  }

  /** The stages of the config, one after another. */
  lemma StagesOf(cfg: Config)
    ensures |StageNodes(cfg)| == StageCount(cfg) && forall i :: 0 <= i < StageCount(cfg) ==>
        IsStage(cfg, i, StageNodes(cfg)[i])
  {}

  ghost predicate StagesAre(cfg: Config, stages: seq<seq<GroupNode>>) {
    |stages| == StageCount(cfg) && forall i :: 0 <= i < |stages| ==> IsStage(cfg, i, stages[i])
  }

  lemma OneStaging(cfg: Config, stages: seq<seq<GroupNode>>)
    requires StagesAre(cfg, stages)
    ensures stages == StageNodes(cfg)
  {
    var s := StageNodes(cfg);
    forall i | 0 <= i < |stages| ensures stages[i] == s[i] {
      assert IsStage(cfg, i, stages[i]);
      if cfg.execution == [] { assert stages[i] == [stages[i][0]]; }
    }
  }

  /** Planning a config, told from the config: where every node is accepted, each
      stage holds the tasks of its nodes, in order, each with the first pipeline
      of the name it asks for; otherwise planning fails for the reason the first
      node refused, in config order, is refused for. */
  lemma PlanIsFromConfig(cfg: Config, stages: seq<seq<GroupNode>>, m: nat, ser: Value -> string)
    requires StagesAre(cfg, stages)
    ensures PlanOf(cfg, m, ser).Ok? ==> PlanGives(cfg, stages, m, ser, PlanOf(cfg, m, ser).value)
    ensures forall e :: PlanOf(cfg, m, ser) == Err(e) <==> exists i: nat, j: nat :: PlanFailsAt(cfg, stages, i, j, e)
  {
    hide PlanStages, StageNodes, PlanGives, PlanFailsAt, StagesAre;
    OneStaging(cfg, stages);
    StagesMean(cfg, stages, m, ser);
    forall e | exists i: nat, j: nat :: PlanFailsAt(cfg, stages, i, j, e) ensures PlanOf(cfg, m, ser) == Err(e) {
      var i: nat, j: nat :| PlanFailsAt(cfg, stages, i, j, e);
      match PlanOf(cfg, m, ser)
      case Ok(_) => AcceptedDoesNotFail(cfg, stages, i, j, e);
      case Err(e') =>
        var i': nat, j': nat :| PlanFailsAt(cfg, stages, i', j', e');
        OneFailure(cfg, stages, i, j, e, i', j', e');
    }
  }

  lemma AcceptedDoesNotFail(cfg: Config, stages: seq<seq<GroupNode>>, i: nat, j: nat, e: Error)
    requires forall h :: 0 <= h < |stages| ==> AllAccepted(cfg, stages[h])
    ensures !PlanFailsAt(cfg, stages, i, j, e)
  {
    hide Refuses;
    if PlanFailsAt(cfg, stages, i, j, e) { RefusedIsNotAccepted(cfg, stages, i, j, e); }
  }

  // ----- partition texts that are refused -----------------------------------------------------------------

  /** No workers are as bad as no number. */
  lemma NoWorkers(source: string)
    requires source != "" && Trim(source) == source && forall i :: 0 <= i < |source| ==> source[i] != ','
    ensures ParsePartition("partition(" + source + ", 0)") == Err(BadWorkers)
  {
    hide SplitLast;
    var text, inner := "partition(" + source + ", 0)", source + ", 0)";
    TrimIsIdentity(text);
    assert text[..|PARTITION|] == PARTITION && text[|PARTITION|..] == inner;
    assert inner[..|inner| - 1] == source + ("," + " 0");
    SplitsAt(source, " 0");
    assert SplitFirst(" 0", ',') == (" 0", None) by { NoCommaIn(" 0"); }
    assert SkipWs(" 0") == "0" by { assert " 0"[1..] == "0"; }
    assert ParseUsize("0") == Some(0);
  }

  lemma {:induction false} SplitsAt(a: string, b: string)
    requires forall i :: 0 <= i < |a| ==> a[i] != ','
    ensures SplitFirst(a + ("," + b), ',') == (a, Some(b))
  {
    var s := a + ("," + b);
    if a == "" {
      assert s[1..] == b;
    } else {
      SplitsAt(a[1..], b);
      assert s[1..] == a[1..] + ("," + b);
      assert [a[0]] + a[1..] == a;
    }
  }

  lemma {:induction false} NoCommaIn(a: string)
    requires forall i :: 0 <= i < |a| ==> a[i] != ','
    ensures SplitFirst(a, ',') == (a, None)
  {
    if a != "" {
      NoCommaIn(a[1..]);
      assert [a[0]] + a[1..] == a;
    }
  }
}
