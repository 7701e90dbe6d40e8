/** Expanding a config into stages of tasks, and splitting a pipeline over the
    values of one of its sources. */
module Planning {
  import opened Wrappers
  import opened Text
  import opened Walk
  import Expr
  import Scan

  datatype Source = Source(name: string, doc: Option<Value>)   // None: it cannot be read or parsed

  // An output column: its expression, and the kind it was given.
  datatype Field = Field(expression: string, kind: Expr.ColKind)

  // A dataset as the config writes it; `leftKey` is the key of its join, if it has one.
  datatype Dataset = Dataset(
    name: string, unwound: bool, rules: seq<Scan.Rule>, filter: Option<string>, rowRoot: bool, fields: seq<Field>,
    leftKey: Option<string>)

  datatype Pipeline = Pipeline(name: Option<string>, sources: seq<Source>, datasets: seq<Dataset>)

  datatype GroupNode = Name(name: string) | Node(pipeline: string, partition: Option<string>, priority: Option<nat>)

  datatype Config = Config(pipelines: seq<Pipeline>, execution: seq<seq<GroupNode>>)

  // One slice of a universe, as `$task.ctx` carries it.
  datatype Chunk = Chunk(units: seq<string>, index: nat, total: nat, source: string, field: Option<string>)

  datatype PlannedTask = PlannedTask(id: string, priority: nat, pipe: Pipeline, maxAttempts: nat, chunk: Option<Chunk>)

  datatype Error = NoPipeline | NoSource | BadPartition | BadWorkers | BadUniverse

  datatype Result<+T> = Ok(value: T) | Err(error: Error)

  // ----- even chunks -----------------------------------------------------------------------------

  function AtLeastOne(k: nat): (r: nat)
    ensures r >= 1
  {
    if k == 0 then 1 else k
  }

  function MinNat(a: nat, b: nat): nat { if a < b then a else b }

  /** Where chunk `c` of `k` starts in a list of `n`. */
  function ChunkStart(n: nat, k: nat, c: nat): nat
    requires k >= 1
  {
    c * (n / k) + MinNat(c, n % k)
  }

  lemma ChunkSteps(n: nat, k: nat, c: nat)
    requires k >= 1 && c < k
    ensures ChunkStart(n, k, c + 1) == ChunkStart(n, k, c) + n / k + (if c < n % k then 1 else 0)
  {
    var base := n / k;
    assert (c + 1) * base == c * base + base;
  }

  lemma ChunkEnds(n: nat, k: nat)
    requires k >= 1
    ensures ChunkStart(n, k, 0) == 0 && ChunkStart(n, k, k) == n
  {
    assert k * (n / k) + n % k == n;
    assert n % k < k;
  }

  lemma {:induction false} ChunkInRange(n: nat, k: nat, c: nat)
    requires k >= 1 && c <= k
    ensures ChunkStart(n, k, c) <= n
    decreases k - c
  {
    if c == k { ChunkEnds(n, k); } else { ChunkInRange(n, k, c + 1); ChunkSteps(n, k, c); }
  }

  function Flatten<T>(parts: seq<seq<T>>): seq<T> {
    if parts == [] then [] else parts[0] + Flatten(parts[1..])
  }

  lemma {:induction false} FlattenSnoc<T>(parts: seq<seq<T>>, part: seq<T>)
    ensures Flatten(parts + [part]) == Flatten(parts) + part
  {
    if parts == [] {
      assert Flatten([part]) == part + Flatten([]);
      assert parts + [part] == [part] && part + [] == part;
    } else {
      assert (parts + [part])[1..] == parts[1..] + [part];
      FlattenSnoc(parts[1..], part);
      assert parts[0] + (Flatten(parts[1..]) + part) == parts[0] + Flatten(parts[1..]) + part;
    }
  }

  function SliceAt(values: seq<string>, k: nat, c: nat): (r: seq<string>)
    requires k >= 1 && c < k
  {
    ChunkInRange(|values|, k, c);
    ChunkInRange(|values|, k, c + 1);
    ChunkSteps(|values|, k, c);
    values[ChunkStart(|values|, k, c)..ChunkStart(|values|, k, c + 1)]
  }

  /** The chunks: consecutive slices, the first `n % k` one longer than the rest. */
  function Slices(values: seq<string>, k: nat): (r: seq<seq<string>>)
    requires k >= 1
    ensures |r| == k
  {
    seq(k, c requires 0 <= c < k => SliceAt(values, k, c))
  }

  function ChunkLen(n: nat, k: nat, c: nat): nat
    requires k >= 1
  {
    n / k + (if c < n % k then 1 else 0)
  }

  /** Chunk `c` starts where the earlier ones end. */
  lemma SliceIs(values: seq<string>, k: nat, c: nat)
    requires k >= 1 && c < k
    ensures var i, n := ChunkStart(|values|, k, c), ChunkLen(|values|, k, c);
            i + n <= |values| && ChunkStart(|values|, k, c + 1) == i + n && SliceAt(values, k, c) == values[i..i + n]
  {
    ChunkInRange(|values|, k, c + 1);
    ChunkSteps(|values|, k, c);
  }

  method ChunkEvenly(values: seq<string>, k: nat) returns (out: seq<seq<string>>)
    ensures out == Slices(values, AtLeastOne(k))
  {
    hide ChunkStart, SliceAt;
    var kk := AtLeastOne(k);
    if values == [] {
      out := [];
      for c := 0 to kk
        invariant |out| == c && forall i :: 0 <= i < c ==> out[i] == SliceAt(values, kk, i)
      {
        SliceIs(values, kk, c);
        out := out + [[]];
      }
      return;
    }
    var base := |values| / kk;
    var rem := |values| % kk;
    out := [];
    var i := 0;
    ChunkEnds(|values|, kk);
    for c := 0 to kk
      invariant i == ChunkStart(|values|, kk, c)
      invariant |out| == c && forall d :: 0 <= d < c ==> out[d] == SliceAt(values, kk, d)
    {
      var len := base + (if c < rem then 1 else 0);
      SliceIs(values, kk, c);
      out := out + [values[i..i + len]];
      i := i + len;
    }
  }

  lemma {:induction false} SlicesPrefix(values: seq<string>, k: nat, c: nat)
    requires k >= 1 && c <= k
    ensures ChunkStart(|values|, k, c) <= |values|
    ensures Flatten(Slices(values, k)[..c]) == values[..ChunkStart(|values|, k, c)]
  {
    hide ChunkStart, SliceAt, ChunkLen;
    ChunkInRange(|values|, k, c);
    var s := Slices(values, k);
    if c == 0 {
      ChunkEnds(|values|, k);
      assert s[..0] == [];
    } else {
      SlicesPrefix(values, k, c - 1);
      SliceIs(values, k, c - 1);
      assert s[..c] == s[..c - 1] + [s[c - 1]];
      FlattenSnoc(s[..c - 1], s[c - 1]);
      hide Flatten, Slices;
      var i, n := ChunkStart(|values|, k, c - 1), ChunkLen(|values|, k, c - 1);
      assert values[..i] + values[i..i + n] == values[..i + n];
    }
  }

  /** Chunks cover the list in order, and no two differ in length by more than one. */
  lemma SlicesCover(values: seq<string>, k: nat)
    requires k >= 1
    ensures Flatten(Slices(values, k)) == values
    ensures forall c :: 0 <= c < k ==> |Slices(values, k)[c]| == ChunkLen(|values|, k, c)
    ensures forall c, d :: 0 <= c <= d < k ==>
        |Slices(values, k)[d]| <= |Slices(values, k)[c]| <= |Slices(values, k)[d]| + 1
  {
    hide ChunkStart, SliceAt;
    SlicesPrefix(values, k, k);
    ChunkEnds(|values|, k);
    assert Slices(values, k)[..k] == Slices(values, k);
    forall c | 0 <= c < k
      ensures |Slices(values, k)[c]| == ChunkLen(|values|, k, c) {
      SliceIs(values, k, c);
    }
  }

  // ----- the universe --------------------------------------------------------------------------------

  /** The string a record contributes, empty if it has none. */
  function UnitOf(item: Value, field: Option<string>, ser: Value -> string): string {
    match field
    case None => ser(item)
    case Some(f) => match Get(item, f) case Some(VStr(s)) => s case _ => ""
  }

  function UnitList(item: Value, field: Option<string>, ser: Value -> string): seq<string> {
    var s := UnitOf(item, field, ser);
    if s == "" then [] else [s]
  }

  function Universe(items: seq<Value>, field: Option<string>, ser: Value -> string): seq<string> {
    if items == [] then []
    else UnitList(items[0], field, ser) + Universe(items[1..], field, ser)
  }

  lemma {:induction false} UniverseSnoc(items: seq<Value>, n: nat, field: Option<string>, ser: Value -> string)
    requires n < |items|
    ensures Universe(items[..n + 1], field, ser) == Universe(items[..n], field, ser) + UnitList(items[n], field, ser)
    decreases n
  {
    hide UnitList;
    var one := UnitList(items[n], field, ser);
    if n == 0 {
      assert items[..1][1..] == [] && items[..0] == [] && one + [] == one;
    } else {
      var a, b := items[..n + 1], items[..n];
      assert a[1..] == items[1..][..n] && b[1..] == items[1..][..n - 1];
      UniverseSnoc(items[1..], n - 1, field, ser);
      assert a[0] == items[0] && b[0] == items[0] && items[1..][n - 1] == items[n];
    }
  }

  function UniverseOf(src: Source, field: Option<string>, ser: Value -> string): Result<seq<string>> {
    match src.doc
    case Some(VArr(items)) => Ok(Universe(items, field, ser))
    case _ => Err(BadUniverse)
  }

  method UniverseValues(src: Source, field: Option<string>, ser: Value -> string) returns (r: Result<seq<string>>)
    ensures r == UniverseOf(src, field, ser)
  {
    hide UnitOf;
    if src.doc.None? || !src.doc.value.VArr? { return Err(BadUniverse); }
    var items := src.doc.value.items;
    var out := [];
    assert items[..0] == [];
    for n := 0 to |items|
      invariant out == Universe(items[..n], field, ser)
    {
      UniverseSnoc(items, n, field, ser);
      var s := UnitOf(items[n], field, ser);
      if s != "" { out := out + [s]; }
    }
    assert items[..|items|] == items;
    r := Ok(out);
  }

  // ----- the partition expression -----------------------------------------------------------------------

  /** The text before the first `c`, and the text after it if there is one. */
  function SplitFirst(s: string, c: char): (string, Option<string>) {
    if s == "" then ("", None)
    else if s[0] == c then ("", Some(s[1..]))
    else var (a, rest) := SplitFirst(s[1..], c); ([s[0]] + a, rest)
  }

  function SplitLast(s: string, c: char): Option<(string, string)> {
    if s == "" then None
    else if s[|s| - 1] == c then Some((s[..|s| - 1], ""))
    else match SplitLast(s[..|s| - 1], c)
         case None => None
         case Some(p) => Some((p.0, p.1 + [s[|s| - 1]]))
  }

  const PARTITION := "partition("

  datatype Split = Split(source: string, field: Option<string>, workers: nat)

  /** `partition(src.field, N)` or `partition(src, N)`. */
  function ParsePartition(expr: string): Result<Split> {
    var e := Trim(expr);
    if |e| < |PARTITION| || e[..|PARTITION|] != PARTITION then Err(BadPartition)
    else
      var inner := e[|PARTITION|..];
      if inner == "" || inner[|inner| - 1] != ')' then Err(BadPartition)
      else
        var (first, rest) := SplitFirst(inner[..|inner| - 1], ',');
        var a := Trim(first);
        var b := match rest case None => "" case Some(t) => Trim(SplitFirst(t, ',').0);
        match ParseUsize(b)
        case None => Err(BadWorkers)
        case Some(workers) =>
          if workers == 0 then Err(BadWorkers)
          else match SplitLast(a, '.')
               case Some(p) => if p.1 != "" then Ok(Split(p.0, Some(p.1), workers)) else Ok(Split(a, None, workers))
               case None => Ok(Split(a, None, workers))
  }

  // ----- the plan ----------------------------------------------------------------------------------------

  function NameOf(p: Pipeline): string { match p.name case Some(n) => n case None => "unnamed" }

  function FindPipeline(pipes: seq<Pipeline>, name: string): Result<Pipeline> {
    if pipes == [] then Err(NoPipeline)
    else if NameOf(pipes[0]) == name then Ok(pipes[0])
    else FindPipeline(pipes[1..], name)
  }

  function FindSource(sources: seq<Source>, name: string): Result<Source> {
    if sources == [] then Err(NoSource)
    else if sources[0].name == name then Ok(sources[0])
    else FindSource(sources[1..], name)
  }

  function Filtered(ds: Dataset, filter: string): Dataset {
    if ds.filter.None? then ds.(filter := Some(filter)) else ds
  }

  /** The pipeline with the chunk filter on every dataset that has no filter of its own. */
  function Injected(pipe: Pipeline, field: Option<string>): Pipeline {
    match field
    case None => pipe
    case Some(f) =>
      pipe.(datasets := seq(|pipe.datasets|, i requires 0 <= i < |pipe.datasets| =>
          Filtered(pipe.datasets[i], Expr.FilterText(f))))
  }

  function TaskId(stage: nat, pipeline: string): string { Decimal(stage) + "-" + pipeline }

  function SingleTask(pipe: Pipeline, name: string, priority: nat, maxAttempts: nat, stage: nat): PlannedTask {
    PlannedTask(TaskId(stage, name), priority, pipe, maxAttempts, None)
  }

  function FanoutTask(pipe: Pipeline, name: string, c: Chunk, maxAttempts: nat, stage: nat): PlannedTask {
    PlannedTask(TaskId(stage, name + "/x/" + Decimal(c.index)), 0, Injected(pipe, c.field), maxAttempts, Some(c))
  }

  /** One task per non-empty chunk, from chunk `i` on. */
  function FanoutTasks(pipe: Pipeline, name: string, src: string, field: Option<string>, chunks: seq<seq<string>>,
                       i: nat,
                       maxAttempts: nat, stage: nat): seq<PlannedTask>
    requires i <= |chunks|
    decreases |chunks| - i
  {
    if i == |chunks| then []
    else
      (if chunks[i] == [] then []
        else [FanoutTask(pipe, name, Chunk(chunks[i], i, |chunks|, src, field), maxAttempts, stage)])
      + FanoutTasks(pipe, name, src, field, chunks, i + 1, maxAttempts, stage)
  }

  function NodeTasks(cfg: Config, node: GroupNode, maxAttempts: nat, stage: nat,
                     ser: Value -> string): Result<seq<PlannedTask>> {
    var name := if node.Name? then node.name else node.pipeline;
    if node.Name? || node.partition.None? then
      match FindPipeline(cfg.pipelines, name)
      case Err(e) => Err(e)
      case Ok(pipe) =>
        var priority := if node.Node? && node.priority.Some? then node.priority.value else 0;
        Ok([SingleTask(pipe, name, priority, maxAttempts, stage)])
    else
      match ParsePartition(node.partition.value)
      case Err(e) => Err(e)
      case Ok(split) =>
        match FindPipeline(cfg.pipelines, name)
        case Err(e) => Err(e)
        case Ok(pipe) =>
          match FindSource(pipe.sources, split.source)
          case Err(e) => Err(e)
          case Ok(src) =>
            match UniverseOf(src, split.field, ser)
            case Err(e) => Err(e)
            case Ok(universe) =>
              Ok(FanoutTasks(pipe, name, src.name, split.field, Slices(universe, AtLeastOne(split.workers)), 0,
                  maxAttempts, stage))
  }

  function StageTasks(cfg: Config, nodes: seq<GroupNode>, maxAttempts: nat, stage: nat,
                      ser: Value -> string): Result<seq<PlannedTask>>
    decreases |nodes|
  {
    if nodes == [] then Ok([])
    else
      var init := nodes[..|nodes| - 1];
      match StageTasks(cfg, init, maxAttempts, stage, ser)
      case Err(e) => Err(e)
      case Ok(tasks) =>
        match NodeTasks(cfg, nodes[|nodes| - 1], maxAttempts, stage, ser)
        case Err(e) => Err(e)
        case Ok(more) => Ok(tasks + more)
  }

  /** Without an execution section every pipeline is a stage of its own. */
  function StageNodes(cfg: Config): seq<seq<GroupNode>> {
    if cfg.execution == [] then
      seq(|cfg.pipelines|, i requires 0 <= i < |cfg.pipelines| => [Name(NameOf(cfg.pipelines[i]))])
    else cfg.execution
  }

  function PlanStages(cfg: Config, stages: seq<seq<GroupNode>>, maxAttempts: nat,
                      ser: Value -> string): Result<seq<seq<PlannedTask>>>
    decreases |stages|
  {
    if stages == [] then Ok([])
    else
      match PlanStages(cfg, stages[..|stages| - 1], maxAttempts, ser)
      case Err(e) => Err(e)
      case Ok(plan) =>
        match StageTasks(cfg, stages[|stages| - 1], maxAttempts, |stages| - 1, ser)
        case Err(e) => Err(e)
        case Ok(tasks) => Ok(plan + [tasks])
  }

  function PlanOf(cfg: Config, maxAttempts: nat, ser: Value -> string): Result<seq<seq<PlannedTask>>> {
    PlanStages(cfg, StageNodes(cfg), maxAttempts, ser)
  }

  // ----- the planning loops ----------------------------------------------------------------------------------

  method FanOut(pipe: Pipeline, name: string, src: string, field: Option<string>, chunks: seq<seq<string>>,
                maxAttempts: nat, stage: nat) returns (tasks: seq<PlannedTask>)
    ensures tasks == FanoutTasks(pipe, name, src, field, chunks, 0, maxAttempts, stage)
  {
    hide FanoutTask;
    tasks := [];
    for i := 0 to |chunks|
      invariant FanoutTasks(pipe, name, src, field, chunks, 0, maxAttempts, stage)
             == tasks + FanoutTasks(pipe, name, src, field, chunks, i, maxAttempts, stage)
    {
      if chunks[i] == [] { continue; }
      tasks := tasks + [FanoutTask(pipe, name, Chunk(chunks[i], i, |chunks|, src, field), maxAttempts, stage)];
    }
  }

  method PlanNode(cfg: Config, node: GroupNode, maxAttempts: nat, stage: nat, ser: Value -> string)
    returns (r: Result<seq<PlannedTask>>)
    ensures r == NodeTasks(cfg, node, maxAttempts, stage, ser)
  {
    hide ParsePartition, FindPipeline, FindSource, UniverseOf, Slices, FanoutTasks;
    var name := if node.Name? then node.name else node.pipeline;
    if node.Name? || node.partition.None? {
      var pipe := FindPipeline(cfg.pipelines, name);
      if pipe.Err? { return Err(pipe.error); }
      var priority := if node.Node? && node.priority.Some? then node.priority.value else 0;
      return Ok([SingleTask(pipe.value, name, priority, maxAttempts, stage)]);
    }
    var split := ParsePartition(node.partition.value);
    if split.Err? { return Err(split.error); }
    var pipe := FindPipeline(cfg.pipelines, name);
    if pipe.Err? { return Err(pipe.error); }
    var src := FindSource(pipe.value.sources, split.value.source);
    if src.Err? { return Err(src.error); }
    var universe := UniverseValues(src.value, split.value.field, ser);
    if universe.Err? { return Err(universe.error); }
    var chunks := ChunkEvenly(universe.value, split.value.workers);
    var tasks := FanOut(pipe.value, name, src.value.name, split.value.field, chunks, maxAttempts, stage);
    r := Ok(tasks);
  }

  method PlanStage(cfg: Config, nodes: seq<GroupNode>, maxAttempts: nat, stage: nat, ser: Value -> string)
    returns (r: Result<seq<PlannedTask>>)
    ensures r == StageTasks(cfg, nodes, maxAttempts, stage, ser)
  {
    hide NodeTasks;
    var tasks: seq<PlannedTask> := [];
    assert nodes[..0] == [];
    for n := 0 to |nodes|
      invariant StageTasks(cfg, nodes[..n], maxAttempts, stage, ser) == Ok(tasks)
    {
      assert nodes[..n + 1][..n] == nodes[..n];
      var more := PlanNode(cfg, nodes[n], maxAttempts, stage, ser);
      if more.Err? {
        StageFails(cfg, nodes, n, maxAttempts, stage, ser);
        return Err(more.error);
      }
      tasks := tasks + more.value;
    }
    assert nodes[..|nodes|] == nodes;
    r := Ok(tasks);
  }

  /** A node that cannot be planned fails its stage. */
  lemma {:induction false} StageFails(cfg: Config, nodes: seq<GroupNode>, n: nat, maxAttempts: nat, stage: nat,
                                      ser: Value -> string)
    requires n < |nodes| && StageTasks(cfg, nodes[..n], maxAttempts, stage, ser).Ok?
    requires NodeTasks(cfg, nodes[n], maxAttempts, stage, ser).Err?
    ensures StageTasks(cfg, nodes, maxAttempts, stage, ser) ==
        Err(NodeTasks(cfg, nodes[n], maxAttempts, stage, ser).error)
    decreases |nodes|
  {
    hide NodeTasks;
    var init := nodes[..|nodes| - 1];
    if n < |init| {
      assert init[..n] == nodes[..n] && init[n] == nodes[n];
      StageFails(cfg, init, n, maxAttempts, stage, ser);
    } else {
      assert init == nodes[..n];
    }
  }

  method BuildPlan(cfg: Config, maxAttempts: nat, ser: Value -> string) returns (r: Result<seq<seq<PlannedTask>>>)
    ensures r == PlanOf(cfg, maxAttempts, ser)
  {
    hide StageTasks, StageNodes;
    var stages := StageNodes(cfg);
    var plan: seq<seq<PlannedTask>> := [];
    assert stages[..0] == [];
    for si := 0 to |stages|
      invariant PlanStages(cfg, stages[..si], maxAttempts, ser) == Ok(plan)
    {
      assert stages[..si + 1][..si] == stages[..si];
      var tasks := PlanStage(cfg, stages[si], maxAttempts, si, ser);
      if tasks.Err? {
        PlanFails(cfg, stages, si, maxAttempts, ser);
        return Err(tasks.error);
      }
      plan := plan + [tasks.value];
    }
    assert stages[..|stages|] == stages;
    r := Ok(plan);
  }

  lemma {:induction false} PlanFails(cfg: Config, stages: seq<seq<GroupNode>>, n: nat, maxAttempts: nat,
                                     ser: Value -> string)
    requires n < |stages| && PlanStages(cfg, stages[..n], maxAttempts, ser).Ok?
    requires StageTasks(cfg, stages[n], maxAttempts, n, ser).Err?
    ensures PlanStages(cfg, stages, maxAttempts, ser) == Err(StageTasks(cfg, stages[n], maxAttempts, n, ser).error)
    decreases |stages|
  {
    hide StageTasks;
    var init := stages[..|stages| - 1];
    if n < |init| {
      assert init[..n] == stages[..n] && init[n] == stages[n];
      PlanFails(cfg, init, n, maxAttempts, ser);
    } else {
      assert init == stages[..n];
    }
  }
}
