/** What planning guarantees the driver, whatever the config. */
module PlanTheorems {
  import opened Wrappers
  import opened Text
  import opened Walk
  import opened Planning
  import StagedRun
  import StagedTheorems

  // ----- stages never share an id ------------------------------------------------------------------

  lemma StagePrefix(i: nat, a: string, j: nat, b: string)
    requires TaskId(i, a) == TaskId(j, b)
    ensures i == j
  {
    var s, x, y := TaskId(i, a), Decimal(i), Decimal(j);
    hide Decimal;
    assert s[|x|] == '-' && s[|y|] == '-';
    assert forall k :: 0 <= k < |x| ==> s[k] == x[k];
    assert forall k :: 0 <= k < |y| ==> s[k] == y[k];
    assert |x| == |y|;
    assert x == s[..|x|] == y;
    DecimalInjective(i, j);
  }

  ghost predicate OfStage(id: string, stage: nat) { exists rest :: id == TaskId(stage, rest) }

  ghost predicate TasksOfStage(tasks: seq<PlannedTask>, stage: nat) {
    forall t :: 0 <= t < |tasks| ==> OfStage(tasks[t].id, stage)
  }

  lemma {:induction false} FanoutOfStage(pipe: Pipeline, name: string, src: string, field: Option<string>,
                                         chunks: seq<seq<string>>,
                                         i: nat, maxAttempts: nat, stage: nat)
    requires i <= |chunks|
    ensures TasksOfStage(FanoutTasks(pipe, name, src, field, chunks, i, maxAttempts, stage), stage)
    decreases |chunks| - i
  {
    hide Injected, TaskId;
    if i < |chunks| {
      FanoutOfStage(pipe, name, src, field, chunks, i + 1, maxAttempts, stage);
      assert OfStage(FanoutTask(pipe, name, Chunk(chunks[i], i, |chunks|, src, field), maxAttempts, stage).id, stage);
    }
  }

  lemma NodeOfStage(cfg: Config, node: GroupNode, maxAttempts: nat, stage: nat, ser: Value -> string)
    ensures var r := NodeTasks(cfg, node, maxAttempts, stage, ser);
            r.Ok? ==> TasksOfStage(r.value, stage)
  {
    hide ParsePartition, FindPipeline, FindSource, UniverseOf, Slices, FanoutTasks, TaskId;
    var name := if node.Name? then node.name else node.pipeline;
    if node.Name? || node.partition.None? {
      assert OfStage(TaskId(stage, name), stage);
    } else {
      var split := ParsePartition(node.partition.value);
      var pipe := FindPipeline(cfg.pipelines, name);
      if split.Ok? && pipe.Ok? {
        var src := FindSource(pipe.value.sources, split.value.source);
        if src.Ok? {
          var u := UniverseOf(src.value, split.value.field, ser);
          if u.Ok? {
            FanoutOfStage(pipe.value, name, src.value.name, split.value.field,
                          Slices(u.value, AtLeastOne(split.value.workers)), 0, maxAttempts, stage);
          }
        }
      }
    }
  }

  lemma {:induction false} StageOfStage(cfg: Config, nodes: seq<GroupNode>, maxAttempts: nat, stage: nat,
                                        ser: Value -> string)
    ensures var r := StageTasks(cfg, nodes, maxAttempts, stage, ser);
            r.Ok? ==> TasksOfStage(r.value, stage)
    decreases |nodes|
  {
    hide NodeTasks, OfStage;
    if nodes != [] {
      StageOfStage(cfg, nodes[..|nodes| - 1], maxAttempts, stage, ser);
      NodeOfStage(cfg, nodes[|nodes| - 1], maxAttempts, stage, ser);
    }
  }

  lemma {:induction false} PlanOfStages(cfg: Config, stages: seq<seq<GroupNode>>, maxAttempts: nat,
                                        ser: Value -> string)
    ensures var r := PlanStages(cfg, stages, maxAttempts, ser);
            r.Ok? ==> |r.value| == |stages| && forall s :: 0 <= s < |stages| ==> TasksOfStage(r.value[s], s)
    decreases |stages|
  {
    hide StageTasks, TasksOfStage;
    if stages != [] {
      PlanOfStages(cfg, stages[..|stages| - 1], maxAttempts, ser);
      StageOfStage(cfg, stages[|stages| - 1], maxAttempts, |stages| - 1, ser);
    }
  }

  /** A planned task as it is submitted, its job rendered as the payload. */
  function Spec(t: PlannedTask, render: PlannedTask -> string): StagedRun.TaskSpec {
    StagedRun.TaskSpec(t.id, t.priority, render(t))
  }

  function Submitted(tasks: seq<PlannedTask>, render: PlannedTask -> string): seq<StagedRun.TaskSpec> {
    seq(|tasks|, i requires 0 <= i < |tasks| => Spec(tasks[i], render))
  }

  function ToPlan(stages: seq<seq<PlannedTask>>, render: PlannedTask -> string): StagedRun.Plan {
    seq(|stages|, s requires 0 <= s < |stages| => Submitted(stages[s], render))
  }

  lemma InStageOf(tasks: seq<PlannedTask>, render: PlannedTask -> string, stage: nat, id: string)
    requires TasksOfStage(tasks, stage) && StagedRun.InStage(Submitted(tasks, render), id)
    ensures OfStage(id, stage)
  {
    hide OfStage;
  }

  /** Whatever the config, no id is planned in two stages: the driver's stages
      are disjoint, which is what its barrier needs. */
  lemma PlansAreStaged(cfg: Config, maxAttempts: nat, ser: Value -> string, render: PlannedTask -> string)
    requires PlanOf(cfg, maxAttempts, ser).Ok?
    ensures StagedRun.StagesDisjoint(ToPlan(PlanOf(cfg, maxAttempts, ser).value, render))
  {
    hide PlanStages, StageNodes, TasksOfStage, Submitted, StagedRun.InStage;
    PlanOfStages(cfg, StageNodes(cfg), maxAttempts, ser);
    var stages := PlanOf(cfg, maxAttempts, ser).value;
    var plan := ToPlan(stages, render);
    forall i, j, id | 0 <= i < j < |plan| && StagedRun.InStage(plan[i], id)
      ensures !StagedRun.InStage(plan[j], id) {
      if StagedRun.InStage(plan[j], id) {
        InStageOf(stages[i], render, i, id);
        InStageOf(stages[j], render, j, id);
        var a :| id == TaskId(i, a);
        var b :| id == TaskId(j, b);
        StagePrefix(i, a, j, b);
      }
    }
  }

  /** The stage barrier for every config: when a worker starts on a task of one
      stage, every task planned for an earlier stage is finished. */
  lemma ConfigBarrier(cfg: Config, m: nat, ser: Value -> string, render: PlannedTask -> string, slots: nat,
                      plan: StagedRun.Plan, actions: seq<StagedRun.Action>, s: StagedRun.Sys, a: StagedRun.Action,
                      id: string, i: nat, j: nat)
    requires PlanOf(cfg, m, ser).Ok? && plan == ToPlan(PlanOf(cfg, m, ser).value, render)
    requires i < j < |plan| && StagedRun.InStage(plan[j], id)
    requires StagedTheorems.Possible(plan, m, StagedRun.InitSys(slots), actions)
    requires s == StagedTheorems.RunSys(plan, m, StagedRun.InitSys(slots), actions)
    requires StagedRun.Enabled(plan, s, a) && StagedTheorems.PutsToWork(plan, m, s, a, id)
    ensures StagedRun.StageFinished(plan, i, s.kernel)
  {
    hide PlanOf, ToPlan;
    PlansAreStaged(cfg, m, ser, render);
    StagedTheorems.StageBarrier(plan, m, slots, actions, s, a, id, j, i);
  }

  // ----- the partition expression reads back ---------------------------------------------------------

  function PartitionText(source: string, field: Option<string>, workers: nat): string {
    PARTITION + source + (match field case None => "" case Some(f) => "." + f) + ", " + Decimal(workers) + ")"
  }

  lemma {:induction false} SplitFirstAt(a: string, b: string, c: char)
    requires c !in a
    ensures SplitFirst(a + ([c] + b), c) == (a, Some(b))
  {
    if a == "" {
      assert a + ([c] + b) == [c] + b && ([c] + b)[1..] == b;
    } else {
      SplitFirstAt(a[1..], b, c);
      assert (a + ([c] + b))[1..] == a[1..] + ([c] + b);
      assert a == [a[0]] + a[1..];
    }
  }

  lemma {:induction false} SplitFirstMisses(a: string, c: char)
    requires c !in a
    ensures SplitFirst(a, c) == (a, None)
  {
    if a != "" {
      SplitFirstMisses(a[1..], c);
      assert a == [a[0]] + a[1..];
    }
  }

  lemma {:induction false} SplitLastAt(a: string, b: string, c: char)
    requires c !in b
    ensures SplitLast(a + ([c] + b), c) == Some((a, b))
    decreases |b|
  {
    var s := a + ([c] + b);
    if b == "" {
      assert s[..|s| - 1] == a;
    } else {
      var b' := b[..|b| - 1];
      assert s[..|s| - 1] == a + ([c] + b') && s[|s| - 1] == b[|b| - 1];
      SplitLastAt(a, b', c);
      assert b == b' + [b[|b| - 1]];
    }
  }

  lemma {:induction false} SplitLastMisses(a: string, c: char)
    requires c !in a
    ensures SplitLast(a, c) == None
  {
    if a != "" { SplitLastMisses(a[..|a| - 1], c); }
  }

  predicate Tidy(s: string) { s != "" && ',' !in s && !IsWs(s[0]) && !IsWs(s[|s| - 1]) }

  lemma CountText(workers: nat)
    requires 1 <= workers <= USIZE_MAX
    ensures SplitFirst(" " + Decimal(workers), ',').0 == " " + Decimal(workers)
    ensures Trim(" " + Decimal(workers)) == Decimal(workers)
    ensures ParseUsize(Decimal(workers)) == Some(workers)
  {
    var d := Decimal(workers);
    var s := " " + d;
    hide Decimal;
    forall i | 0 <= i < |s| ensures s[i] != ',' { if i > 0 { assert s[i] == d[i - 1] && IsDigit(d[i - 1]); } }
    SplitFirstMisses(s, ',');
    assert IsDigit(d[0]) && IsDigit(d[|d| - 1]);
    assert s[1..] == d;
    assert SkipWs(s) == SkipWs(d) == d;
    assert TrimEnd(d) == d;
    ParsesUsize(workers);
  }

  lemma PartitionParts(a: string, workers: nat)
    requires Tidy(a) && 1 <= workers <= USIZE_MAX
    ensures var text := PARTITION + a + ", " + Decimal(workers) + ")";
            && Trim(text) == text && text[..|PARTITION|] == PARTITION
            && text[|PARTITION|..|text| - 1] == a + ("," + (" " + Decimal(workers)))
  {
    hide Decimal;
    TrimIsIdentity(PARTITION + a + ", " + Decimal(workers) + ")");
  }

  lemma PartitionReads(a: string, workers: nat)
    requires Tidy(a) && 1 <= workers <= USIZE_MAX
    ensures ParsePartition(PARTITION + a + ", " + Decimal(workers) + ")")
         == (match SplitLast(a, '.')
             case Some(p) => if p.1 != "" then Ok(Split(p.0, Some(p.1), workers)) else Ok(Split(a, None, workers))
             case None => Ok(Split(a, None, workers)))
  {
    hide Decimal, Trim, SplitFirst, SplitLast, ParseUsize;
    var d := Decimal(workers);
    var text := PARTITION + a + ", " + d + ")";
    PartitionParts(a, workers);
    SplitFirstAt(a, " " + d, ',');
    CountText(workers);
    TidyTrim(a);
    var inner := text[|PARTITION|..];
    assert inner[..|inner| - 1] == a + ("," + (" " + d));
  }

  lemma TidyTrim(a: string)
    requires Tidy(a)
    ensures Trim(a) == a
  {
    TrimIsIdentity(a);
  }

  /** A partition expression reads back to its source, field and worker count:
      a field of the last name, or the whole source. */
  lemma PartitionRoundTrip(source: string, field: Option<string>, workers: nat)
    requires 1 <= workers <= USIZE_MAX
    requires field.None? ==> Tidy(source) && '.' !in source
    requires field.Some? ==> field.value != "" && Tidy(source + "." + field.value) && '.' !in field.value
    ensures ParsePartition(PartitionText(source, field, workers)) == Ok(Split(source, field, workers))
  {
    hide Decimal, ParsePartition, SplitLast, Tidy;
    match field
    case None =>
      assert PARTITION + source + "" == PARTITION + source;
      SplitLastMisses(source, '.');
      PartitionReads(source, workers);
    case Some(f) =>
      var a := source + "." + f;
      assert PARTITION + source + ("." + f) == PARTITION + a;
      assert source + (['.'] + f) == a;
      SplitLastAt(source, f, '.');
      PartitionReads(a, workers);
  }
}
