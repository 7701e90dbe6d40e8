/** What the tasks of a fan-out write: the rows of the pipeline, or copies of
    them where the filter does not split. */
module FanoutRows {
  import opened Wrappers
  import opened Text
  import opened Expr
  import opened Walk
  import opened Evaluation
  import opened Fanout
  import opened FanoutTheorems
  import CompilerTheorems
  import P = Planning
  import S = Scan

  // ----- datasets that every task scans alike ---------------------------------------------------------------

  function Copies(n: nat, ctxs: seq<Ctx>): (r: seq<Ctx>)
    ensures |r| == n * |ctxs|
  {
    if n == 0 then [] else
      assert (n - 1) * |ctxs| + |ctxs| == n * |ctxs|;
      ctxs + Copies(n - 1, ctxs)
  }

  /** How many chunks get a task. */
  function Filled(chunks: seq<seq<string>>): nat {
    if chunks == [] then 0 else (if chunks[0] == [] then 0 else 1) + Filled(chunks[1..])
  }

  lemma CopiesConserveIff(n: nat, ctxs: seq<Ctx>)
    ensures Copies(n, ctxs) == ctxs <==> n == 1 || ctxs == []
  {
    if ctxs != [] && n != 1 { CopyLength(n, |ctxs|); }
    if n == 1 { assert Copies(0, ctxs) == [] && ctxs + [] == ctxs; }
    if ctxs == [] { assert |Copies(n, ctxs)| == 0; }
  }

  lemma CopyLength(n: nat, m: nat)
    requires n != 1 && m > 0
    ensures n * m != m
  {
    if n > 1 { assert n * m >= 2 * m by { assert (n - 2) * m >= 0; } }
  }

  /** The dataset's filter does not read the task. */
  predicate TaskBlind(ds: S.Dataset) { ds.filter.None? || TaskFree(ds.filter.value) }

  lemma {:induction false} KeptIgnoresTask(w: S.World, ds: S.Dataset, ctxs: seq<Ctx>)
    requires TaskBlind(ds)
    ensures Bared(S.KeptOf(w, ds, ctxs)) == S.KeptOf(w, ds, Bared(ctxs))
  {
    hide Eval, TaskFree, Bare;
    if ctxs != [] {
      KeptIgnoresTask(w, ds, ctxs[1..]);
      if ds.filter.Some? { EvalIgnoresTask(w.env, ds.filter.value, ctxs[0]); }
      assert S.Keeps(w, ds, Bare(ctxs[0])) == S.Keeps(w, ds, ctxs[0]);
      hide S.Keeps;
      BaredCons(ctxs[0], S.KeptOf(w, ds, ctxs[1..]));
      var all := Bared(ctxs);
      assert all[0] == Bare(ctxs[0]) && all[1..] == Bared(ctxs[1..]);
      if S.Keeps(w, ds, ctxs[0]) {
        assert Bared(S.KeptOf(w, ds, ctxs)) == [Bare(ctxs[0])] + S.KeptOf(w, ds, Bared(ctxs[1..]));
      } else {
        assert S.KeptOf(w, ds, ctxs) == S.KeptOf(w, ds, ctxs[1..]);
      }
    }
  }

  lemma {:induction false} KeptUnder(w: S.World, task: Value, ds: S.Dataset, ctxs: seq<Ctx>)
    ensures S.KeptOf(Under(w, task), ds, ctxs) == S.KeptOf(w, ds, ctxs)
  {
    hide Eval;
    if ctxs != [] { KeptUnder(w, task, ds, ctxs[1..]); }
  }

  /** A filter that does not read the task keeps the same rows in every task. */
  lemma EveryTaskKeeps(w: S.World, task: Value, d: P.Dataset, rs: seq<Record>)
    requires TaskBlind(Compiled(d)) && Blind(w, d.rules)
    ensures Whole(Under(w, task), d, rs) == Whole(w, d, rs)
  {
    hide TaskBlind, Blind, S.KeptOf, S.RowCtxs, AllOffers, Bared, Under;
    var ds := Compiled(d);
    var own := AllOffers(Under(w, task), ds, rs);
    RowsAreKept(Under(w, task), ds, rs);
    RowsAreKept(w, ds, rs);
    KeptUnder(w, task, ds, own);
    KeptIgnoresTask(w, ds, own);
    KeptIgnoresTask(w, ds, AllOffers(w, ds, rs));
    AllOffersIgnoreTask(w, task, ds, rs);
  }

  lemma TaskRepeats(w: S.World, pipe: P.Pipeline, name: string, chunk: P.Chunk, m: nat, stage: nat, job: Value,
                    d: nat, own: P.Dataset, rs: seq<Record>)
    requires d < |pipe.datasets| && own == P.Injected(pipe, chunk.field).datasets[d]
    requires TaskBlind(Compiled(own)) && Blind(w, own.rules)
    ensures TaskRows(w, P.FanoutTask(pipe, name, chunk, m, stage), job, d, rs) == Whole(w, own, rs)
  {
    hide TaskBlind, Blind, Whole, TaskInfo, Under;
    EveryTaskKeeps(w, TaskInfo(P.FanoutTask(pipe, name, chunk, m, stage), job), own, rs);
  }

  /** Where the filter the tasks run with does not read the task, every task
      makes all its rows. */
  lemma {:induction false} Replicates(w: S.World, pipe: P.Pipeline, name: string, src: string, field: Option<string>,
                                      chunks: seq<seq<string>>, i: nat, m: nat, stage: nat, job: Value, d: nat,
                                      own: P.Dataset, rs: seq<Record>)
    requires d < |pipe.datasets| && own == P.Injected(pipe, field).datasets[d] && i <= |chunks|
    requires TaskBlind(Compiled(own)) && Blind(w, own.rules)
    ensures Gathered(w, P.FanoutTasks(pipe, name, src, field, chunks, i, m, stage), job, d, rs)
         == Copies(Filled(chunks[i..]), Whole(w, own, rs))
    decreases |chunks| - i
  {
    hide TaskBlind, Blind, Whole, TaskRows, P.Injected, P.FanoutTask;
    if i < |chunks| {
      Replicates(w, pipe, name, src, field, chunks, i + 1, m, stage, job, d, own, rs);
      assert chunks[i..][1..] == chunks[i + 1..];
      var rest := P.FanoutTasks(pipe, name, src, field, chunks, i + 1, m, stage);
      var ts := P.FanoutTasks(pipe, name, src, field, chunks, i, m, stage);
      if chunks[i] == [] {
        assert ts == [] + rest == rest;
      } else {
        var chunk := P.Chunk(chunks[i], i, |chunks|, src, field);
        assert ts[0] == P.FanoutTask(pipe, name, chunk, m, stage) && ts[1..] == rest;
        TaskRepeats(w, pipe, name, chunk, m, stage, job, d, own, rs);
      }
    }
  }

  /** A partition without a field, or a dataset whose own filter does not read
      the task, is not split but repeated: each task makes every row, so the
      rows are conserved exactly when there is one task or nothing to keep. */
  lemma UnsplitIsRepeated(w: S.World, pipe: P.Pipeline, name: string, src: string, field: Option<string>,
                          chunks: seq<seq<string>>, m: nat, stage: nat, job: Value, d: nat, rs: seq<Record>)
    requires d < |pipe.datasets| && Blind(w, pipe.datasets[d].rules)
    requires field.None? || pipe.datasets[d].filter.Some?
    requires TaskBlind(Compiled(pipe.datasets[d]))
    ensures var whole := Whole(w, pipe.datasets[d], rs);
            var out := Gathered(w, P.FanoutTasks(pipe, name, src, field, chunks, 0, m, stage), job, d, rs);
            && out == Copies(Filled(chunks), whole)
            && (out == whole <==> Filled(chunks) == 1 || whole == [])
  {
    hide TaskBlind, Blind, Whole, Gathered, P.FanoutTasks, Copies, Filled;
    assert P.Injected(pipe, field).datasets[d] == pipe.datasets[d];
    Replicates(w, pipe, name, src, field, chunks, 0, m, stage, job, d, pipe.datasets[d], rs);
    assert chunks[0..] == chunks;
    CopiesConserveIff(Filled(chunks), Whole(w, pipe.datasets[d], rs));
  }

  /** A field with a blank in it, which `partition(src.a b, n)` can name, is no
      field of the filter: every task makes all rows that have a true `a`. */
  lemma BlankFieldIsRepeated(w: S.World, pipe: P.Pipeline, name: string, src: string, a: string, b: string,
                             chunks: seq<seq<string>>, m: nat, stage: nat, job: Value, d: nat, rs: seq<Record>)
    requires Splits(pipe, d) && Blind(w, pipe.datasets[d].rules)
    requires SegOk(Key(a)) && b != "" && !IsWs(b[0]) && b[0] != '.' && b[0] != '[' && !EatIn(b).0
    ensures var all := Whole(w, pipe.datasets[d], rs);
            var having := S.KeptOf(w, Compiled(pipe.datasets[d]).(filter := Some(Path([Key(a)]))), all);
            var out := Gathered(w, P.FanoutTasks(pipe, name, src, Some(a + " " + b), chunks, 0, m, stage), job, d, rs);
            out == Copies(Filled(chunks), having)
  {
    var ds, field := pipe.datasets[d], a + " " + b;
    var own := P.Filtered(ds, FilterText(field));
    assert own == P.Injected(pipe, Some(field)).datasets[d];
    CompilerTheorems.BlankFieldCompiles(a, b);
    hide SegOk, EatIn, FilterText, Blind, Whole, Gathered, P.FanoutTasks, P.Injected, Copies, Filled, Compile;
    assert Compiled(own) == Compiled(ds).(filter := Some(Path([Key(a)])));
    Replicates(w, pipe, name, src, Some(field), chunks, 0, m, stage, job, d, own, rs);
    assert chunks[0..] == chunks;
    KeptOfWhole(w, ds, own, rs);
  }

  /** Filtering while scanning is filtering what the scan without a filter keeps. */
  lemma KeptOfWhole(w: S.World, d: P.Dataset, own: P.Dataset, rs: seq<Record>)
    requires d.filter.None? && own == d.(filter := own.filter) && TaskBlind(Compiled(own))
    ensures Whole(w, own, rs) == S.KeptOf(w, Compiled(own), Whole(w, d, rs))
  {
    hide TaskBlind, S.KeptOf, S.RowCtxs, AllOffers, Bared, Compile;
    var ds, os := Compiled(d), Compiled(own);
    RowsAreKept(w, ds, rs);
    RowsAreKept(w, os, rs);
    SameOffers(w, os, ds, rs);
    NoFilterKeepsAll(w, ds, AllOffers(w, ds, rs));
    KeptIgnoresTask(w, os, AllOffers(w, os, rs));
  }

  // ----- rows -----------------------------------------------------------------------------------------------

  /** The dataset's fields and join key do not read the task. */
  predicate FieldsTaskFree(ds: S.Dataset) {
    && (forall c :: 0 <= c < |S.Local(ds)| ==> TaskFree(S.Local(ds)[c].node))
    && (ds.leftKey.Some? ==> TaskFree(ds.leftKey.value))
  }

  predicate SameFields(a: S.Dataset, b: S.Dataset) {
    a.rowRoot == b.rowRoot && a.fields == b.fields && a.leftKey == b.leftKey
  }

  lemma ColumnIgnoresTask(w: S.World, task: Value, n: Node, kind: ColKind, ctxs: seq<Ctx>)
    requires TaskFree(n)
    ensures S.ColumnOf(Under(w, task), n, kind, ctxs) == S.ColumnOf(w, n, kind, Bared(ctxs))
  {
    hide Eval, TaskFree, Bare, ToCell;
    BaredAt(ctxs);
    forall i | 0 <= i < |ctxs| ensures Eval(w.env, n, Bared(ctxs)[i]) == Eval(w.env, n, ctxs[i]) {
      EvalIgnoresTask(w.env, n, ctxs[i]);
    }
  }

  lemma RawIgnoresTask(w: S.World, task: Value, ctxs: seq<Ctx>)
    ensures |Bared(ctxs)| == |ctxs|
    ensures forall i :: 0 <= i < |ctxs| ==> Bared(ctxs)[i].raw == ctxs[i].raw
    ensures forall i :: 0 <= i < |ctxs| ==> S.RawElem(Under(w, task), ctxs[i]) == S.RawElem(w, Bared(ctxs)[i])
  {
    BaredAt(ctxs);
  }

  /** A task's rows are those of its contexts, read without the task. */
  lemma AddedIgnoresTask(w: S.World, task: Value, a: S.Dataset, b: S.Dataset, ctxs: seq<Ctx>)
    requires FieldsTaskFree(b) && SameFields(a, b)
    ensures S.Added(Under(w, task), a, ctxs) == S.Added(w, b, Bared(ctxs))
  {
    hide S.ColumnOf, S.RawElem, TaskFree, Bared, Under;
    var x, y := S.Added(Under(w, task), a, ctxs), S.Added(w, b, Bared(ctxs));
    forall c | 0 <= c < |S.Local(b)| ensures x.cols[c] == y.cols[c] {
      ColumnIgnoresTask(w, task, S.Local(b)[c].node, S.Local(b)[c].kind, ctxs);
    }
    assert x.cols == y.cols;
    if b.leftKey.Some? { ColumnIgnoresTask(w, task, b.leftKey.value, StrKind, ctxs); }
    RawIgnoresTask(w, task, ctxs);
    assert x.rawRows == y.rawRows && x.rawElems == y.rawElems;
  }

  /** What the task's scan appends for its dataset `d` to `start`. */
  function TaskOutput(w: S.World, t: P.PlannedTask, job: Value, d: nat, rs: seq<Record>, start: S.Rows): S.Rows {
    if d < |t.pipe.datasets| then S.After(Under(w, TaskInfo(t, job)), Compiled(t.pipe.datasets[d]), start, rs)
      else start
  }

  function Outputs(w: S.World, ts: seq<P.PlannedTask>, job: Value, d: nat, rs: seq<Record>, start: S.Rows): S.Rows {
    if ts == [] then start else Outputs(w, ts[1..], job, d, rs, TaskOutput(w, ts[0], job, d, rs, start))
  }

  ghost predicate AllAlike(ts: seq<P.PlannedTask>, d: nat, ds: S.Dataset) {
    forall i :: 0 <= i < |ts| ==> d < |ts[i].pipe.datasets| && SameFields(Compiled(ts[i].pipe.datasets[d]), ds)
  }

  lemma TaskOutputIs(w: S.World, t: P.PlannedTask, job: Value, d: nat, rs: seq<Record>, ds: S.Dataset, start: S.Rows)
    requires d < |t.pipe.datasets| && SameFields(Compiled(t.pipe.datasets[d]), ds) && FieldsTaskFree(ds)
    ensures TaskOutput(w, t, job, d, rs, start) == S.Plus(start, S.Added(w, ds, TaskRows(w, t, job, d, rs)))
  {
    hide FieldsTaskFree, S.RowCtxs, S.Added, S.Plus, TaskInfo, Compiled, Bared, SameFields;
    var own := Compiled(t.pipe.datasets[d]);
    var info := TaskInfo(t, job);
    AddedIgnoresTask(w, info, own, ds, S.RowCtxs(Under(w, info), own, rs));
  }

  lemma {:induction false} OutputsAre(w: S.World, ts: seq<P.PlannedTask>, job: Value, d: nat, rs: seq<Record>,
                                      ds: S.Dataset, start: S.Rows)
    requires AllAlike(ts, d, ds) && FieldsTaskFree(ds) && |start.cols| == |S.Local(ds)|
    ensures Outputs(w, ts, job, d, rs, start) == S.Plus(start, S.Added(w, ds, Gathered(w, ts, job, d, rs)))
    decreases |ts|
  {
    hide FieldsTaskFree, SameFields, Compiled, S.Local, S.Added, S.Plus, TaskOutput, TaskRows;
    if ts == [] {
      S.PlusNothing(w, ds, start);
    } else {
      TaskOutputIs(w, ts[0], job, d, rs, ds, start);
      var next := TaskOutput(w, ts[0], job, d, rs, start);
      OutputsAre(w, ts[1..], job, d, rs, ds, next);
      S.PlusTwice(w, ds, start, TaskRows(w, ts[0], job, d, rs), Gathered(w, ts[1..], job, d, rs));
    }
  }

  lemma {:induction false} TasksAlike(pipe: P.Pipeline, name: string, src: string, field: Option<string>,
                                      chunks: seq<seq<string>>, i: nat, m: nat, stage: nat, d: nat)
    requires d < |pipe.datasets| && i <= |chunks|
    ensures AllAlike(P.FanoutTasks(pipe, name, src, field, chunks, i, m, stage), d, Compiled(pipe.datasets[d]))
    decreases |chunks| - i
  {
    if i < |chunks| {
      TasksAlike(pipe, name, src, field, chunks, i + 1, m, stage, d);
      var t := P.FanoutTask(pipe, name, P.Chunk(chunks[i], i, |chunks|, src, field), m, stage);
      assert SameFields(Compiled(t.pipe.datasets[d]), Compiled(pipe.datasets[d]));
      hide P.FanoutTask, Compiled, SameFields;
    }
  }

  /** Whenever the contexts of a fan-out are those of the unsplit dataset, what
      its tasks append one after the other, cell by cell, join keys and raw
      rows included, is what one scan of the unsplit dataset appends. */
  lemma RowsFollowContexts(w: S.World, pipe: P.Pipeline, name: string, src: string, field: Option<string>,
                           chunks: seq<seq<string>>, m: nat, stage: nat, job: Value, d: nat, rs: seq<Record>,
                               start: S.Rows)
    requires d < |pipe.datasets| && FieldsTaskFree(Compiled(pipe.datasets[d]))
    requires |start.cols| == |S.Local(Compiled(pipe.datasets[d]))|
    requires Gathered(w, P.FanoutTasks(pipe, name, src, field, chunks, 0, m, stage), job, d, rs)
          == Whole(w, pipe.datasets[d], rs)
    ensures Outputs(w, P.FanoutTasks(pipe, name, src, field, chunks, 0, m, stage), job, d, rs, start)
         == S.After(w, Compiled(pipe.datasets[d]), start, rs)
  {
    hide FieldsTaskFree, S.Local, S.Added, S.Plus, P.FanoutTasks, Gathered, Outputs, AllAlike, S.RowCtxs, Bared,
        Compiled;
    var ds := Compiled(pipe.datasets[d]);
    TasksAlike(pipe, name, src, field, chunks, 0, m, stage, d);
    OutputsAre(w, P.FanoutTasks(pipe, name, src, field, chunks, 0, m, stage), job, d, rs, ds, start);
    PlainAdded(w, ds, S.RowCtxs(w, ds, rs));
  }

  lemma PlainAdded(w: S.World, ds: S.Dataset, ctxs: seq<Ctx>)
    requires FieldsTaskFree(ds)
    ensures S.Added(w, ds, Bared(ctxs)) == S.Added(w, ds, ctxs)
  {
    hide FieldsTaskFree, S.Added, Bared;
    AddedIgnoresTask(w, VNull, ds, ds, ctxs);
    SameWorld(w, VNull, ds, ctxs);
  }

  lemma SameWorld(w: S.World, task: Value, ds: S.Dataset, ctxs: seq<Ctx>)
    ensures S.Added(Under(w, task), ds, ctxs) == S.Added(w, ds, ctxs)
  {
    hide Eval, ToCell;
    var x, y := S.Added(Under(w, task), ds, ctxs), S.Added(w, ds, ctxs);
    forall c | 0 <= c < |S.Local(ds)| ensures x.cols[c] == y.cols[c] {}
    assert x.cols == y.cols;
    assert x.keys == y.keys && x.rawRows == y.rawRows && x.rawElems == y.rawElems;
  }
}
