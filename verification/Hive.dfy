/** Writing a table under one directory per tuple of partition values: the rows
    are only moved, each into exactly one file. */
module Hive {
  import opened Wrappers
  import opened Evaluation
  import opened Columns

  // ----- row groups of one file -----------------------------------------------------------------

  const CHUNK: nat := 8192

  function Cut(c: Col, start: nat, end: nat): Col
    requires start <= end <= |c.cells|
  {
    c.(cells := c.cells[start..end])
  }

  function CutAll(cols: seq<Col>, start: nat, end: nat): seq<Col>
    requires start <= end && forall i :: 0 <= i < |cols| ==> end <= |cols[i].cells|
  {
    seq(|cols|, i requires 0 <= i < |cols| => Cut(cols[i], start, end))
  }

  predicate Even(cols: seq<Col>) {
    forall i, j :: 0 <= i < |cols| && 0 <= j < |cols| ==> |cols[i].cells| == |cols[j].cells|
  }

  function RowCount(cols: seq<Col>): nat { if cols == [] then 0 else |cols[0].cells| }

  /** The cells of column `i` over all row groups. */
  function Rejoined(groups: seq<seq<Col>>, i: nat): seq<Cell>
    requires forall g :: 0 <= g < |groups| ==> i < |groups[g]|
  {
    if groups == [] then [] else groups[0][i].cells + Rejoined(groups[1..], i)
  }

  lemma {:induction false} RejoinedSnoc(groups: seq<seq<Col>>, last: seq<Col>, i: nat)
    requires i < |last| && forall g :: 0 <= g < |groups| ==> i < |groups[g]|
    ensures Rejoined(groups + [last], i) == Rejoined(groups, i) + last[i].cells
  {
    if groups == [] {
      assert groups + [last] == [last];
      assert Rejoined([last][1..], i) == [];
    } else {
      assert (groups + [last])[1..] == groups[1..] + [last];
      RejoinedSnoc(groups[1..], last, i);
      assert groups[0][i].cells + (Rejoined(groups[1..], i) + last[i].cells) ==
          groups[0][i].cells + Rejoined(groups[1..], i) + last[i].cells;
    }
  }

  lemma CutFacts(cols: seq<Col>, start: nat, end: nat)
    requires start <= end <= RowCount(cols) && Even(cols)
    ensures var batch := CutAll(cols, start, end);
            && |batch| == |cols| && Even(batch) && RowCount(batch) == end - start
            && forall i :: 0 <= i < |cols| ==>
                |cols[i].cells| == RowCount(cols) && batch[i].cells == cols[i].cells[start..end]
  {}

  /** The chunk loop: the row groups of every column, end to end, are the column,
      each group holds the same rows of all columns, and every group but the
      last is full. */
  method WriteRowGroups(cols: seq<Col>) returns (groups: seq<seq<Col>>)
    requires Even(cols)
    ensures forall g :: 0 <= g < |groups| ==>
        |groups[g]| == |cols| && Even(groups[g]) && 0 < RowCount(groups[g]) <= 8192
    ensures forall g :: 0 <= g < |groups| - 1 ==> RowCount(groups[g]) == 8192
    ensures forall i :: 0 <= i < |cols| ==> Rejoined(groups, i) == cols[i].cells
  {
    var rows := RowCount(cols);
    groups := [];
    var start := 0;
    while start < rows
      invariant start <= rows
      invariant forall g :: 0 <= g < |groups| ==>
          |groups[g]| == |cols| && Even(groups[g]) && 0 < RowCount(groups[g]) <= CHUNK
      invariant forall g :: 0 <= g < |groups| && (g < |groups| - 1 || start < rows) ==> RowCount(groups[g]) == CHUNK
      invariant forall i :: 0 <= i < |cols| ==> Rejoined(groups, i) == cols[i].cells[..start]
    {
      var end := if start + CHUNK < rows then start + CHUNK else rows;
      var batch := CutAll(cols, start, end);
      CutFacts(cols, start, end);
      hide CutAll, Even, Rejoined, RowCount;
      forall i | 0 <= i < |cols| ensures Rejoined(groups + [batch], i) == cols[i].cells[..end] {
        RejoinedSnoc(groups, batch, i);
        assert cols[i].cells[..start] + cols[i].cells[start..end] == cols[i].cells[..end];
      }
      groups := groups + [batch];
      start := end;
    }
  }

  // ----- grouping ---------------------------------------------------------------------------------

  const DEFAULT_PARTITION := "__HIVE_DEFAULT_PARTITION__"

  type RowKey = seq<string>

  datatype Group = Group(key: RowKey, rows: seq<nat>)

  /** The group with the key, if there is one. */
  function Position(groups: seq<Group>, key: RowKey): (p: nat)
    ensures p <= |groups| && (p < |groups| ==> groups[p].key == key) && forall q :: 0 <= q < p ==> groups[q].key != key
  {
    if groups == [] || groups[0].key == key then 0 else 1 + Position(groups[1..], key)
  }

  function AddRow(groups: seq<Group>, key: RowKey, i: nat): seq<Group> {
    var p := Position(groups, key);
    if p < |groups| then groups[p := Group(key, groups[p].rows + [i])] else groups + [Group(key, [i])]
  }

  function GroupRows(keys: seq<RowKey>): seq<Group> {
    if keys == [] then [] else AddRow(GroupRows(keys[..|keys| - 1]), keys[|keys| - 1], |keys| - 1)
  }

  /** Groups of the first `n` rows: distinct keys, rows ascending and in range,
      each of its group's key, and every row in a group. */
  ghost predicate GroupsOk(groups: seq<Group>, keys: seq<RowKey>) {
    && (forall g, h :: 0 <= g < h < |groups| ==> groups[g].key != groups[h].key)
    && (forall g :: 0 <= g < |groups| ==> GroupOk(groups[g], keys))
    && (forall i :: 0 <= i < |keys| ==> InSomeGroup(groups, i))
  }

  ghost predicate InSomeGroup(groups: seq<Group>, i: nat) { exists g :: 0 <= g < |groups| && i in groups[g].rows }

  predicate GroupOk(g: Group, keys: seq<RowKey>) {
    && g.rows != []
    && (forall p, q :: 0 <= p < q < |g.rows| ==> g.rows[p] < g.rows[q])
    && (forall p :: 0 <= p < |g.rows| ==> g.rows[p] < |keys| && keys[g.rows[p]] == g.key)
  }

  lemma GroupGrows(g: Group, keys: seq<RowKey>, key: RowKey)
    requires GroupOk(g, keys)
    ensures GroupOk(g, keys + [key])
    ensures g.key == key ==> GroupOk(Group(key, g.rows + [|keys|]), keys + [key])
  {}

  lemma AddRowKeeps(groups: seq<Group>, keys: seq<RowKey>, key: RowKey)
    requires GroupsOk(groups, keys)
    ensures GroupsOk(AddRow(groups, key, |keys|), keys + [key])
  {
    hide GroupOk;
    var n := |keys|;
    var p := Position(groups, key);
    var r := AddRow(groups, key, n);
    forall g | 0 <= g < |groups| ensures GroupOk(groups[g], keys + [key]) && (g == p ==> GroupOk(r[g], keys + [key])) {
      GroupGrows(groups[g], keys, key);
    }
    if p == |groups| { NewGroup(keys, key); }
    forall i | 0 <= i < n + 1 ensures InSomeGroup(r, i) {
      if i < n {
        assert InSomeGroup(groups, i);
        var g :| 0 <= g < |groups| && i in groups[g].rows;
        assert i in r[g].rows;
      } else {
        assert n in r[p].rows;
      }
    }
  }

  lemma NewGroup(keys: seq<RowKey>, key: RowKey)
    ensures GroupOk(Group(key, [|keys|]), keys + [key])
  {}

  lemma {:induction false} GroupingIsOk(keys: seq<RowKey>)
    ensures GroupsOk(GroupRows(keys), keys)
  {
    hide GroupOk;
    if keys != [] {
      var init := keys[..|keys| - 1];
      GroupingIsOk(init);
      hide GroupsOk;
      AddRowKeeps(GroupRows(init), init, keys[|keys| - 1]);
      assert keys == init + [keys[|keys| - 1]];
    }
  }

  /** Row `i` is entry `p` of group `g`. */
  predicate PlacedAt(gs: seq<Group>, i: nat, g: nat, p: nat) { g < |gs| && p < |gs[g].rows| && gs[g].rows[p] == i }

  /** Every row is in exactly one group, at exactly one place. */
  lemma RowHasOnePlace(keys: seq<RowKey>, i: nat)
    requires i < |keys|
    ensures exists g, p :: PlacedAt(GroupRows(keys), i, g, p)
    ensures forall g, p, h, q :: PlacedAt(GroupRows(keys), i, g, p) && PlacedAt(GroupRows(keys), i, h, q) ==>
        g == h && p == q
  {
    GroupingIsOk(keys);
    var gs := GroupRows(keys);
    hide GroupRows;
    assert InSomeGroup(gs, i);
    var g :| 0 <= g < |gs| && i in gs[g].rows;
    var p :| 0 <= p < |gs[g].rows| && gs[g].rows[p] == i;
    assert PlacedAt(gs, i, g, p);
    forall g, p, h, q | PlacedAt(gs, i, g, p) && PlacedAt(gs, i, h, q) ensures g == h && p == q {
      SamePlace(gs, keys, i, g, p, h, q);
    }
  }

  lemma SamePlace(gs: seq<Group>, keys: seq<RowKey>, i: nat, g: nat, p: nat, h: nat, q: nat)
    requires GroupsOk(gs, keys) && i < |keys| && PlacedAt(gs, i, g, p) && PlacedAt(gs, i, h, q)
    ensures g == h && p == q
  {
    assert GroupOk(gs[g], keys) && GroupOk(gs[h], keys);
    assert gs[g].key == keys[i] == gs[h].key;
  }

  // ----- writing ------------------------------------------------------------------------------------

  function ColumnIndex(cols: seq<Col>, name: string): (r: Option<nat>)
    ensures r.Some? ==> r.value < |cols| && cols[r.value].name == name
  {
    if cols == [] then None
    else if cols[0].name == name then Some(0)
    else match ColumnIndex(cols[1..], name) case None => None case Some(i) => Some(i + 1)
  }

  function Indices(cols: seq<Col>, names: seq<string>): (r: Option<seq<nat>>)
    ensures r.Some? ==> |r.value| == |names| && forall j :: 0 <= j < |names| ==> r.value[j] < |cols|
  {
    if names == [] then Some([])
    else match ColumnIndex(cols, names[0])
         case None => None
         case Some(i) => match Indices(cols, names[1..]) case None => None case Some(more) => Some([i] + more)
  }

  function PartValue(c: Col, i: nat): string {
    match StrOf(CellAt(c.cells, i)) case Some(s) => s case None => DEFAULT_PARTITION
  }

  function KeyOf(cols: seq<Col>, parts: seq<nat>, i: nat): RowKey
    requires forall j :: 0 <= j < |parts| ==> parts[j] < |cols|
  {
    seq(|parts|, j requires 0 <= j < |parts| => PartValue(cols[parts[j]], i))
  }

  function Keys(cols: seq<Col>, parts: seq<nat>, n: nat): seq<RowKey>
    requires forall j :: 0 <= j < |parts| ==> parts[j] < |cols|
  {
    seq(n, i requires 0 <= i < n => KeyOf(cols, parts, i))
  }

  function DirOf(base: string, names: seq<string>, key: RowKey): string
    requires |names| == |key|
    decreases |key|
  {
    if key == [] then base
    else DirOf(base, names[..|names| - 1], key[..|key| - 1]) + "/" + names[|names| - 1] + "=" + key[|key| - 1]
  }

  /** The columns that go into the data files, restricted to a group's rows. */
  function DataCols(cols: seq<Col>, parts: seq<nat>, from: nat, rows: seq<nat>): seq<Col>
    requires from <= |cols|
    decreases |cols| - from
  {
    if from == |cols| then []
    else
      (if from in parts then [] else [cols[from].(cells := Gathered(cols[from].cells, rows))])
      + DataCols(cols, parts, from + 1, rows)
  }

  // One data file of a partitioned write: the group it is for, and its columns.
  datatype Part = Part(dir: string, group: Group, cols: seq<Col>)

  type Files = map<string, Part>

  function PathOf(dir: string): string { dir + "/data.parquet" }

  /** Creating a data file replaces what was at its path; without columns none is created. */
  function Store(files: Files, p: Part): Files {
    if p.cols == [] then files else files[PathOf(p.dir) := p]
  }

  function PartOf(base: string, cols: seq<Col>, names: seq<string>, parts: seq<nat>, g: Group): Part
    requires |g.key| == |names|
  {
    Part(DirOf(base, names, g.key), g, DataCols(cols, parts, 0, g.rows))
  }

  /** The files after the groups were written one after another. */
  function Stored(base: string, cols: seq<Col>, names: seq<string>, parts: seq<nat>, groups: seq<Group>): Files
    requires forall g :: 0 <= g < |groups| ==> |groups[g].key| == |names|
  {
    if groups == [] then map[]
    else Store(Stored(base, cols, names, parts, groups[..|groups| - 1]),
        PartOf(base, cols, names, parts, groups[|groups| - 1]))
  }

  lemma {:induction false} KeysFit(keys: seq<RowKey>, n: nat)
    requires forall i :: 0 <= i < |keys| ==> |keys[i]| == n
    ensures forall g :: 0 <= g < |GroupRows(keys)| ==> |GroupRows(keys)[g].key| == n
  {
    if keys != [] { KeysFit(keys[..|keys| - 1], n); }
  }

  function AllRows(n: nat): seq<nat> { seq(n, i => i) }

  /** The files a partitioned write of a table leaves: one whole file without
      partition columns, and an error if one of them is missing. */
  function Partitioned(base: string, cols: seq<Col>, names: seq<string>): Option<Files> {
    var n := RowCount(cols);
    if n == 0 then Some(map[])
    else if names == [] then Some(map[base := Part(base, Group([], AllRows(n)), cols)])
    else match Indices(cols, names)
         case None => None
         case Some(parts) =>
           var keys := Keys(cols, parts, n);
           KeysFit(keys, |names|);
           Some(Stored(base, cols, names, parts, GroupRows(keys)))
  }

  function Views(columns: seq<Column>): (r: seq<Col>)
    reads columns
    ensures |r| == |columns| && forall i :: 0 <= i < |r| ==> r[i] == columns[i].View()
  {
    seq(|columns|, i requires 0 <= i < |columns| reads columns => columns[i].View())
  }

  lemma ViewsSnoc(data: seq<Column>, c: Column)
    ensures Views(data + [c]) == Views(data) + [c.View()]
  {
    hide Column.Cells;
  }

  lemma {:induction false} IndicesFound(cols: seq<Col>, names: seq<string>, found: seq<nat>)
    requires |found| == |names| && forall j :: 0 <= j < |names| ==> ColumnIndex(cols, names[j]) == Some(found[j])
    ensures Indices(cols, names) == Some(found)
  {
    hide ColumnIndex;
    if names != [] {
      IndicesFound(cols, names[1..], found[1..]);
      assert found == [found[0]] + found[1..];
    }
  }

  lemma {:induction false} IndexMissing(cols: seq<Col>, names: seq<string>, j: nat)
    requires j < |names| && ColumnIndex(cols, names[j]) == None
    ensures Indices(cols, names) == None
  {
    hide ColumnIndex;
    if j > 0 { IndexMissing(cols, names[1..], j - 1); }
  }

  method FindColumn(columns: seq<Column>, name: string) returns (r: Option<nat>)
    ensures r == ColumnIndex(Views(columns), name)
  {
    ghost var cols := Views(columns);
    for i := 0 to |columns|
      invariant ColumnIndex(cols, name)
             == match ColumnIndex(cols[i..], name) case None => None case Some(k) => Some(i + k)
    {
      assert cols[i..][0] == cols[i] && cols[i..][1..] == cols[i + 1..];
      if columns[i].name == name { return Some(i); }
    }
    r := None;
  }

  method FindColumns(columns: seq<Column>, names: seq<string>) returns (r: Option<seq<nat>>)
    ensures r == Indices(Views(columns), names)
  {
    hide ColumnIndex, Views;
    var found: seq<nat> := [];
    for j := 0 to |names|
      invariant |found| == j && forall k :: 0 <= k < j ==> ColumnIndex(Views(columns), names[k]) == Some(found[k])
    {
      var i := FindColumn(columns, names[j]);
      if i.None? {
        IndexMissing(Views(columns), names, j);
        return None;
      }
      found := found + [i.value];
    }
    IndicesFound(Views(columns), names, found);
    r := Some(found);
  }

  method RowKeyAt(columns: seq<Column>, parts: seq<nat>, i: nat) returns (key: RowKey)
    requires forall j :: 0 <= j < |parts| ==> parts[j] < |columns|
    ensures key == KeyOf(Views(columns), parts, i)
  {
    key := [];
    for j := 0 to |parts|
      invariant |key| == j && forall k :: 0 <= k < j ==> key[k] == PartValue(Views(columns)[parts[k]], i)
    {
      var s := columns[parts[j]].CellStr(i);
      key := key + [if s.Some? then s.value else DEFAULT_PARTITION];
    }
  }

  /** The grouping loop. */
  method GroupByKey(columns: seq<Column>, parts: seq<nat>, n: nat) returns (groups: seq<Group>)
    requires forall j :: 0 <= j < |parts| ==> parts[j] < |columns|
    ensures groups == GroupRows(Keys(Views(columns), parts, n))
  {
    hide KeyOf, AddRow;
    groups := [];
    ghost var keys := Keys(Views(columns), parts, n);
    for i := 0 to n
      invariant groups == GroupRows(keys[..i])
    {
      var key := RowKeyAt(columns, parts, i);
      assert keys[..i + 1][..i] == keys[..i] && keys[..i + 1][i] == key;
      groups := PushRow(groups, key, i);
    }
    assert keys[..n] == keys;
  }

  method PushRow(groups: seq<Group>, key: RowKey, i: nat) returns (r: seq<Group>)
    ensures r == AddRow(groups, key, i)
  {
    var p := 0;
    while p < |groups| && groups[p].key != key
      invariant p <= |groups| && forall q :: 0 <= q < p ==> groups[q].key != key
    {
      p := p + 1;
    }
    assert p == Position(groups, key);
    r := if p < |groups| then groups[p := Group(key, groups[p].rows + [i])] else groups + [Group(key, [i])];
  }

  method DirectoryOf(base: string, names: seq<string>, key: RowKey) returns (dir: string)
    requires |names| == |key|
    ensures dir == DirOf(base, names, key)
  {
    dir := base;
    for j := 0 to |key|
      invariant dir == DirOf(base, names[..j], key[..j])
    {
      assert names[..j + 1][..j] == names[..j] && key[..j + 1][..j] == key[..j];
      dir := dir + "/" + names[j] + "=" + key[j];
    }
    assert names[..|key|] == names && key[..|key|] == key;
  }

  /** Column `i` of the table joins the data columns unless it is a partition column. */
  method GatherOne(env: Env, data: seq<Column>, c: Column, rows: seq<nat>) returns (all: seq<Column>)
    ensures |all| == |data| + 1 && all[..|data|] == data && fresh(all[|data|])
    ensures Views(all) == Views(data) + [c.View().(cells := Gathered(c.Cells(), rows))]
  {
    hide Column.Cells, Gathered, Views;
    var g := c.Gather(env, rows);
    ViewsSnoc(data, g);
    all := data + [g];
  }

  lemma DataColsStep(cols: seq<Col>, parts: seq<nat>, i: nat, rows: seq<nat>, done: seq<Col>, now: seq<Col>)
    requires i < |cols|
    requires now == if i in parts then done else done + [cols[i].(cells := Gathered(cols[i].cells, rows))]
    ensures done + DataCols(cols, parts, i, rows) == now + DataCols(cols, parts, i + 1, rows)
  {
    hide Gathered;
  }

  method GatherData(env: Env, columns: seq<Column>, parts: seq<nat>, rows: seq<nat>) returns (data: seq<Column>)
    ensures Views(data) == DataCols(Views(columns), parts, 0, rows)
  {
    hide Column.Cells, Gathered, DataCols, Views;
    data := [];
    ghost var cols := Views(columns);
    NoViews();
    for i := 0 to |columns|
      invariant forall k :: 0 <= k < |data| ==> fresh(data[k])
      invariant Views(columns) == cols
      invariant DataCols(cols, parts, 0, rows) == Views(data) + DataCols(cols, parts, i, rows)
    {
      ghost var done := Views(data);
      if i !in parts { data := GatherOne(env, data, columns[i], rows); }
      DataColsStep(cols, parts, i, rows, done, Views(data));
    }
    NoMoreData(cols, parts, rows);
  }

  lemma NoViews()
    ensures Views([]) == []
  {}

  lemma NoMoreData(cols: seq<Col>, parts: seq<nat>, rows: seq<nat>)
    ensures DataCols(cols, parts, |cols|, rows) == []
  {}

  method WritePartitioned(env: Env, base: string, columns: seq<Column>, names: seq<string>) returns (r: Option<Files>)
    ensures r == Partitioned(base, Views(columns), names)
  {
    hide Column.Cells, DataCols, GroupRows, DirOf, Keys;
    var cols := Views(columns);
    var n := if columns == [] then 0 else columns[0].Len();
    if n == 0 { return Some(map[]); }
    if names == [] { return Some(map[base := Part(base, Group([], AllRows(n)), cols)]); }
    var found := FindColumns(columns, names);
    if found.None? { return None; }
    var parts := found.value;
    var groups := GroupByKey(columns, parts, n);
    KeysLong(cols, parts, n);
    KeysFit(Keys(cols, parts, n), |names|);
    var files: Files := map[];
    for g := 0 to |groups|
      invariant Views(columns) == cols
      invariant files == Stored(base, cols, names, parts, groups[..g])
    {
      assert groups[..g + 1][..g] == groups[..g];
      var dir := DirectoryOf(base, names, groups[g].key);
      var data := GatherData(env, columns, parts, groups[g].rows);
      files := Store(files, Part(dir, groups[g], Views(data)));
    }
    assert groups[..|groups|] == groups;
    r := Some(files);
  }

  lemma KeysLong(cols: seq<Col>, parts: seq<nat>, n: nat)
    requires forall j :: 0 <= j < |parts| ==> parts[j] < |cols|
    ensures |Keys(cols, parts, n)| == n && forall i :: 0 <= i < n ==> |Keys(cols, parts, n)[i]| == |parts|
  {}
}
