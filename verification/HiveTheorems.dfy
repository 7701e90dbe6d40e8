/** A partitioned write conserves the table exactly when no two of its keys
    share a directory and some column goes into the files. */
module HiveTheorems {
  import opened Wrappers
  import opened Evaluation
  import opened Columns
  import opened Hive

  // ----- conservation ------------------------------------------------------------------------------

  predicate InRange(rows: seq<nat>, n: nat) { forall p :: 0 <= p < |rows| ==> rows[p] < n }

  /** Gathered cells written back to their rows. */
  function Scatter(into: seq<Cell>, rows: seq<nat>, cells: seq<Cell>): (r: seq<Cell>)
    requires |rows| == |cells| && InRange(rows, |into|)
    ensures |r| == |into|
    decreases |rows|
  {
    if rows == [] then into else Scatter(into[rows[0] := cells[0]], rows[1..], cells[1..])
  }

  predicate FitsGroups(groups: seq<Group>, parts: seq<seq<Cell>>, n: nat) {
    |parts| == |groups| && forall g :: 0 <= g < |groups| ==>
        |parts[g]| == |groups[g].rows| && InRange(groups[g].rows, n)
  }

  function ScatterAll(into: seq<Cell>, groups: seq<Group>, parts: seq<seq<Cell>>): (r: seq<Cell>)
    requires FitsGroups(groups, parts, |into|)
    ensures |r| == |into|
    decreases |groups|
  {
    if groups == [] then into else ScatterAll(Scatter(into, groups[0].rows, parts[0]), groups[1..], parts[1..])
  }

  /** Writing a column's own cells back changes a place at most to what the column has there. */
  lemma {:induction false} ScatterOwn(into: seq<Cell>, rows: seq<nat>, cells: seq<Cell>)
    requires |into| == |cells| && InRange(rows, |cells|)
    ensures var r := Scatter(into, rows, Gathered(cells, rows));
            forall i :: 0 <= i < |cells| ==> r[i] == if i in rows then cells[i] else into[i]
    decreases |rows|
  {
    if rows != [] {
      assert Gathered(cells, rows)[1..] == Gathered(cells, rows[1..]);
      ScatterOwn(into[rows[0] := cells[rows[0]]], rows[1..], cells);
      assert rows == [rows[0]] + rows[1..];
    }
  }

  function GatheredAll(cells: seq<Cell>, groups: seq<Group>): (r: seq<seq<Cell>>)
    ensures |r| == |groups| && forall g :: 0 <= g < |groups| ==> r[g] == Gathered(cells, groups[g].rows)
  {
    seq(|groups|, g requires 0 <= g < |groups| => Gathered(cells, groups[g].rows))
  }

  lemma {:induction false} ScatterAllOwn(into: seq<Cell>, groups: seq<Group>, cells: seq<Cell>)
    requires |into| == |cells| && forall g :: 0 <= g < |groups| ==> InRange(groups[g].rows, |cells|)
    ensures var r := ScatterAll(into, groups, GatheredAll(cells, groups));
            forall i :: 0 <= i < |cells| ==> r[i] == if InSomeGroup(groups, i) then cells[i] else into[i]
    decreases |groups|
  {
    hide Scatter, Gathered;
    if groups != [] {
      var first := Scatter(into, groups[0].rows, Gathered(cells, groups[0].rows));
      ScatterOwn(into, groups[0].rows, cells);
      assert GatheredAll(cells, groups)[1..] == GatheredAll(cells, groups[1..]);
      ScatterAllOwn(first, groups[1..], cells);
      forall i | 0 <= i < |cells|
        ensures InSomeGroup(groups, i) <==> i in groups[0].rows || InSomeGroup(groups[1..], i) {
        GroupSplit(groups, i);
      }
    }
  }

  lemma GroupSplit(groups: seq<Group>, i: nat)
    requires groups != []
    ensures InSomeGroup(groups, i) <==> i in groups[0].rows || InSomeGroup(groups[1..], i)
  {
    if InSomeGroup(groups, i) && i !in groups[0].rows {
      var g :| 0 <= g < |groups| && i in groups[g].rows;
      assert i in groups[1..][g - 1].rows;
    }
    if InSomeGroup(groups[1..], i) {
      var g :| 0 <= g < |groups[1..]| && i in groups[1..][g].rows;
      assert i in groups[g + 1].rows;
    }
  }

  lemma GroupsInRange(keys: seq<RowKey>)
    ensures forall g :: 0 <= g < |GroupRows(keys)| ==> InRange(GroupRows(keys)[g].rows, |keys|)
  {
    GroupingIsOk(keys);
    var groups := GroupRows(keys);
    hide GroupRows;
    forall g | 0 <= g < |groups| ensures InRange(groups[g].rows, |keys|) { assert GroupOk(groups[g], keys); }
  }

  /** The cells of a column, split by any grouping of the rows and put back at
      their rows over anything, are the column. */
  lemma GatherScatter(keys: seq<RowKey>, cells: seq<Cell>, into: seq<Cell>)
    requires |cells| == |keys| == |into|
    ensures FitsGroups(GroupRows(keys), GatheredAll(cells, GroupRows(keys)), |into|)
    ensures ScatterAll(into, GroupRows(keys), GatheredAll(cells, GroupRows(keys))) == cells
  {
    hide GroupRows, ScatterAll;
    GroupsInRange(keys);
    GroupingIsOk(keys);
    var groups := GroupRows(keys);
    ScatterAllOwn(into, groups, cells);
    var r := ScatterAll(into, groups, GatheredAll(cells, groups));
    forall i | 0 <= i < |cells| ensures r[i] == cells[i] { assert InSomeGroup(groups, i); }
  }

  /** Where column `c` is among the data columns. */
  function DataIndex(parts: seq<nat>, from: nat, c: nat): nat
    requires from <= c
    decreases c - from
  {
    if from == c then 0 else (if from in parts then 0 else 1) + DataIndex(parts, from + 1, c)
  }

  lemma {:induction false} DataColumnAt(cols: seq<Col>, parts: seq<nat>, from: nat, c: nat, rows: seq<nat>)
    requires from <= c < |cols| && c !in parts
    ensures var k := DataIndex(parts, from, c);
            var data := DataCols(cols, parts, from, rows);
            k < |data| && data[k] == cols[c].(cells := Gathered(cols[c].cells, rows))
    decreases c - from
  {
    hide Gathered;
    if from < c { DataColumnAt(cols, parts, from + 1, c, rows); }
  }

  // ----- which rows survive -----------------------------------------------------------------------

  /** Some column goes into the data files. */
  predicate HasData(cols: seq<Col>, parts: seq<nat>) { exists c :: 0 <= c < |cols| && c !in parts }

  lemma {:induction false} DataColsEmpty(cols: seq<Col>, parts: seq<nat>, from: nat, rows: seq<nat>)
    requires from <= |cols|
    ensures DataCols(cols, parts, from, rows) == [] <==> forall c :: from <= c < |cols| ==> c in parts
    decreases |cols| - from
  {
    hide Gathered;
    if from < |cols| { DataColsEmpty(cols, parts, from + 1, rows); }
  }

  ghost predicate KeysMatch(names: seq<string>, groups: seq<Group>) {
    forall g :: 0 <= g < |groups| ==> |groups[g].key| == |names|
  }

  /** The path of group `g`'s file. */
  function GroupPath(base: string, names: seq<string>, g: Group): string
    requires |g.key| == |names|
  {
    PathOf(DirOf(base, names, g.key))
  }

  /** The last group that writes to the path. */
  function LastWriter(base: string, names: seq<string>, groups: seq<Group>, path: string): (r: Option<nat>)
    requires KeysMatch(names, groups)
    ensures r.Some? ==> r.value < |groups| && GroupPath(base, names, groups[r.value]) == path
    ensures forall h :: 0 <= h < |groups| && GroupPath(base, names, groups[h]) == path ==> r.Some? && h <= r.value
    decreases |groups|
  {
    var n := |groups| - 1;
    if groups == [] then None
    else if GroupPath(base, names, groups[n]) == path then Some(n)
    else
      var r := LastWriter(base, names, groups[..n], path);
      assert forall h :: 0 <= h < n ==> groups[h] == groups[..n][h];
      r
  }

  /** A path holds the file of the last group that writes to it, if any does. */
  lemma {:induction false} StoredIs(base: string, cols: seq<Col>, names: seq<string>, parts: seq<nat>,
                                    groups: seq<Group>,
                                    path: string)
    requires KeysMatch(names, groups) && HasData(cols, parts)
    ensures var files, w := Stored(base, cols, names, parts, groups), LastWriter(base, names, groups, path);
            && (path in files <==> w.Some?)
            && (w.Some? ==> files[path] == PartOf(base, cols, names, parts, groups[w.value]))
    decreases |groups|
  {
    hide DataCols, DirOf, PathOf, HasData;
    if groups != [] {
      var n := |groups| - 1;
      StoredIs(base, cols, names, parts, groups[..n], path);
      DataColsEmpty(cols, parts, 0, groups[n].rows);
      SomeColumn(cols, parts);
    }
  }

  lemma SomeColumn(cols: seq<Col>, parts: seq<nat>)
    ensures HasData(cols, parts) <==> !(forall c :: 0 <= c < |cols| ==> c in parts)
  {}

  lemma {:induction false} NothingStored(base: string, cols: seq<Col>, names: seq<string>, parts: seq<nat>,
                                         groups: seq<Group>)
    requires KeysMatch(names, groups) && !HasData(cols, parts)
    ensures Stored(base, cols, names, parts, groups) == map[]
    decreases |groups|
  {
    hide DataCols, DirOf, HasData;
    if groups != [] {
      var n := |groups| - 1;
      NothingStored(base, cols, names, parts, groups[..n]);
      DataColsEmpty(cols, parts, 0, groups[n].rows);
      SomeColumn(cols, parts);
    }
  }

  ghost predicate RowStored(files: Files, i: nat) { exists path :: path in files && i in files[path].group.rows }

  lemma SamePath(a: string, b: string)
    requires PathOf(a) == PathOf(b)
    ensures a == b
  {
    assert PathOf(a)[..|a|] == a && PathOf(b)[..|b|] == b;
  }

  /** A row is left exactly when its group was the last to write its path. */
  lemma RowSurvivesIff(base: string, cols: seq<Col>, names: seq<string>, parts: seq<nat>, keys: seq<RowKey>, i: nat,
                       g: nat)
    requires KeysMatch(names, GroupRows(keys)) && HasData(cols, parts)
    requires i < |keys| && g < |GroupRows(keys)| && i in GroupRows(keys)[g].rows
    ensures RowStored(Stored(base, cols, names, parts, GroupRows(keys)), i)
       <==> LastWriter(base, names, GroupRows(keys), GroupPath(base, names, GroupRows(keys)[g])) == Some(g)
  {
    hide GroupRows, Stored, HasData, DataCols, GroupPath, LastWriter;
    var groups := GroupRows(keys);
    var files, path := Stored(base, cols, names, parts, groups), GroupPath(base, names, groups[g]);
    StoredIs(base, cols, names, parts, groups, path);
    if RowStored(files, i) {
      var other :| other in files && i in files[other].group.rows;
      StoredIs(base, cols, names, parts, groups, other);
      var h := LastWriter(base, names, groups, other).value;
      OneGroupOnly(keys, i, g, h);
    }
  }

  lemma OneGroupOnly(keys: seq<RowKey>, i: nat, g: nat, h: nat)
    requires i < |keys| && g < |GroupRows(keys)| && h < |GroupRows(keys)|
    requires i in GroupRows(keys)[g].rows && i in GroupRows(keys)[h].rows
    ensures g == h && GroupRows(keys)[g].key == keys[i]
  {
    GroupingIsOk(keys);
    var groups := GroupRows(keys);
    hide GroupRows;
    var p :| 0 <= p < |groups[g].rows| && groups[g].rows[p] == i;
    var q :| 0 <= q < |groups[h].rows| && groups[h].rows[q] == i;
    SamePlace(groups, keys, i, g, p, h, q);
    assert GroupOk(groups[g], keys);
  }

  lemma GroupOfRow(keys: seq<RowKey>, i: nat) returns (g: nat)
    requires i < |keys|
    ensures g < |GroupRows(keys)| && i in GroupRows(keys)[g].rows && GroupRows(keys)[g].key == keys[i]
  {
    GroupingIsOk(keys);
    hide GroupRows;
    assert InSomeGroup(GroupRows(keys), i);
    g :| 0 <= g < |GroupRows(keys)| && i in GroupRows(keys)[g].rows;
    OneGroupOnly(keys, i, g, g);
  }

  /** Rows with different keys have different directories. */
  ghost predicate KeysApart(base: string, names: seq<string>, keys: seq<RowKey>)
    requires forall i :: 0 <= i < |keys| ==> |keys[i]| == |names|
  {
    forall i, j :: 0 <= i < |keys| && 0 <= j < |keys| && DirOf(base, names, keys[i]) == DirOf(base, names, keys[j]) ==>
      keys[i] == keys[j]
  }

  lemma ApartSurvive(base: string, cols: seq<Col>, names: seq<string>, parts: seq<nat>, keys: seq<RowKey>, i: nat)
    requires forall j :: 0 <= j < |keys| ==> |keys[j]| == |names|
    requires KeysMatch(names, GroupRows(keys)) && HasData(cols, parts) && KeysApart(base, names, keys) && i < |keys|
    ensures RowStored(Stored(base, cols, names, parts, GroupRows(keys)), i)
    ensures exists g :: 0 <= g < |GroupRows(keys)| && i in GroupRows(keys)[g].rows
  {
    hide GroupRows, Stored, HasData, LastWriter, DirOf;
    var g := GroupOfRow(keys, i);
    LastIsOwn(base, names, keys, g);
    RowSurvivesIff(base, cols, names, parts, keys, i, g);
  }

  /** With keys apart, a group is the only one to write its path. */
  lemma LastIsOwn(base: string, names: seq<string>, keys: seq<RowKey>, g: nat)
    requires forall j :: 0 <= j < |keys| ==> |keys[j]| == |names|
    requires KeysMatch(names, GroupRows(keys)) && KeysApart(base, names, keys) && g < |GroupRows(keys)|
    ensures LastWriter(base, names, GroupRows(keys), GroupPath(base, names, GroupRows(keys)[g])) == Some(g)
  {
    GroupingIsOk(keys);
    hide GroupRows, LastWriter, DirOf;
    var groups := GroupRows(keys);
    var w := LastWriter(base, names, groups, GroupPath(base, names, groups[g]));
    assert w.Some? && g <= w.value;
    var h := w.value;
    SamePath(DirOf(base, names, groups[g].key), DirOf(base, names, groups[h].key));
    assert GroupOk(groups[g], keys) && GroupOk(groups[h], keys);
    assert keys[groups[g].rows[0]] == groups[g].key && keys[groups[h].rows[0]] == groups[h].key;
  }

  lemma SurviveApart(base: string, cols: seq<Col>, names: seq<string>, parts: seq<nat>, keys: seq<RowKey>)
    requires forall j :: 0 <= j < |keys| ==> |keys[j]| == |names|
    requires KeysMatch(names, GroupRows(keys)) && HasData(cols, parts)
    requires forall i :: 0 <= i < |keys| ==> RowStored(Stored(base, cols, names, parts, GroupRows(keys)), i)
    ensures KeysApart(base, names, keys)
  {
    hide GroupRows, Stored, HasData, LastWriter, DirOf;
    forall i, j | 0 <= i < |keys| && 0 <= j < |keys| && DirOf(base, names, keys[i]) == DirOf(base, names, keys[j])
      ensures keys[i] == keys[j] {
      var g := GroupOfRow(keys, i);
      var h := GroupOfRow(keys, j);
      RowSurvivesIff(base, cols, names, parts, keys, i, g);
      RowSurvivesIff(base, cols, names, parts, keys, j, h);
    }
  }

  lemma WriteFacts(base: string, cols: seq<Col>, names: seq<string>) returns (parts: seq<nat>, keys: seq<RowKey>)
    requires names != [] && RowCount(cols) > 0 && Indices(cols, names).Some?
    ensures parts == Indices(cols, names).value && keys == Keys(cols, parts, RowCount(cols))
    ensures |keys| == RowCount(cols) && (forall j :: 0 <= j < |keys| ==> |keys[j]| == |names|)
    ensures KeysMatch(names, GroupRows(keys))
    ensures Partitioned(base, cols, names) == Some(Stored(base, cols, names, parts, GroupRows(keys)))
  {
    hide GroupRows, Stored, Keys, Indices;
    parts := Indices(cols, names).value;
    keys := Keys(cols, parts, RowCount(cols));
    KeysLong(cols, parts, RowCount(cols));
    KeysFit(keys, |names|);
  }

  /** The rows a partitioned write leaves on disk are all of them exactly when
      some column is not a partition column and no two rows with different
      partition values share a directory. */
  lemma AllRowsSurviveIff(base: string, cols: seq<Col>, names: seq<string>, parts: seq<nat>, keys: seq<RowKey>)
    requires names != [] && RowCount(cols) > 0 && Indices(cols, names) == Some(parts)
    requires keys == Keys(cols, parts, RowCount(cols)) && forall j :: 0 <= j < |keys| ==> |keys[j]| == |names|
    ensures Partitioned(base, cols, names).Some?
    ensures (forall i :: 0 <= i < RowCount(cols) ==> RowStored(Partitioned(base, cols, names).value, i))
       <==> HasData(cols, parts) && KeysApart(base, names, keys)
  {
    hide GroupRows, Stored, HasData, KeysApart, Keys, Indices, Partitioned;
    var ps, ks := WriteFacts(base, cols, names);
    var files := Stored(base, cols, names, parts, GroupRows(keys));
    if HasData(cols, parts) {
      if KeysApart(base, names, keys) {
        forall i | 0 <= i < |keys| ensures RowStored(files, i) { ApartSurvive(base, cols, names, parts, keys, i); }
      } else if forall i :: 0 <= i < |keys| ==> RowStored(files, i) {
        SurviveApart(base, cols, names, parts, keys);
      }
    } else {
      NothingStored(base, cols, names, parts, GroupRows(keys));
      assert !RowStored(files, 0);
    }
  }

  // ----- what the files hold ------------------------------------------------------------------------

  /** The cells of data column `k` in the file of each group. */
  function FileCells(files: Files, base: string, names: seq<string>, groups: seq<Group>, k: nat): seq<seq<Cell>>
    requires KeysMatch(names, groups)
    requires forall g :: 0 <= g < |groups| ==>
               var path := GroupPath(base, names, groups[g]); path in files && k < |files[path].cols|
  {
    seq(|groups|, g requires 0 <= g < |groups| => files[GroupPath(base, names, groups[g])].cols[k].cells)
  }

  /** The files hold column `c`: read back from the groups' paths and put at
      their rows, over anything, its cells are the column. */
  ghost predicate Conserved(base: string, cols: seq<Col>, names: seq<string>, files: Files, groups: seq<Group>,
                            k: nat, c: nat)
    requires c < |cols| && KeysMatch(names, groups)
  {
    && (forall g :: 0 <= g < |groups| ==>
          var path := GroupPath(base, names, groups[g]);
          path in files && k < |files[path].cols| && files[path].cols[k].name == cols[c].name)
    && FitsGroups(groups, FileCells(files, base, names, groups, k), RowCount(cols))
    && forall into :: |into| == RowCount(cols) ==>
         ScatterAll(into, groups, FileCells(files, base, names, groups, k)) == cols[c].cells
  }

  lemma FileOfGroup(base: string, cols: seq<Col>, names: seq<string>, parts: seq<nat>, keys: seq<RowKey>, g: nat,
                    c: nat)
    requires forall j :: 0 <= j < |keys| ==> |keys[j]| == |names|
    requires KeysMatch(names, GroupRows(keys)) && KeysApart(base, names, keys) && g < |GroupRows(keys)|
    requires c < |cols| && c !in parts
    ensures var files := Stored(base, cols, names, parts, GroupRows(keys));
            var path := GroupPath(base, names, GroupRows(keys)[g]);
            var k := DataIndex(parts, 0, c);
            && path in files && k < |files[path].cols|
            && files[path].cols[k] == cols[c].(cells := Gathered(cols[c].cells, GroupRows(keys)[g].rows))
  {
    hide GroupRows, Stored, LastWriter, DirOf, DataCols, DataIndex, Gathered, GroupPath;
    var groups := GroupRows(keys);
    assert HasData(cols, parts);
    LastIsOwn(base, names, keys, g);
    StoredIs(base, cols, names, parts, groups, GroupPath(base, names, groups[g]));
    DataColumnAt(cols, parts, 0, c, groups[g].rows);
  }

  /** Whenever no two keys share a directory, the files of a partitioned write
      hold every column that is not a partition column. */
  lemma PartitionedConserves(base: string, cols: seq<Col>, names: seq<string>, parts: seq<nat>, keys: seq<RowKey>,
                             c: nat)
    requires names != [] && Even(cols) && RowCount(cols) > 0 && Indices(cols, names) == Some(parts)
    requires keys == Keys(cols, parts, RowCount(cols)) && forall j :: 0 <= j < |keys| ==> |keys[j]| == |names|
    requires KeysApart(base, names, keys) && c < |cols| && c !in parts
    ensures Partitioned(base, cols, names).Some? && KeysMatch(names, GroupRows(keys))
    ensures Conserved(base, cols, names, Partitioned(base, cols, names).value, GroupRows(keys), DataIndex(parts, 0, c),
        c)
  {
    hide GroupRows, Stored, KeysApart, Keys, Indices, Partitioned, DataIndex, GroupPath, ScatterAll, FitsGroups,
        Gathered;
    var ps, ks := WriteFacts(base, cols, names);
    var groups, k := GroupRows(keys), DataIndex(parts, 0, c);
    var files := Stored(base, cols, names, parts, groups);
    var n := RowCount(cols);
    forall g | 0 <= g < |groups|
      ensures var path := GroupPath(base, names, groups[g]);
              path in files && k < |files[path].cols|
              && files[path].cols[k] == cols[c].(cells := Gathered(cols[c].cells, groups[g].rows)) {
      FileOfGroup(base, cols, names, parts, keys, g, c);
    }
    assert FileCells(files, base, names, groups, k) == GatheredAll(cols[c].cells, groups);
    assert |cols[c].cells| == n;
    forall into | |into| == n
      ensures FitsGroups(groups, FileCells(files, base, names, groups, k), n)
      ensures ScatterAll(into, groups, FileCells(files, base, names, groups, k)) == cols[c].cells {
      GatherScatter(keys, cols[c].cells, into);
    }
    assert FitsGroups(groups, FileCells(files, base, names, groups, k), n) by {
      GatherScatter(keys, cols[c].cells, cols[c].cells);
    }
  }

  // ----- directories ----------------------------------------------------------------------------------

  predicate NoSlash(s: string) { '/' !in s }

  lemma LastSlash(a: string, x: string, b: string, y: string)
    requires a + "/" + x == b + "/" + y && NoSlash(x) && NoSlash(y)
    ensures a == b && x == y
  {
    var s := a + "/" + x;
    if |a| < |b| { LaterSlash(a, x, b, y); }
    if |b| < |a| { LaterSlash(b, y, a, x); }
    assert s[..|a|] == a && s[..|b|] == b;
    assert s[|a| + 1..] == x && s[|b| + 1..] == y;
  }

  lemma LaterSlash(a: string, x: string, b: string, y: string)
    requires a + "/" + x == b + "/" + y && |a| < |b|
    ensures !NoSlash(x)
  {
    var s := a + "/" + x;
    assert s[|b|] == '/' by { assert (b + "/" + y)[|b|] == '/'; }
    assert s[|b|] == x[|b| - |a| - 1];
  }

  /** Without slashes in names and values, groups get directories of their own. */
  lemma {:induction false} DirInjective(base: string, names: seq<string>, k1: RowKey, k2: RowKey)
    requires |names| == |k1| == |k2| && DirOf(base, names, k1) == DirOf(base, names, k2)
    requires forall j :: 0 <= j < |names| ==> NoSlash(names[j]) && NoSlash(k1[j]) && NoSlash(k2[j])
    ensures k1 == k2
    decreases |names|
  {
    if names != [] {
      var n := |names| - 1;
      var d1, d2 := DirOf(base, names[..n], k1[..n]), DirOf(base, names[..n], k2[..n]);
      var x, y := names[n] + "=" + k1[n], names[n] + "=" + k2[n];
      assert d1 + "/" + x == DirOf(base, names, k1) && d2 + "/" + y == DirOf(base, names, k2);
      hide DirOf;
      LastSlash(d1, x, d2, y);
      DirInjective(base, names[..n], k1[..n], k2[..n]);
      assert x[|names[n]| + 1..] == k1[n] && y[|names[n]| + 1..] == k2[n];
      assert k1 == k1[..n] + [k1[n]] && k2 == k2[..n] + [k2[n]];
    }
  }

  /** Without slashes every row survives: each key has a directory of its own. */
  lemma NoSlashKeepsApart(base: string, names: seq<string>, keys: seq<RowKey>)
    requires forall i :: 0 <= i < |keys| ==> |keys[i]| == |names|
    requires forall j :: 0 <= j < |names| ==> NoSlash(names[j])
    requires forall i, j :: 0 <= i < |keys| && 0 <= j < |names| ==> NoSlash(keys[i][j])
    ensures KeysApart(base, names, keys)
  {
    hide DirOf, NoSlash;
    forall i, j | 0 <= i < |keys| && 0 <= j < |keys| && DirOf(base, names, keys[i]) == DirOf(base, names, keys[j])
      ensures keys[i] == keys[j] {
      DirInjective(base, names, keys[i], keys[j]);
    }
  }

  ghost predicate NeverCollide(base: string, names: seq<string>) {
    forall k1: RowKey, k2: RowKey :: |k1| == |k2| == |names| && DirOf(base, names, k1) == DirOf(base, names, k2) ==>
        k1 == k2
  }

  lemma OneColumnApart(base: string, names: seq<string>, k1: RowKey, k2: RowKey)
    requires |k1| == |k2| == |names| <= 1 && DirOf(base, names, k1) == DirOf(base, names, k2)
    ensures k1 == k2
  {
    if |names| == 1 {
      var n := names[0];
      assert names[..0] == [] && k1[..0] == [] && k2[..0] == [];
      var pre := base + "/" + n + "=";
      assert pre + k1[0] == pre + k2[0];
      assert (pre + k1[0])[|pre|..] == k1[0] && (pre + k2[0])[|pre|..] == k2[0];
    }
  }

  /** Two keys, told apart by where they hold the text that joins the last two columns. */
  function Colliding(names: seq<string>, early: bool): RowKey
    requires |names| >= 2
  {
    var n := |names|;
    var joint := "/" + names[n - 1] + "=";
    seq(n, i => if i == (if early then n - 2 else n - 1) then joint else "")
  }

  /** Two keys that share a directory, for any base and any two or more columns:
      the joining text can be part of either value. */
  lemma DirsCanCollide(base: string, names: seq<string>)
    requires |names| >= 2
    ensures var k1, k2 := Colliding(names, true), Colliding(names, false);
            |k1| == |k2| == |names| && k1 != k2 && DirOf(base, names, k1) == DirOf(base, names, k2)
  {
    var n := |names|;
    var k1, k2 := Colliding(names, true), Colliding(names, false);
    var joint := "/" + names[n - 1] + "=";
    assert k1[n - 1] == "" && k2[n - 1] == joint && k1[n - 2] == joint && k2[n - 2] == "";
    assert k1[..n - 2] == k2[..n - 2];
    var most := names[..n - 1];
    assert most[..n - 2] == names[..n - 2];
    assert k1[..n - 1][..n - 2] == k1[..n - 2] && k2[..n - 1][..n - 2] == k2[..n - 2];
    var d := DirOf(base, names[..n - 2], k1[..n - 2]);
    var pre := d + "/" + names[n - 2] + "=";
    assert DirOf(base, most, k1[..n - 1]) == pre + joint;
    assert DirOf(base, most, k2[..n - 1]) == pre + "" == pre;
    hide DirOf;
    Joined(pre, names[n - 1]);
    LastStep(base, names, k1);
    LastStep(base, names, k2);
  }

  lemma Joined(pre: string, name: string)
    ensures var joint := "/" + name + "="; (pre + joint) + "/" + name + "=" + "" == pre + "/" + name + "=" + joint
  {}

  lemma LastStep(base: string, names: seq<string>, key: RowKey)
    requires |key| == |names| > 0
    ensures var n := |names| - 1;
            DirOf(base, names, key) == DirOf(base, names[..n], key[..n]) + "/" + names[n] + "=" + key[n]
  {}

  /** For a base and column names: no table can lose rows to a shared directory
      exactly when there is at most one partition column. */
  lemma NeverCollideIff(base: string, names: seq<string>)
    ensures NeverCollide(base, names) <==> |names| <= 1
  {
    hide DirOf;
    if |names| <= 1 {
      forall k1: RowKey, k2: RowKey | |k1| == |k2| == |names| && DirOf(base, names, k1) == DirOf(base, names, k2)
        ensures k1 == k2 {
        OneColumnApart(base, names, k1, k2);
      }
    } else {
      DirsCanCollide(base, names);
    }
  }
}
