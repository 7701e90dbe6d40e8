/** What a partitioned write keeps of its partition columns: their texts, read
    back from the directories. */
module HivePartitions {
  import opened Wrappers
  import opened Expr
  import opened Evaluation
  import opened Columns
  import opened Hive
  import opened HiveTheorems

  /** The text before the last slash, and the text after it. */
  function CutLast(s: string): Option<(string, string)> {
    if s == "" then None
    else if s[|s| - 1] == '/' then Some((s[..|s| - 1], ""))
    else match CutLast(s[..|s| - 1])
         case None => None
         case Some(p) => Some((p.0, p.1 + [s[|s| - 1]]))
  }

  /** A reader of partition directories: the values after `name=`, last segment
      first. */
  function ReadDir(dir: string, names: seq<string>): Option<RowKey>
    decreases |names|
  {
    if names == [] then Some([])
    else match CutLast(dir)
         case None => None
         case Some((parent, seg)) =>
           var pre := names[|names| - 1] + "=";
           if |seg| < |pre| || seg[..|pre|] != pre then None
           else match ReadDir(parent, names[..|names| - 1])
                case None => None
                case Some(key) => Some(key + [seg[|pre|..]])
  }

  lemma {:induction false} CutsAt(a: string, b: string)
    requires NoSlash(b)
    ensures CutLast(a + "/" + b) == Some((a, b))
    decreases |b|
  {
    var s := a + "/" + b;
    if b == "" {
      assert s[..|s| - 1] == a;
    } else {
      var b' := b[..|b| - 1];
      CutsAt(a, b');
      assert s[..|s| - 1] == a + "/" + b';
      assert b == b' + [b[|b| - 1]];
    }
  }

  /** Without slashes a directory reads back to its key. */
  lemma {:induction false} DirReadsBack(base: string, names: seq<string>, key: RowKey)
    requires |names| == |key|
    requires forall j :: 0 <= j < |names| ==> NoSlash(names[j]) && NoSlash(key[j])
    ensures ReadDir(DirOf(base, names, key), names) == Some(key)
    decreases |names|
  {
    if names == [] {
      assert key == [];
    } else {
      var n := |names| - 1;
      var d, seg := DirOf(base, names[..n], key[..n]), names[n] + "=" + key[n];
      DirReadsBack(base, names[..n], key[..n]);
      assert DirOf(base, names, key) == d + "/" + seg by { LastStep(base, names, key); }
      hide DirOf;
      SegmentPlain(names[n], key[n]);
      CutsAt(d, seg);
      var pre := names[n] + "=";
      assert seg[..|pre|] == pre && seg[|pre|..] == key[n];
      assert key == key[..n] + [key[n]];
    }
  }

  lemma SegmentPlain(name: string, value: string)
    requires NoSlash(name) && NoSlash(value)
    ensures NoSlash(name + "=" + value)
  {}

  /** For a table without slashes in partition names and values: each file lies
      in the directory it names, and that directory reads back, for every row
      of the file, to the texts of the row's partition cells. */
  lemma PartitionTextsReadBack(base: string, cols: seq<Col>, names: seq<string>, parts: seq<nat>, keys: seq<RowKey>,
                               path: string, i: nat)
    requires names != [] && RowCount(cols) > 0 && Indices(cols, names) == Some(parts) && HasData(cols, parts)
    requires keys == Keys(cols, parts, RowCount(cols)) && |parts| == |names|
    requires forall j :: 0 <= j < |names| ==> NoSlash(names[j])
    requires forall r, j :: 0 <= r < |keys| && 0 <= j < |parts| ==> NoSlash(PartValue(cols[parts[j]], r))
    requires Partitioned(base, cols, names).Some? && path in Partitioned(base, cols, names).value
    requires i in Partitioned(base, cols, names).value[path].group.rows
    ensures var p := Partitioned(base, cols, names).value[path];
            && path == p.dir + "/data.parquet" && i < RowCount(cols)
            && ReadDir(p.dir, names) == Some(seq(|parts|, j requires 0 <= j < |parts| => PartValue(cols[parts[j]], i)))
  {
    hide GroupRows, Stored, DirOf, DataCols, HasData, NoSlash, PartValue, LastWriter, ReadDir;
    var ps, ks := WriteFacts(base, cols, names);
    StoredIs(base, cols, names, parts, GroupRows(keys), path);
    var g := LastWriter(base, names, GroupRows(keys), path).value;
    var group := GroupRows(keys)[g];
    GroupingIsOk(keys);
    assert GroupOk(group, keys);
    var q :| 0 <= q < |group.rows| && group.rows[q] == i;
    assert keys[i] == group.key;
    DirReadsBack(base, names, keys[i]);
  }

  // ----- null ---------------------------------------------------------------------------------------

  /** Two text cells have the same directory text exactly when they are equal,
      or one is null and the other holds the name that stands for null. */
  lemma SameTextIff(a: Col, i: nat, b: Col, j: nat)
    requires OfKind(CellAt(a.cells, i), StrKind) && OfKind(CellAt(b.cells, j), StrKind)
    ensures var x, y := CellAt(a.cells, i), CellAt(b.cells, j);
            PartValue(a, i) == PartValue(b, j) <==>
              x == y || (x == CNull && y == CStr(DEFAULT_PARTITION)) || (y == CNull && x == CStr(DEFAULT_PARTITION))
  {}

  /** The table with a null of a partition column spelled out. */
  function SpelledOut(cols: seq<Col>, c: nat, i: nat): seq<Col>
    requires c < |cols| && i < |cols[c].cells|
  {
    cols[c := cols[c].(cells := cols[c].cells[i := CStr(DEFAULT_PARTITION)])]
  }

  lemma {:induction false} SameIndices(cols: seq<Col>, other: seq<Col>, names: seq<string>)
    requires |cols| == |other| && forall c :: 0 <= c < |cols| ==> cols[c].name == other[c].name
    ensures Indices(cols, names) == Indices(other, names)
  {
    hide ColumnIndex;
    if names != [] {
      SameColumnIndex(cols, other, names[0]);
      SameIndices(cols, other, names[1..]);
    }
  }

  lemma {:induction false} SameColumnIndex(cols: seq<Col>, other: seq<Col>, name: string)
    requires |cols| == |other| && forall c :: 0 <= c < |cols| ==> cols[c].name == other[c].name
    ensures ColumnIndex(cols, name) == ColumnIndex(other, name)
  {
    if cols != [] { SameColumnIndex(cols[1..], other[1..], name); }
  }

  lemma {:induction false} SameDataCols(cols: seq<Col>, other: seq<Col>, parts: seq<nat>, from: nat, rows: seq<nat>)
    requires |cols| == |other| && from <= |cols| && forall c :: 0 <= c < |cols| && c !in parts ==> cols[c] == other[c]
    ensures DataCols(cols, parts, from, rows) == DataCols(other, parts, from, rows)
    decreases |cols| - from
  {
    if from < |cols| { SameDataCols(cols, other, parts, from + 1, rows); }
  }

  lemma {:induction false} SameStored(base: string, cols: seq<Col>, other: seq<Col>, names: seq<string>,
                                      parts: seq<nat>, groups: seq<Group>)
    requires forall g :: 0 <= g < |groups| ==> |groups[g].key| == |names|
    requires |cols| == |other| && forall c :: 0 <= c < |cols| && c !in parts ==> cols[c] == other[c]
    ensures Stored(base, cols, names, parts, groups) == Stored(base, other, names, parts, groups)
    decreases |groups|
  {
    hide DataCols, DirOf;
    if groups != [] {
      var n := |groups| - 1;
      SameStored(base, cols, other, names, parts, groups[..n]);
      SameDataCols(cols, other, parts, 0, groups[n].rows);
    }
  }

  /** A null in a partition column cannot be told from the name that stands for
      it: both tables leave the same files. */
  lemma NullLooksSpelledOut(base: string, cols: seq<Col>, names: seq<string>, parts: seq<nat>, c: nat, i: nat)
    requires names != [] && RowCount(cols) > 0 && Indices(cols, names) == Some(parts)
    requires c in parts && i < |cols[c].cells| && cols[c].cells[i] == CNull
    ensures Partitioned(base, SpelledOut(cols, c, i), names) == Partitioned(base, cols, names)
  {
    var other := SpelledOut(cols, c, i);
    hide Stored, GroupRows;
    var n := RowCount(cols);
    assert RowCount(other) == n;
    SameIndices(cols, other, names);
    forall r | 0 <= r < n ensures KeyOf(other, parts, r) == KeyOf(cols, parts, r) {
      forall j | 0 <= j < |parts| ensures PartValue(other[parts[j]], r) == PartValue(cols[parts[j]], r) {
        SpelledCell(cols, c, i, parts[j], r);
      }
      hide PartValue;
    }
    hide KeyOf;
    assert Keys(other, parts, n) == Keys(cols, parts, n);
    KeysLong(cols, parts, n);
    KeysFit(Keys(cols, parts, n), |names|);
    SameStored(base, cols, other, names, parts, GroupRows(Keys(cols, parts, n)));
  }

  lemma SpelledCell(cols: seq<Col>, c: nat, i: nat, d: nat, r: nat)
    requires c < |cols| && d < |cols| && i < |cols[c].cells| && cols[c].cells[i] == CNull
    ensures PartValue(SpelledOut(cols, c, i)[d], r) == PartValue(cols[d], r)
  {}

  // ----- without partition columns ---------------------------------------------------------------------

  /** Without partition columns the whole table is one file at the base path; a
      table without rows leaves none, whatever the columns are called. */
  lemma UnpartitionedIsWhole(base: string, cols: seq<Col>, names: seq<string>)
    ensures RowCount(cols) > 0 ==>
              && Partitioned(base, cols, []).Some? && Partitioned(base, cols, []).value.Keys == {base}
              && var p := Partitioned(base, cols, []).value[base];
                 && p.dir == base && p.cols == cols && |p.group.rows| == RowCount(cols)
                 && forall i :: 0 <= i < RowCount(cols) ==> p.group.rows[i] == i
    ensures RowCount(cols) == 0 ==> Partitioned(base, cols, names) == Some(map[])
  {}
}
