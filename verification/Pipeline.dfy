/** Running a pipeline's scans: datasets that read the same source share a pass. */
module PipelineRun {
  import opened Wrappers
  import opened Scanner
  import opened Scan
  import H = Hive

  datatype Outcome = Done | NoSourceDefined | UnknownSource(name: string)

  // A source and the bytes read from it.
  datatype Input = Input(name: string, text: string)

  /** The source a dataset reads: the one it names, or the first. */
  function SourceOf(want: string, inputs: seq<Input>): Option<string> {
    if want != "" then Some(want) else if inputs == [] then None else Some(inputs[0].name)
  }

  function FindInput(inputs: seq<Input>, name: string): Option<string> {
    if inputs == [] then None
    else if inputs[0].name == name then Some(inputs[0].text)
    else FindInput(inputs[1..], name)
  }

  /** The grouping key of each dataset: its source alone. */
  function SourceKeys(names: seq<string>): (r: seq<H.RowKey>)
    ensures |r| == |names|
  {
    seq(|names|, i requires 0 <= i < |names| => [names[i]])
  }

  method ResolveSources(wants: seq<string>, inputs: seq<Input>) returns (names: Option<seq<string>>)
    ensures names.Some? ==> |names.value| == |wants| && forall i :: 0 <= i < |wants| ==>
        SourceOf(wants[i], inputs) == Some(names.value[i])
    ensures names.None? ==> exists i :: 0 <= i < |wants| && SourceOf(wants[i], inputs) == None
  {
    var found: seq<string> := [];
    for i := 0 to |wants|
      invariant |found| == i && forall k :: 0 <= k < i ==> SourceOf(wants[k], inputs) == Some(found[k])
    {
      var s := SourceOf(wants[i], inputs);
      if s.None? { return None; }
      found := found + [s.value];
    }
    names := Some(found);
  }

  /** The datasets by source, in order of first use. */
  method GroupBySource(names: seq<string>) returns (groups: seq<H.Group>)
    ensures groups == H.GroupRows(SourceKeys(names))
  {
    hide H.AddRow;
    groups := [];
    ghost var keys := SourceKeys(names);
    for i := 0 to |names|
      invariant groups == H.GroupRows(keys[..i])
    {
      assert keys[..i + 1][..i] == keys[..i] && keys[..i + 1][i] == [names[i]];
      groups := H.PushRow(groups, [names[i]], i);
    }
    assert keys[..|names|] == keys;
  }

  predicate Covered(groups: seq<H.Group>, n: nat, i: nat)
    requires n <= |groups|
  {
    exists g :: 0 <= g < n && i in groups[g].rows
  }

  /** Everything a dataset gets from its source, as if it were scanned alone. */
  function Alone(w: World, acc: Dataset, start: Rows, inputs: seq<Input>, name: string): Rows {
    match FindInput(inputs, name)
    case None => start
    case Some(text) => After(w, acc, start, ParsedOf(w, Records(text)))
  }

  lemma GroupFacts(names: seq<string>, g: nat)
    requires g < |H.GroupRows(SourceKeys(names))|
    ensures var gr := H.GroupRows(SourceKeys(names))[g];
            && gr.rows != [] && |gr.key| == 1
            && (forall p, q :: 0 <= p < q < |gr.rows| ==> gr.rows[p] != gr.rows[q])
            && (forall p :: 0 <= p < |gr.rows| ==> gr.rows[p] < |names| && names[gr.rows[p]] == gr.key[0])
  {
    H.GroupingIsOk(SourceKeys(names));
    var groups := H.GroupRows(SourceKeys(names));
    hide H.GroupRows;
    assert H.GroupOk(groups[g], SourceKeys(names));
    assert SourceKeys(names)[groups[g].rows[0]] == [names[groups[g].rows[0]]];
  }

  lemma GroupsCover(names: seq<string>, i: nat)
    requires i < |names|
    ensures Covered(H.GroupRows(SourceKeys(names)), |H.GroupRows(SourceKeys(names))|, i)
  {
    H.GroupingIsOk(SourceKeys(names));
    hide H.GroupRows;
    assert H.InSomeGroup(H.GroupRows(SourceKeys(names)), i);
  }

  lemma OneGroup(names: seq<string>, g: nat, h: nat, i: nat)
    requires var groups := H.GroupRows(SourceKeys(names));
             g < |groups| && h < |groups| && i < |names| && i in groups[g].rows && i in groups[h].rows
    ensures g == h
  {
    var groups := H.GroupRows(SourceKeys(names));
    H.RowHasOnePlace(SourceKeys(names), i);
    hide H.GroupRows;
    var p :| 0 <= p < |groups[g].rows| && groups[g].rows[p] == i;
    var q :| 0 <= q < |groups[h].rows| && groups[h].rows[q] == i;
    assert H.PlacedAt(groups, i, g, p) && H.PlacedAt(groups, i, h, q);
  }

  lemma NotCoveredYet(names: seq<string>, g: nat, i: nat)
    requires g < |H.GroupRows(SourceKeys(names))| && i in H.GroupRows(SourceKeys(names))[g].rows && i < |names|
    ensures !Covered(H.GroupRows(SourceKeys(names)), g, i)
  {
    hide H.GroupRows;
    var groups := H.GroupRows(SourceKeys(names));
    forall h | 0 <= h < g ensures i !in groups[h].rows {
      if i in groups[h].rows { OneGroup(names, g, h, i); }
    }
  }

  /** Scan every group once.  If all sources are known, each dataset ends with
      exactly what it gets from its own source alone, whatever it shares the
      source with and in whatever order the groups come. */
  method ScanPipeline(w: World, accs: seq<DatasetAcc>, wants: seq<string>, inputs: seq<Input>) returns (r: Outcome)
    requires |wants| == |accs| && forall i, j :: 0 <= i < j < |accs| ==> accs[i] != accs[j]
    requires forall i :: 0 <= i < |accs| ==> accs[i].Valid()
    modifies accs
    ensures r.NoSourceDefined? <==> exists i :: 0 <= i < |wants| && SourceOf(wants[i], inputs) == None
    ensures r.Done? ==> forall i :: 0 <= i < |accs| ==>
              && SourceOf(wants[i], inputs).Some? && FindInput(inputs, SourceOf(wants[i], inputs).value).Some?
              && accs[i].View() == Alone(w, accs[i].ds, old(accs[i].View()), inputs, SourceOf(wants[i], inputs).value)
    ensures r.UnknownSource? ==>
        FindInput(inputs, r.name) == None && exists i :: 0 <= i < |wants| && SourceOf(wants[i], inputs) == Some(r.name)
  {
    hide H.GroupRows, After, ParsedOf, Records;
    var resolved := ResolveSources(wants, inputs);
    if resolved.None? { return NoSourceDefined; }
    var names := resolved.value;
    var groups := GroupBySource(names);
    ghost var starts := seq(|accs|, i requires 0 <= i < |accs| reads accs => accs[i].View());
    for g := 0 to |groups|
      invariant forall i :: 0 <= i < |accs| ==> accs[i].Valid()
      invariant forall i :: 0 <= i < |accs| ==>
                  if Covered(groups, g, i)
                  then FindInput(inputs, names[i]).Some? &&
                      accs[i].View() == Alone(w, accs[i].ds, starts[i], inputs, names[i])
                  else accs[i].View() == starts[i]
    {
      GroupFacts(names, g);
      var name := groups[g].key[0];
      var text := FindInput(inputs, name);
      if text.None? {
        assert SourceOf(wants[groups[g].rows[0]], inputs) == Some(name);
        return UnknownSource(name);
      }
      ScanMembers(w, accs, groups[g].rows, text.value);
      forall i | 0 <= i < |accs| ensures Covered(groups, g + 1, i) <==> Covered(groups, g, i) || i in groups[g].rows {}
      forall i | 0 <= i < |accs| && i in groups[g].rows ensures !Covered(groups, g, i) {
        NotCoveredYet(names, g, i);
      }
    }
    forall i | 0 <= i < |accs| ensures Covered(groups, |groups|, i) { GroupsCover(names, i); }
    r := Done;
  }

  /** One pass for the datasets of one group; the others are untouched. */
  method ScanMembers(w: World, accs: seq<DatasetAcc>, rows: seq<nat>, text: string)
    requires forall i, j :: 0 <= i < j < |accs| ==> accs[i] != accs[j]
    requires forall i :: 0 <= i < |accs| ==> accs[i].Valid()
    requires forall p, q :: 0 <= p < q < |rows| ==> rows[p] != rows[q]
    requires forall p :: 0 <= p < |rows| ==> rows[p] < |accs|
    modifies accs
    ensures forall i :: 0 <= i < |accs| ==> accs[i].Valid()
    ensures forall i :: 0 <= i < |accs| ==>
              accs[i].View() == if i in rows then After(w, accs[i].ds, old(accs[i].View()), ParsedOf(w, Records(text)))
                                else old(accs[i].View())
  {
    hide After, ParsedOf, Records;
    var members := seq(|rows|, p requires 0 <= p < |rows| => accs[rows[p]]);
    ScanGroup(w, members, text);
    forall i | 0 <= i < |accs| && i in rows
      ensures accs[i].Valid() &&
          accs[i].View() == After(w, accs[i].ds, old(accs[i].View()), ParsedOf(w, Records(text))) {
      var p :| 0 <= p < |rows| && rows[p] == i;
      assert members[p] == accs[i];
    }
    forall i | 0 <= i < |accs| && i !in rows ensures accs[i] !in members {
      forall p | 0 <= p < |members| ensures members[p] != accs[i] {
        assert rows[p] in rows && rows[p] != i;
      }
    }
  }

  // ----- which source is read --------------------------------------------------------------------------------

  /** The first input of the name. */
  predicate FirstInput(inputs: seq<Input>, name: string, i: nat) {
    i < |inputs| && inputs[i].name == name && forall j :: 0 <= j < i ==> inputs[j].name != name
  }

  lemma {:induction false} InputFound(inputs: seq<Input>, name: string)
    ensures match FindInput(inputs, name)
            case Some(text) => exists i: nat :: FirstInput(inputs, name, i) && inputs[i].text == text
            case None => forall j :: 0 <= j < |inputs| ==> inputs[j].name != name
  {
    if inputs != [] {
      if inputs[0].name == name {
        assert FirstInput(inputs, name, 0);
      } else {
        InputFound(inputs[1..], name);
        assert forall j :: 0 < j < |inputs| ==> inputs[j] == inputs[1..][j - 1];
        if i: nat :| FirstInput(inputs[1..], name, i) { assert FirstInput(inputs, name, i + 1); }
      }
    }
  }

  lemma OneFirstInput(inputs: seq<Input>, name: string, i: nat, j: nat)
    requires FirstInput(inputs, name, i) && FirstInput(inputs, name, j)
    ensures i == j
  {}

  /** What a dataset gets: the rows of the first input of the name it gives, or of
      the first input if it gives none; nothing can be said without either. */
  lemma DatasetReads(w: World, ds: Dataset, start: Rows, want: string, inputs: seq<Input>, i: nat)
    ensures SourceOf(want, inputs) == None <==> want == "" && inputs == []
    ensures SourceOf(want, inputs).Some? && FindInput(inputs, SourceOf(want, inputs).value) == None <==>
              want != "" && forall j :: 0 <= j < |inputs| ==> inputs[j].name != want
    ensures (if want == "" then i == 0 && inputs != [] else FirstInput(inputs, want, i)) ==>
              && SourceOf(want, inputs).Some? && i < |inputs|
              && Alone(w, ds, start, inputs, SourceOf(want, inputs).value)
                 == After(w, ds, start, ParsedOf(w, Records(inputs[i].text)))
  {
    hide After, ParsedOf, Records, FindInput;
    InputFound(inputs, want);
    if inputs != [] { InputFound(inputs, inputs[0].name); }
    if if want == "" then i == 0 && inputs != [] else FirstInput(inputs, want, i) {
      var name := SourceOf(want, inputs).value;
      assert FirstInput(inputs, name, i);
      var j: nat :| FirstInput(inputs, name, j) && FindInput(inputs, name) == Some(inputs[j].text);
      OneFirstInput(inputs, name, i, j);
    }
  }
}
