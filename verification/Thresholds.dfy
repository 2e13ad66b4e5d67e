/** Threshold policy: global rules, machine rules that override or disable them, the merged view of both,
    and saving an edited view. */
module Thresholds {
  import opened Wrappers
  import opened Tables
  import opened BackupModel

  // ----- Units -----

  /** The threshold in MB; multiplying by 1024 is exact in binary floating point, hence `real`. */
  function NormalizeMB(value: real, unit: string): Option<real> {
    if value <= 0.0 then None
    else if unit == "MB" then Some(value)
    else if unit == "GB" then Some(value * 1024.0)
    else None
  }

  predicate IsWhole(x: real) {
    x.Floor as real == x
  }

  datatype Displayed = Displayed(value: real, unit: string)

  function Display(thresholdMB: real): Displayed {
    if IsWhole(thresholdMB / 1024.0) then Displayed(thresholdMB / 1024.0, "GB") else Displayed(thresholdMB, "MB")
  }

  predicate IsGigabytes(thresholdMB: real, n: int) {
    n as real * 1024.0 == thresholdMB
  }

  lemma {:induction false} WholeGigabytes(thresholdMB: real, n: int)
    ensures IsGigabytes(thresholdMB, n) ==> IsWhole(thresholdMB / 1024.0)
  {
    if IsGigabytes(thresholdMB, n) {
      assert thresholdMB / 1024.0 == n as real;
    }
  }

  /** What is displayed saves back as the same threshold; whole gigabytes, and only those, show as GB. */
  lemma {:induction false} DisplayRoundTrip(thresholdMB: real)
    ensures var d := Display(thresholdMB);
            && NormalizeMB(d.value, d.unit) == (if thresholdMB > 0.0 then Some(thresholdMB) else None)
            && (d.unit == "GB" <==> exists n :: IsGigabytes(thresholdMB, n))
  {
    var x := thresholdMB / 1024.0;
    if IsWhole(x) {
      assert IsGigabytes(thresholdMB, x.Floor);
    } else {
      forall n
        ensures !IsGigabytes(thresholdMB, n)
      {
        WholeGigabytes(thresholdMB, n);
      }
    }
  }

  // ----- Rules as they are read and written -----

  datatype RuleRow = RuleRow(dim: Dimension, rule: Rule)

  datatype RulePayload = RulePayload(
    dim: Dimension, value: real, unit: string, enabled: bool, strategy: string)

  datatype RuleView = RuleView(
    dim: Dimension, thresholdMB: real, value: real, unit: string, enabled: bool, source: string, strategy: string)

  function ViewOf(row: RuleRow, source: string, strategy: string): RuleView {
    var d := Display(row.rule.thresholdMB);
    RuleView(row.dim, row.rule.thresholdMB, d.value, d.unit, row.rule.enabled, source, strategy)
  }

  /** The payload a client sends back for what it was shown. */
  function PayloadOf(v: RuleView): RulePayload {
    RulePayload(v.dim, v.value, v.unit, v.enabled, v.strategy)
  }

  function PayloadsOf(vs: seq<RuleView>): seq<RulePayload> {
    Map(PayloadOf, vs)
  }

  function Lookup<K, V>(m: map<K, V>, k: K): Option<V> {
    if k in m then Some(m[k]) else None
  }

  /** The rules of one machine. */
  function Own(table: map<MachineDimension, Rule>, machineID: nat): map<Dimension, Rule> {
    map md | md in table && md.machineID == machineID :: md.dimension := table[md]
  }

  ghost predicate ValidDims(dims: set<Dimension>) {
    forall d :: d in dims ==> ValidDimension(d.period, d.metric)
  }

  /** What every write maintains: valid dimensions and positive thresholds. */
  ghost predicate ValidRules<K(!new)>(table: map<K, Rule>) {
    forall k :: k in table ==> table[k].thresholdMB > 0.0
  }

  lemma {:induction false} ValidKeyInjective(a: Dimension, b: Dimension)
    requires ValidDimension(a.period, a.metric) && ValidDimension(b.period, b.metric)
    ensures DimensionKey(a) == DimensionKey(b) <==> a == b
  {
    if DimensionKey(a) == DimensionKey(b) {
      DimensionKeyInjective(a, b);
    }
  }

  // ----- The merged view -----

  function OwnView(d: Dimension, rule: Rule): RuleView {
    ViewOf(RuleRow(d, rule), "machine", if rule.enabled then "override" else "disabled")
  }

  function EffectiveView(globals: map<Dimension, Rule>, own: map<Dimension, Rule>, d: Dimension): RuleView
    requires d in globals || d in own
  {
    if d in own then OwnView(d, own[d]) else ViewOf(RuleRow(d, globals[d]), "global", "inherit")
  }

  /** The rule that applies: the machine's own if it has one, else the global one. */
  function Effective(globals: map<Dimension, Rule>, own: map<Dimension, Rule>, d: Dimension): Option<Rule> {
    if d in own then Some(own[d]) else Lookup(globals, d)
  }

  ghost predicate Shows(v: RuleView, globals: map<Dimension, Rule>, own: map<Dimension, Rule>, d: Dimension) {
    (d in globals || d in own) && v == EffectiveView(globals, own, d)
  }

  ghost predicate AllShow(vs: seq<RuleView>, dims: seq<Dimension>, globals: map<Dimension, Rule>, own: map<Dimension, Rule>) {
    |vs| == |dims| && forall i :: 0 <= i < |vs| ==> Shows(vs[i], globals, own, dims[i])
  }

  lemma {:induction false} OneMoreShown(vs: seq<RuleView>, dims: seq<Dimension>, globals: map<Dimension, Rule>, own: map<Dimension, Rule>,
                                        v: RuleView, d: Dimension)
    requires AllShow(vs, dims, globals, own) && Shows(v, globals, own, d)
    ensures AllShow(vs + [v], dims + [d], globals, own)
  {
  }

  lemma {:induction false} OwnShown(globals: map<Dimension, Rule>, own: map<Dimension, Rule>, row: RuleRow)
    requires row.dim in own && own[row.dim] == row.rule
    ensures Shows(OwnView(row.dim, row.rule), globals, own, row.dim)
  {
  }

  lemma {:induction false} GlobalShown(globals: map<Dimension, Rule>, own: map<Dimension, Rule>, row: RuleRow)
    requires row.dim in globals && globals[row.dim] == row.rule && row.dim !in own
    ensures Shows(ViewOf(row, "global", "inherit"), globals, own, row.dim)
  {
  }

  /** The views show every dimension of either table once, each with its effective rule. */
  ghost predicate IsMerge(vs: seq<RuleView>, dims: seq<Dimension>, globals: map<Dimension, Rule>, own: map<Dimension, Rule>) {
    Lists(dims, globals.Keys + own.Keys) && AllShow(vs, dims, globals, own)
  }

  function ViewDims(vs: seq<RuleView>): seq<Dimension> {
    Map((v: RuleView) => v.dim, vs)
  }

  function RowDims(rows: seq<RuleRow>): seq<Dimension> {
    Map((row: RuleRow) => row.dim, rows)
  }

  /** Rows listing a rule table in the order of `dims`. */
  ghost predicate ListsRules(rows: seq<RuleRow>, dims: seq<Dimension>, table: map<Dimension, Rule>) {
    && Lists(dims, table.Keys)
    && |rows| == |dims|
    && forall i :: 0 <= i < |rows| ==> dims[i] in table && rows[i] == RuleRow(dims[i], table[dims[i]])
  }

  method ListRules(table: map<Dimension, Rule>) returns (rows: seq<RuleRow>)
    ensures ListsRules(rows, RowDims(rows), table)
  {
    var keys := ListKeys(table);
    rows := [];
    for i := 0 to |keys|
      invariant |rows| == i && forall j :: 0 <= j < i ==> rows[j] == RuleRow(keys[j], table[keys[j]])
    {
      rows := rows + [RuleRow(keys[i], table[keys[i]])];
    }
    assert RowDims(rows) == keys;
  }

  /** A map from text keys answers for the dimensions of a rule table. */
  ghost predicate IndexesRules(index: map<string, RuleRow>, table: map<Dimension, Rule>) {
    && (forall d :: d in table ==> DimensionKey(d) in index && index[DimensionKey(d)] == RuleRow(d, table[d]))
    && (forall k :: k in index ==> index[k].dim in table && DimensionKey(index[k].dim) == k)
  }

  method IndexRules(rows: seq<RuleRow>, ghost dims: seq<Dimension>, ghost table: map<Dimension, Rule>)
    returns (index: map<string, RuleRow>)
    requires ListsRules(rows, dims, table) && ValidDims(table.Keys)
    ensures IndexesRules(index, table)
  {
    index := map[];
    for i := 0 to |rows|
      invariant forall j :: 0 <= j < i ==> DimensionKey(dims[j]) in index && index[DimensionKey(dims[j])] == rows[j]
      invariant forall k :: k in index ==> index[k].dim in table && DimensionKey(index[k].dim) == k
    {
      forall j | 0 <= j < i
        ensures DimensionKey(dims[j]) != DimensionKey(dims[i])
      {
        ValidKeyInjective(dims[j], dims[i]);
      }
      index := index[DimensionKey(rows[i].dim) := rows[i]];
    }
  }

  lemma {:induction false} IndexAnswers(index: map<string, RuleRow>, table: map<Dimension, Rule>, d: Dimension)
    requires IndexesRules(index, table) && ValidDims(table.Keys) && ValidDimension(d.period, d.metric)
    ensures DimensionKey(d) in index <==> d in table
    ensures d in table ==> index[DimensionKey(d)] == RuleRow(d, table[d])
  {
    if DimensionKey(d) in index {
      ValidKeyInjective(index[DimensionKey(d)].dim, d);
    }
  }

  /** The views of the global rules, with a machine rule in place of each one it overrides. */
  method MergeGlobals(globalRows: seq<RuleRow>, index: map<string, RuleRow>,
                      ghost dims: seq<Dimension>, ghost globals: map<Dimension, Rule>, ghost own: map<Dimension, Rule>)
    returns (vs: seq<RuleView>, merged: set<string>)
    requires ListsRules(globalRows, dims, globals) && ValidDims(globals.Keys)
    requires ValidDims(own.Keys) && IndexesRules(index, own)
    ensures AllShow(vs, dims, globals, own)
    ensures merged == set i | 0 <= i < |dims| :: DimensionKey(dims[i])
  {
    vs, merged := [], {};
    for i := 0 to |globalRows|
      invariant AllShow(vs, dims[..i], globals, own)
      invariant merged == set j | 0 <= j < i :: DimensionKey(dims[j])
    {
      var row := globalRows[i];
      var key := DimensionKey(row.dim);
      IndexAnswers(index, own, row.dim);
      var view := ViewOf(row, "global", "inherit");
      if key in index {
        OwnShown(globals, own, index[key]);
        view := OwnView(index[key].dim, index[key].rule);
      } else {
        GlobalShown(globals, own, row);
      }
      OneMoreShown(vs, dims[..i], globals, own, view, row.dim);
      assert dims[..i + 1] == dims[..i] + [row.dim];
      merged := merged + {key};
      vs := vs + [view];
    }
    assert dims[..|dims|] == dims;
  }

  /** The dimensions that are in no global rule. */
  ghost function OnlyOwn(dims: seq<Dimension>, globals: set<Dimension>): seq<Dimension> {
    if dims == [] then []
    else
      var n := |dims| - 1;
      OnlyOwn(dims[..n], globals) + (if dims[n] in globals then [] else [dims[n]])
  }

  lemma {:induction false} OnlyOwnHolds(dims: seq<Dimension>, globals: set<Dimension>, d: Dimension)
    ensures d in OnlyOwn(dims, globals) <==> d in dims && d !in globals
    decreases |dims|
  {
    if dims != [] {
      var n := |dims| - 1;
      OnlyOwnHolds(dims[..n], globals, d);
      assert dims == dims[..n] + [dims[n]];
    }
  }

  lemma {:induction false} OnlyOwnDistinct(dims: seq<Dimension>, globals: set<Dimension>)
    requires forall i, j :: 0 <= i < j < |dims| ==> dims[i] != dims[j]
    ensures var r := OnlyOwn(dims, globals); forall i, j :: 0 <= i < j < |r| ==> r[i] != r[j]
    decreases |dims|
  {
    if dims != [] {
      var n := |dims| - 1;
      OnlyOwnDistinct(dims[..n], globals);
      OnlyOwnHolds(dims[..n], globals, dims[n]);
    }
  }

  /** Global dimensions first, then the machine's others: together each dimension once. */
  lemma {:induction false} MergedDims(globalDims: seq<Dimension>, ownDims: seq<Dimension>, globals: set<Dimension>, own: set<Dimension>)
    requires Lists(globalDims, globals) && Lists(ownDims, own)
    ensures Lists(globalDims + OnlyOwn(ownDims, globals), globals + own)
  {
    var extra := OnlyOwn(ownDims, globals);
    OnlyOwnDistinct(ownDims, globals);
    forall d
      ensures d in extra <==> d in own && d !in globals
    {
      OnlyOwnHolds(ownDims, globals, d);
    }
  }

  lemma {:induction false} MergedKey(dims: seq<Dimension>, globals: map<Dimension, Rule>, merged: set<string>, d: Dimension)
    requires Lists(dims, globals.Keys) && ValidDims(globals.Keys) && ValidDimension(d.period, d.metric)
    requires merged == set i | 0 <= i < |dims| :: DimensionKey(dims[i])
    ensures DimensionKey(d) in merged <==> d in globals
  {
    if d in globals {
      var i :| 0 <= i < |dims| && dims[i] == d;
    } else if DimensionKey(d) in merged {
      var i :| 0 <= i < |dims| && DimensionKey(dims[i]) == DimensionKey(d);
      ValidKeyInjective(dims[i], d);
    }
  }

  lemma {:induction false} OnlyOwnStep(globalDims: seq<Dimension>, dims: seq<Dimension>, globals: set<Dimension>, i: nat)
    requires i < |dims|
    ensures globalDims + OnlyOwn(dims[..i + 1], globals)
         == globalDims + OnlyOwn(dims[..i], globals) + (if dims[i] in globals then [] else [dims[i]])
  {
    assert dims[..i + 1][..i] == dims[..i];
  }

  /** Appends the views of the machine rules whose dimension no global rule has. */
  method MergeOwn(base: seq<RuleView>, merged: set<string>, machineRows: seq<RuleRow>,
                  ghost globalDims: seq<Dimension>, ghost ownDims: seq<Dimension>,
                  ghost globals: map<Dimension, Rule>, ghost own: map<Dimension, Rule>)
    returns (vs: seq<RuleView>)
    requires ListsRules(machineRows, ownDims, own) && Lists(globalDims, globals.Keys)
    requires ValidDims(globals.Keys) && ValidDims(own.Keys)
    requires AllShow(base, globalDims, globals, own)
    requires merged == set i | 0 <= i < |globalDims| :: DimensionKey(globalDims[i])
    ensures AllShow(vs, globalDims + OnlyOwn(ownDims, globals.Keys), globals, own)
  {
    vs := base;
    ghost var dims := globalDims;
    for i := 0 to |machineRows|
      invariant dims == globalDims + OnlyOwn(ownDims[..i], globals.Keys)
      invariant AllShow(vs, dims, globals, own)
    {
      var row := machineRows[i];
      MergedKey(globalDims, globals, merged, row.dim);
      OnlyOwnStep(globalDims, ownDims, globals.Keys, i);
      if DimensionKey(row.dim) !in merged {
        OwnShown(globals, own, row);
        OneMoreShown(vs, dims, globals, own, OwnView(row.dim, row.rule), row.dim);
        vs, dims := vs + [OwnView(row.dim, row.rule)], dims + [row.dim];
      }
    }
    assert ownDims[..|machineRows|] == ownDims;
  }

  lemma {:induction false} ShownDims(vs: seq<RuleView>, dims: seq<Dimension>, globals: map<Dimension, Rule>, own: map<Dimension, Rule>)
    requires AllShow(vs, dims, globals, own)
    ensures ViewDims(vs) == dims
  {
    forall i | 0 <= i < |vs|
      ensures vs[i].dim == dims[i]
    {
      assert Shows(vs[i], globals, own, dims[i]);
    }
  }

  /** mergeEffectiveRules: the global dimensions first, then those only the machine has. */
  method MergeEffectiveRules(globalRows: seq<RuleRow>, machineRows: seq<RuleRow>,
                             ghost globals: map<Dimension, Rule>, ghost own: map<Dimension, Rule>)
    returns (vs: seq<RuleView>)
    requires ListsRules(globalRows, RowDims(globalRows), globals) && ListsRules(machineRows, RowDims(machineRows), own)
    requires ValidDims(globals.Keys) && ValidDims(own.Keys)
    ensures IsMerge(vs, ViewDims(vs), globals, own)
  {
    ghost var globalDims, ownDims := RowDims(globalRows), RowDims(machineRows);
    var index := IndexRules(machineRows, ownDims, own);
    var base, merged := MergeGlobals(globalRows, index, globalDims, globals, own);
    vs := MergeOwn(base, merged, machineRows, globalDims, ownDims, globals, own);
    MergedDims(globalDims, ownDims, globals.Keys, own.Keys);
    ShownDims(vs, globalDims + OnlyOwn(ownDims, globals.Keys), globals, own);
  }
}
