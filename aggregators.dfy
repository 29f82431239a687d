/**
 * `aggregators.py`: the `Sum`, `Mean` and `Max` steps. The reductions
 * themselves are foreign (`aggregation.sum`, `aggregation.mean`,
 * `pybFoam.max`) and are parameters here; the steps name, order and
 * attach groups to what the reductions return.
 */
module Aggregators {
  import opened Wrappers
  import opened Vectors
  import opened DataSets
  import opened Text
  import Node

  /** What `aggregation.sum` hands back: the reduced values and, possibly empty, one group name per value. */
  datatype AggResult = AggResult(values: seq<Value>, group: seq<string>)

  /** The foreign reductions the steps delegate to. */
  datatype Reductions = Reductions(
    sum: (Field, Option<seq<bool>>, Option<seq<int>>) -> AggResult,
    mean: Field -> Value,
    max: Field -> Value)

  datatype Sum = Sum(name: Option<string> := None)
  datatype Mean = Mean(name: Option<string> := None)
  datatype Max = Max(name: Option<string> := None)

  /** Registered classes with default tags `"sum"`, `"mean"`, `"max"`; they are plain models, not `Node`s. */
  const SumClass: Node.ClassRef := Node.ClassRef("Sum", "sum", false)
  const MeanClass: Node.ClassRef := Node.ClassRef("Mean", "mean", false)
  const MaxClass: Node.ClassRef := Node.ClassRef("Max", "max", false)

  /** `self.name or default`: an absent or empty name falls back to the default. */
  function SetName(name: Option<string>, default: string): (r: string)
    ensures name.Some? && name.value != "" ==> r == name.value
    ensures name.None? || name.value == "" ==> r == default
  {
    if name.Some? && name.value != "" then name.value else default
  }

  /** `dataset.field` (with mask and groups): only the sample-carrying datasets have one. */
  function SampleSource(d: Data): Result<SampleDataSet> {
    if d.DataSet? && d.sets.Samples? then Success(d.sets.ds) else Failure(AttributeError("field"))
  }

  /** Name of the `i`-th entry of a sum over dataset `dsName`. */
  function SumEntryName(dsName: string, i: nat): string {
    dsName + "_sum_" + NatToString(i)
  }

  /** Entry `i` of a sum: named after the dataset and `i`, carrying the `i`-th value and, if groups came back, the `i`-th group. */
  function SumEntry(dsName: string, res: AggResult, i: nat): AggregatedData
    requires i < |res.values| && (|res.group| == 0 || i < |res.group|)
  {
    AggregatedData(SumEntryName(dsName, i), res.values[i], if |res.group| > 0 then Some(res.group[i]) else None)
  }

  /**
   * The result of `Sum.compute` once the reduction has returned `res`:
   * the entry loop indexes the group list whenever it is non-empty, so a
   * non-empty group list shorter than the value list raises `IndexError`.
   */
  function SumOf(s: Sum, dsName: string, res: AggResult): (r: Result<AggregatedDataSet>)
    ensures r.Failure? <==> 0 < |res.group| < |res.values|
    ensures r.Failure? ==> r.error == IndexError
    ensures r.Success? ==> r.value.name == SetName(s.name, "sum") && |r.value.values| == |res.values|
    ensures r.Success? ==> forall i :: 0 <= i < |res.values| ==> r.value.values[i] == SumEntry(dsName, res, i)
  {
    if 0 < |res.group| < |res.values| then Failure(IndexError)
    else Success(AggregatedDataSet(SetName(s.name, "sum"), seq(|res.values|, i requires 0 <= i < |res.values| => SumEntry(dsName, res, i))))
  }

  /** `Sum.compute` as a specification: reduce the field under the mask and groups, then shape the entries. */
  function SumSpec(s: Sum, d: Data, red: Reductions): Result<AggregatedDataSet> {
    var ds :- SampleSource(d);
    SumOf(s, ds.name, red.sum(ds.field, ds.mask, ds.groups))
  }

  /**
   * `Sum.compute`: the entry list is built by appending in a loop over the
   * reduced values, in their order.
   */
  method SumCompute(s: Sum, d: Data, red: Reductions) returns (r: Result<AggregatedDataSet>)
    ensures r == SumSpec(s, d, red)
  {
    if !(d.DataSet? && d.sets.Samples?) {
      return Failure(AttributeError("field"));
    }
    var ds := d.sets.ds;
    var res := red.sum(ds.field, ds.mask, ds.groups);
    var entries: seq<AggregatedData> := [];
    for i := 0 to |res.values|
      invariant |res.group| == 0 || i <= |res.group|
      invariant |entries| == i
      invariant forall k :: 0 <= k < i ==> entries[k] == SumEntry(ds.name, res, k)
    {
      if |res.group| > 0 && i >= |res.group| {
        return Failure(IndexError);
      }
      entries := entries + [SumEntry(ds.name, res, i)];
    }
    assert entries == seq(|res.values|, i requires 0 <= i < |res.values| => SumEntry(ds.name, res, i));
    r := Success(AggregatedDataSet(SetName(s.name, "sum"), entries));
  }

  /**
   * Summed entries are told apart by name: entry `i` is
   * `"<dataset>_sum_<i>"`, so no two entries share a name and the index
   * can be read back from the name.
   */
  lemma SumEntryNamesDistinct(dsName: string, i: nat, j: nat)
    ensures SumEntryName(dsName, i) == SumEntryName(dsName, j) ==> i == j
    ensures ParseNat(SumEntryName(dsName, i)[|dsName| + 5..]) == i
  {
    var prefix := dsName + "_sum_";
    assert SumEntryName(dsName, i) == prefix + NatToString(i);
    assert SumEntryName(dsName, i)[|prefix|..] == NatToString(i);
    if SumEntryName(dsName, i) == SumEntryName(dsName, j) {
      assert NatToString(j) == SumEntryName(dsName, j)[|prefix|..];
      NatToStringInjective(i, j);
    }
    ParseNatToString(i);
  }

  /** `Mean.compute`: one entry named `"<dataset>_mean"`; mask and groups are not passed on. */
  function MeanSpec(m: Mean, d: Data, red: Reductions): (r: Result<AggregatedDataSet>)
    ensures r.Failure? <==> !(d.DataSet? && d.sets.Samples?)
    ensures r.Failure? ==> r.error == AttributeError("field")
    ensures r.Success? ==> r.value.name == SetName(m.name, "mean")
    ensures r.Success? ==> r.value.values == [AggregatedData(d.sets.ds.name + "_mean", red.mean(d.sets.ds.field))]
  {
    var ds :- SampleSource(d);
    Success(AggregatedDataSet(SetName(m.name, "mean"), [AggregatedData(ds.name + "_mean", red.mean(ds.field))]))
  }

  /** `Max.compute`: the reduction's raw result, not wrapped in a dataset; the step's name is unused. */
  function MaxSpec(m: Max, d: Data, red: Reductions): (r: Result<Data>)
    ensures r.Failure? <==> !(d.DataSet? && d.sets.Samples?)
    ensures r.Success? ==> r.value == Raw(red.max(d.sets.ds.field))
  {
    var ds :- SampleSource(d);
    Success(Raw(red.max(ds.field)))
  }

  // ---------------------------------------------------------------------
  // A reference reduction with the contract the sum tests pin down.

  function ZeroOf(f: Field): Value {
    match f
    case ScalarField(_) => Float(0.0)
    case VectorField(_) => Vector(Origin)
    case TensorField(_) => TensorValue(Tensor(0.0, 0.0, 0.0, 0.0, 0.0, 0.0, 0.0, 0.0, 0.0))
  }

  /** Componentwise addition of two values of the same kind. */
  function AddValues(a: Value, b: Value): Value {
    match (a, b)
    case (Float(x), Float(y)) => Float(x + y)
    case (Vector(u), Vector(v)) => Vector(Vec3(u.x + v.x, u.y + v.y, u.z + v.z))
    case (TensorValue(s), TensorValue(t)) =>
      TensorValue(Tensor(s.xx + t.xx, s.xy + t.xy, s.xz + t.xz, s.yx + t.yx, s.yy + t.yy, s.yz + t.yz, s.zx + t.zx, s.zy + t.zy, s.zz + t.zz))
    case _ => a
  }

  /** Sample `i` takes part: the mask (if any) includes it and, when one group is asked for, the sample is labelled with it. */
  predicate Selected(mask: Option<seq<bool>>, groups: Option<seq<int>>, wanted: Option<int>, i: nat) {
    (mask.None? || (i < |mask.value| && mask.value[i])) &&
    (wanted.None? || (groups.Some? && i < |groups.value| && groups.value[i] == wanted.value))
  }

  /** Sum of the selected samples among the first `n`. */
  function PartialSum(f: Field, mask: Option<seq<bool>>, groups: Option<seq<int>>, wanted: Option<int>, n: nat): (r: Value)
    requires n <= Size(f)
    ensures f.ScalarField? ==> r.Float?
    ensures f.VectorField? ==> r.Vector?
    ensures f.TensorField? ==> r.TensorValue?
  {
    if n == 0 then ZeroOf(f)
    else
      var acc := PartialSum(f, mask, groups, wanted, n - 1);
      if Selected(mask, groups, wanted, n - 1) then AddValues(acc, At(f, n - 1)) else acc
  }

  function MaxLabel(groups: seq<int>): int {
    if |groups| == 0 then -1
    else var m := MaxLabel(groups[..|groups| - 1]); if groups[|groups| - 1] > m then groups[|groups| - 1] else m
  }

  /**
   * A reduction meeting the tests' contract: without groups one entry
   * holding the masked total; with groups one entry per label
   * `0..max(groups)`, entry `g` summing the masked samples labelled `g`.
   */
  function ReferenceSum(f: Field, mask: Option<seq<bool>>, groups: Option<seq<int>>): (r: AggResult)
    ensures groups.None? ==> r.values == [PartialSum(f, mask, groups, None, Size(f))] && r.group == []
    ensures groups.Some? ==> |r.values| == |r.group|
    ensures groups.Some? && MaxLabel(groups.value) >= 0 ==> |r.values| == MaxLabel(groups.value) + 1
    ensures groups.Some? ==> forall g :: 0 <= g < |r.values| ==> r.values[g] == PartialSum(f, mask, groups, Some(g), Size(f))
  {
    if groups.None? then AggResult([PartialSum(f, mask, groups, None, Size(f))], [])
    else
      var n := MaxLabel(groups.value) + 1;
      var count: nat := if n < 0 then 0 else n;
      AggResult(seq(count, g requires 0 <= g < count => PartialSum(f, mask, groups, Some(g), Size(f))),
                seq(count, g requires 0 <= g < count => NatToString(g)))
  }

  function XComponents(vs: seq<Vec3>): (xs: seq<real>)
    ensures |xs| == |vs| && forall i :: 0 <= i < |vs| ==> xs[i] == vs[i].x
  {
    seq(|vs|, i requires 0 <= i < |vs| => vs[i].x)
  }

  function YComponents(vs: seq<Vec3>): (ys: seq<real>)
    ensures |ys| == |vs| && forall i :: 0 <= i < |vs| ==> ys[i] == vs[i].y
  {
    seq(|vs|, i requires 0 <= i < |vs| => vs[i].y)
  }

  function ZComponents(vs: seq<Vec3>): (zs: seq<real>)
    ensures |zs| == |vs| && forall i :: 0 <= i < |vs| ==> zs[i] == vs[i].z
  {
    seq(|vs|, i requires 0 <= i < |vs| => vs[i].z)
  }

  /** Vectors are summed componentwise: each component of a vector sum is the sum of that component of the samples. */
  lemma {:induction false} VectorSumComponentwise(vs: seq<Vec3>, mask: Option<seq<bool>>, groups: Option<seq<int>>, wanted: Option<int>, n: nat)
    requires n <= |vs|
    ensures PartialSum(VectorField(vs), mask, groups, wanted, n) ==
      Vector(Vec3(PartialSum(ScalarField(XComponents(vs)), mask, groups, wanted, n).f,
                  PartialSum(ScalarField(YComponents(vs)), mask, groups, wanted, n).f,
                  PartialSum(ScalarField(ZComponents(vs)), mask, groups, wanted, n).f))
  {
    if n > 0 {
      VectorSumComponentwise(vs, mask, groups, wanted, n - 1);
    }
  }

  /** A reduction record whose sum is the reference one. */
  function ReferenceReductions(mean: Field -> Value, max: Field -> Value): Reductions {
    Reductions(ReferenceSum, mean, max)
  }

  function InternalDataSetOf(field: Field, mask: Option<seq<bool>>, groups: Option<seq<int>>): Data {
    DataSet(DataSets.Samples(SampleDataSet(Internal, "internal", field, Geometry([]), mask, groups)))
  }

  /** An unnamed `Sum` over `[1, 2, 3]` gives the set `"sum"` holding `6`, or `4` under the mask `[T, F, T]`. */
  lemma SumOfScalarsUngrouped(mean: Field -> Value, max: Field -> Value)
    ensures var red := ReferenceReductions(mean, max);
      var f := ScalarField([1.0, 2.0, 3.0]);
      SumSpec(Sum(), InternalDataSetOf(f, None, None), red) ==
        Success(AggregatedDataSet("sum", [AggregatedData("internal_sum_0", Float(6.0))])) &&
      SumSpec(Sum(), InternalDataSetOf(f, Some([true, false, true]), None), red) ==
        Success(AggregatedDataSet("sum", [AggregatedData("internal_sum_0", Float(4.0))]))
  {
    var f := ScalarField([1.0, 2.0, 3.0]);
    assert PartialSum(f, None, None, None, 1) == Float(1.0);
    assert PartialSum(f, None, None, None, 2) == Float(3.0);
    assert PartialSum(f, None, None, None, 3) == Float(6.0);
    var mask := Some([true, false, true]);
    assert PartialSum(f, mask, None, None, 1) == Float(1.0);
    assert PartialSum(f, mask, None, None, 2) == Float(1.0);
    assert PartialSum(f, mask, None, None, 3) == Float(4.0);
    assert NatToString(0) == "0";
    assert SumEntryName("internal", 0) == "internal_sum_0";
    var red := ReferenceReductions(mean, max);
    var all := ReferenceSum(f, None, None);
    assert red.sum(f, None, None) == all == AggResult([Float(6.0)], []);
    assert SumEntry("internal", all, 0) == AggregatedData("internal_sum_0", Float(6.0));
    var masked := ReferenceSum(f, mask, None);
    assert red.sum(f, mask, None) == masked == AggResult([Float(4.0)], []);
    assert SumEntry("internal", masked, 0) == AggregatedData("internal_sum_0", Float(4.0));
    var r1 := SumOf(Sum(), "internal", all);
    assert r1.Success? && |r1.value.values| == 1 && r1.value.values[0] == AggregatedData("internal_sum_0", Float(6.0));
    assert r1.value.values == [AggregatedData("internal_sum_0", Float(6.0))];
    var r2 := SumOf(Sum(), "internal", masked);
    assert r2.Success? && |r2.value.values| == 1 && r2.value.values[0] == AggregatedData("internal_sum_0", Float(4.0));
    assert r2.value.values == [AggregatedData("internal_sum_0", Float(4.0))];
  }

  /** With groups `[1, 2, 2]` the values come out per label `0, 1, 2` as `[0, 1, 5]`. */
  lemma SumOfScalarsGrouped(mean: Field -> Value, max: Field -> Value)
    ensures var red := ReferenceReductions(mean, max);
      var r := SumSpec(Sum(), InternalDataSetOf(ScalarField([1.0, 2.0, 3.0]), None, Some([1, 2, 2])), red);
      r.Success? && r.value.name == "sum" && |r.value.values| == 3 &&
      r.value.values[0].value == Float(0.0) && r.value.values[1].value == Float(1.0) && r.value.values[2].value == Float(5.0)
  {
    var f := ScalarField([1.0, 2.0, 3.0]);
    var groups := Some([1, 2, 2]);
    assert MaxLabel([1, 2, 2]) == 2 by {
      assert [1, 2, 2][..2] == [1, 2] && [1, 2][..1] == [1] && [1][..0] == [];
    }
    assert PartialSum(f, None, groups, Some(0), 1) == Float(0.0);
    assert PartialSum(f, None, groups, Some(0), 2) == Float(0.0);
    assert PartialSum(f, None, groups, Some(0), 3) == Float(0.0);
    assert PartialSum(f, None, groups, Some(1), 1) == Float(1.0);
    assert PartialSum(f, None, groups, Some(1), 2) == Float(1.0);
    assert PartialSum(f, None, groups, Some(1), 3) == Float(1.0);
    assert PartialSum(f, None, groups, Some(2), 1) == Float(0.0);
    assert PartialSum(f, None, groups, Some(2), 2) == Float(2.0);
    assert PartialSum(f, None, groups, Some(2), 3) == Float(5.0);
  }
}
