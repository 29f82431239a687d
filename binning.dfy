/**
 * `binning.py`: the `Directional` step projects each position onto a
 * direction and labels it with the bin it falls in, following the
 * semantics of numpy's `digitize` with `right=False`.
 */
module Binning {
  import opened Wrappers
  import opened Vectors
  import opened DataSets
  import Node

  predicate NonDecreasing(bins: seq<real>) {
    forall i, j :: 0 <= i < j < |bins| ==> bins[i] <= bins[j]
  }

  predicate NonIncreasing(bins: seq<real>) {
    forall i, j :: 0 <= i < j < |bins| ==> bins[i] >= bins[j]
  }

  predicate StrictlyIncreasing(bins: seq<real>) {
    forall i, j :: 0 <= i < j < |bins| ==> bins[i] < bins[j]
  }

  /** How many bin edges are at most `x`. */
  function CountAtMost(bins: seq<real>, x: real): (n: nat)
    ensures n <= |bins|
  {
    if |bins| == 0 then 0 else (if bins[0] <= x then 1 else 0) + CountAtMost(bins[1..], x)
  }

  /** How many bin edges are above `x`. */
  function CountAbove(bins: seq<real>, x: real): (n: nat)
    ensures n <= |bins|
  {
    if |bins| == 0 then 0 else (if bins[0] > x then 1 else 0) + CountAbove(bins[1..], x)
  }

  /**
   * On non-decreasing edges, the count of edges at most `x` is the index
   * `k` that splits the edges into those at most `x` and those above it:
   * `bins[k-1] <= x < bins[k]`, with 0 below the first edge and `|bins|`
   * at or past the last.
   */
  lemma {:induction false} CountAtMostSplits(bins: seq<real>, x: real)
    requires NonDecreasing(bins)
    ensures forall j :: 0 <= j < CountAtMost(bins, x) ==> bins[j] <= x
    ensures forall j :: CountAtMost(bins, x) <= j < |bins| ==> x < bins[j]
  {
    if |bins| > 0 {
      var rest := bins[1..];
      assert NonDecreasing(rest) by {
        forall i, j | 0 <= i < j < |rest| ensures rest[i] <= rest[j] {
          assert rest[i] == bins[i + 1] && rest[j] == bins[j + 1];
        }
      }
      CountAtMostSplits(rest, x);
      if bins[0] > x {
        assert |rest| > 0 ==> x < rest[0];
      }
    }
  }

  /** On non-increasing edges, the count of edges above `x` splits them the other way round. */
  lemma {:induction false} CountAboveSplits(bins: seq<real>, x: real)
    requires NonIncreasing(bins)
    ensures forall j :: 0 <= j < CountAbove(bins, x) ==> bins[j] > x
    ensures forall j :: CountAbove(bins, x) <= j < |bins| ==> bins[j] <= x
  {
    if |bins| > 0 {
      var rest := bins[1..];
      assert NonIncreasing(rest) by {
        forall i, j | 0 <= i < j < |rest| ensures rest[i] >= rest[j] {
          assert rest[i] == bins[i + 1] && rest[j] == bins[j + 1];
        }
      }
      CountAboveSplits(rest, x);
      if bins[0] <= x {
        assert |rest| > 0 ==> rest[0] <= x;
      }
    }
  }

  lemma AtMostLabelsSplit(bins: seq<real>, xs: seq<real>)
    requires NonDecreasing(bins)
    ensures forall i, j :: 0 <= i < |xs| && 0 <= j < |bins| ==> (j < CountAtMost(bins, xs[i]) <==> bins[j] <= xs[i])
  {
    forall i | 0 <= i < |xs| {
      CountAtMostSplits(bins, xs[i]);
    }
  }

  lemma AboveLabelsSplit(bins: seq<real>, xs: seq<real>)
    requires NonIncreasing(bins)
    ensures forall i, j :: 0 <= i < |xs| && 0 <= j < |bins| ==> (j < CountAbove(bins, xs[i]) <==> bins[j] > xs[i])
  {
    forall i | 0 <= i < |xs| {
      CountAboveSplits(bins, xs[i]);
    }
  }

  /**
   * `np.digitize(xs, bins)`: edges that never decrease label `x` with the
   * number of edges at most `x`; otherwise edges that never increase label
   * it with the number of edges above `x`; any other edge list is refused.
   * Each label is the split point of the edges around `x`.
   */
  function Digitize(bins: seq<real>, xs: seq<real>): (r: Result<seq<int>>)
    ensures r.Success? <==> NonDecreasing(bins) || NonIncreasing(bins)
    ensures r.Failure? ==> r.error == ValueError("bins must be monotonically increasing or decreasing")
    ensures r.Success? ==> |r.value| == |xs| && forall i :: 0 <= i < |xs| ==> 0 <= r.value[i] <= |bins|
    ensures r.Success? && NonDecreasing(bins) ==>
      forall i, j :: 0 <= i < |xs| && 0 <= j < |bins| ==> (j < r.value[i] <==> bins[j] <= xs[i])
    ensures r.Success? && !NonDecreasing(bins) ==>
      forall i, j :: 0 <= i < |xs| && 0 <= j < |bins| ==> (j < r.value[i] <==> bins[j] > xs[i])
  {
    if NonDecreasing(bins) then
      AtMostLabelsSplit(bins, xs);
      Success(seq(|xs|, i requires 0 <= i < |xs| => CountAtMost(bins, xs[i]) as int))
    else if NonIncreasing(bins) then
      AboveLabelsSplit(bins, xs);
      Success(seq(|xs|, i requires 0 <= i < |xs| => CountAbove(bins, xs[i]) as int))
    else
      Failure(ValueError("bins must be monotonically increasing or decreasing"))
  }

  /** With strictly increasing edges, a value exactly on edge `k` is labelled `k + 1`: the bins are half-open `[bins[k], bins[k+1])`. */
  lemma EdgeBelongsToUpperBin(bins: seq<real>, k: nat)
    requires StrictlyIncreasing(bins) && k < |bins|
    ensures CountAtMost(bins, bins[k]) == k + 1
  {
    CountAtMostSplits(bins, bins[k]);
    assert k + 1 < |bins| ==> bins[k] < bins[k + 1];
  }

  /** A larger value never has fewer edges at or below it. */
  lemma {:induction false} CountAtMostMonotone(bins: seq<real>, x: real, y: real)
    requires x <= y
    ensures CountAtMost(bins, x) <= CountAtMost(bins, y)
  {
    if |bins| > 0 {
      CountAtMostMonotone(bins[1..], x, y);
    }
  }

  /** A larger value never has more edges above it. */
  lemma {:induction false} CountAboveAntitone(bins: seq<real>, x: real, y: real)
    requires x <= y
    ensures CountAbove(bins, x) >= CountAbove(bins, y)
  {
    if |bins| > 0 {
      CountAboveAntitone(bins[1..], x, y);
    }
  }

  /**
   * Labels follow the distance: with edges that never decrease a farther
   * point never gets a smaller label, with edges that never increase
   * (and do not stay constant) never a larger one.
   */
  lemma DigitizeMonotone(bins: seq<real>, xs: seq<real>, i: nat, j: nat)
    requires Digitize(bins, xs).Success?
    requires i < |xs| && j < |xs| && xs[i] <= xs[j]
    ensures NonDecreasing(bins) ==> Digitize(bins, xs).value[i] <= Digitize(bins, xs).value[j]
    ensures !NonDecreasing(bins) ==> Digitize(bins, xs).value[i] >= Digitize(bins, xs).value[j]
  {
    CountAtMostMonotone(bins, xs[i], xs[j]);
    CountAboveAntitone(bins, xs[i], xs[j]);
  }

  /** The `Directional` step: `origin` defaults to the coordinate origin. */
  datatype Directional = Directional(bins: seq<real>, direction: Vec3, origin: Vec3 := Origin)

  /** Registered class, default tag `"directional"`. */
  const DirectionalClass: Node.ClassRef := Node.ClassRef("Directional", "directional", true)

  /** `(p - origin) & direction`: the projection onto the direction as given, not normalised. */
  function Project(b: Directional, p: Vec3): real {
    Dot(Sub(p, b.origin), b.direction)
  }

  function Projections(b: Directional, positions: seq<Vec3>): (ds: seq<real>)
    ensures |ds| == |positions| && forall i :: 0 <= i < |positions| ==> ds[i] == Project(b, positions[i])
  {
    seq(|positions|, i requires 0 <= i < |positions| => Project(b, positions[i]))
  }

  /**
   * `Directional.compute`: reads the positions, normalises the direction
   * (dividing by its length, which fails for the zero vector even though
   * the normal is then unused), digitizes the projections and replaces the
   * dataset's groups with the labels. Everything else about the dataset is
   * kept; the updated dataset is the result.
   */
  function Compute(b: Directional, d: Data): (r: Result<Data>)
    ensures !(d.DataSet? && d.sets.Samples?) ==> r == Failure(AttributeError("geometry"))
    ensures d.DataSet? && d.sets.Samples? && NormSq(b.direction) == 0.0 ==> r == Failure(ZeroDivisionError)
    ensures d.DataSet? && d.sets.Samples? && NormSq(b.direction) != 0.0 ==>
      (r.Success? <==> NonDecreasing(b.bins) || NonIncreasing(b.bins))
    ensures d.DataSet? && d.sets.Samples? && NormSq(b.direction) != 0.0 && !(NonDecreasing(b.bins) || NonIncreasing(b.bins)) ==>
      r == Failure(ValueError("bins must be monotonically increasing or decreasing"))
    ensures r.Success? ==>
      var ds := d.sets.ds;
      var g := Digitize(b.bins, Projections(b, ds.geometry.positions)).value;
      r.value == DataSet(Samples(ds.(groups := Some(g))))
  {
    if !(d.DataSet? && d.sets.Samples?) then Failure(AttributeError("geometry"))
    else
      var ds := d.sets.ds;
      if NormSq(b.direction) == 0.0 then Failure(ZeroDivisionError)
      else
        var g :- Digitize(b.bins, Projections(b, ds.geometry.positions));
        Success(DataSet(Samples(ds.(groups := Some(g)))))
  }

  /**
   * What a successful binning does to a dataset: one label per position,
   * each label within `0..|bins|`, the label of a position being where its
   * projection falls among the edges; name, kind, field, geometry and mask
   * are untouched.
   */
  lemma ComputeLabelsEachPosition(b: Directional, ds: SampleDataSet)
    requires Compute(b, DataSet(Samples(ds))).Success?
    ensures var out := Compute(b, DataSet(Samples(ds))).value;
      out.DataSet? && out.sets.Samples? &&
      var o := out.sets.ds;
      o.name == ds.name && o.kind == ds.kind && o.field == ds.field && o.geometry == ds.geometry && o.mask == ds.mask &&
      o.groups.Some? && |o.groups.value| == |ds.geometry.positions| &&
      forall i :: 0 <= i < |ds.geometry.positions| ==> 0 <= o.groups.value[i] <= |b.bins|
    ensures NonDecreasing(b.bins) ==>
      var g := Compute(b, DataSet(Samples(ds))).value.sets.ds.groups.value;
      forall i, j :: 0 <= i < |ds.geometry.positions| && 0 <= j < |b.bins| ==>
        (j < g[i] <==> b.bins[j] <= Project(b, ds.geometry.positions[i]))
  {
  }

  /**
   * The bins of the dam-break post-processing, `[0, 0.146, 0.292, 0.438, 0.584]`
   * along x: a point at x = 0.2 lands in group 2, read as `0.146-0.292m`,
   * and a point exactly at x = 0.146 lands in group 2 as well.
   */
  lemma DamBreakGroups()
    ensures var b := Directional([0.0, 0.146, 0.292, 0.438, 0.584], Vec3(1.0, 0.0, 0.0));
      var d := DataSet(Samples(SampleDataSet(Internal, "rho", ScalarField([1.0, 1.0]), Geometry([Vec3(0.2, 0.5, 0.0), Vec3(0.146, 0.0, 0.0)]))));
      Compute(b, d).Success? && Compute(b, d).value.sets.ds.groups == Some([2, 2])
  {
    var bins := [0.0, 0.146, 0.292, 0.438, 0.584];
    var b := Directional(bins, Vec3(1.0, 0.0, 0.0));
    var positions := [Vec3(0.2, 0.5, 0.0), Vec3(0.146, 0.0, 0.0)];
    assert StrictlyIncreasing(bins);
    assert NonDecreasing(bins);
    EdgeBelongsToUpperBin(bins, 1);
    CountAtMostSplits(bins, 0.2);
    assert bins[1] <= 0.2 < bins[2];
    assert CountAtMost(bins, 0.2) == 2;
    var xs := Projections(b, positions);
    assert xs == [0.2, 0.146];
    assert Digitize(bins, xs).value == [2, 2];
  }
}
