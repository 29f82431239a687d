/**
 * `set_time` of the surface example: choosing the index of the stored time
 * to switch the case to. The time list is read from the run time and the
 * final `setTime` call is foreign; the model returns the chosen index.
 */
module SurfaceExample {
  import opened Wrappers
  import opened Vectors

  /** The `time_spec` argument: `"latest"` or a number to get closest to. */
  datatype TimeSpec = Latest | Target(value: real)

  /** `|times[i] - target|`. */
  function Gap(times: seq<real>, i: nat, target: real): real
    requires i < |times|
  {
    Abs(times[i] - target)
  }

  /** Index `k` is the closest time to `target`, and no earlier index is as close. */
  predicate FirstClosest(times: seq<real>, target: real, k: nat) {
    k < |times| &&
    (forall j :: 0 <= j < |times| ==> Gap(times, k, target) <= Gap(times, j, target)) &&
    (forall j :: 0 <= j < k ==> Gap(times, j, target) > Gap(times, k, target))
  }

  /**
   * `set_time(runTime, time_spec)`: `"latest"` picks the last index;
   * otherwise a scan from index 0 keeps the index with the smallest gap so
   * far and moves only on a strictly smaller one, so ties go to the
   * earliest index. Both branches index the time list, which must not be
   * empty.
   */
  method SetTime(times: seq<real>, spec: TimeSpec) returns (r: Result<nat>)
    ensures |times| == 0 ==> r == Failure(IndexError)
    ensures |times| > 0 ==> r.Success? && r.value < |times|
    ensures |times| > 0 && spec.Latest? ==> r.value == |times| - 1
    ensures |times| > 0 && spec.Target? ==> FirstClosest(times, spec.value, r.value)
  {
    if |times| == 0 {
      return Failure(IndexError);
    }
    if spec.Latest? {
      return Success(|times| - 1);
    }
    var target := spec.value;
    var timeIdx: nat := 0;
    var minDiff := Gap(times, 0, target);
    for i := 1 to |times|
      invariant timeIdx < i
      invariant minDiff == Gap(times, timeIdx, target)
      invariant forall j :: 0 <= j < i ==> minDiff <= Gap(times, j, target)
      invariant forall j :: 0 <= j < timeIdx ==> Gap(times, j, target) > minDiff
    {
      var diff := Gap(times, i, target);
      if diff < minDiff {
        minDiff := diff;
        timeIdx := i;
      }
    }
    r := Success(timeIdx);
  }

  /** The tie rule leaves no choice: at most one index is the first closest. */
  lemma FirstClosestUnique(times: seq<real>, target: real, a: nat, b: nat)
    requires FirstClosest(times, target, a) && FirstClosest(times, target, b)
    ensures a == b
  {
    assert Gap(times, a, target) == Gap(times, b, target);
  }

  /** Two stored times equally far from the target: the earlier one is chosen. */
  lemma TieGoesToEarlier()
    ensures FirstClosest([1.0, 2.0, 3.0], 1.5, 0)
  {
    assert Gap([1.0, 2.0, 3.0], 0, 1.5) == 0.5;
    assert Gap([1.0, 2.0, 3.0], 1, 1.5) == 0.5;
    assert Gap([1.0, 2.0, 3.0], 2, 1.5) == 1.5;
  }
}
