/** Elementwise operations on boolean masks (numpy `~`, `&`, `|` on bool arrays). */
module Masks {

  function Negate(m: seq<bool>): (r: seq<bool>)
    ensures |r| == |m|
  {
    seq(|m|, i requires 0 <= i < |m| => !m[i])
  }

  /** `l & r`; both operands have the length of the position array they were computed from. */
  function AndMasks(l: seq<bool>, r: seq<bool>): (m: seq<bool>)
    requires |l| == |r|
    ensures |m| == |l|
  {
    seq(|l|, i requires 0 <= i < |l| => l[i] && r[i])
  }

  function OrMasks(l: seq<bool>, r: seq<bool>): (m: seq<bool>)
    requires |l| == |r|
    ensures |m| == |l|
  {
    seq(|l|, i requires 0 <= i < |l| => l[i] || r[i])
  }
}
