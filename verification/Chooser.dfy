/** The weighted random pick, with weights as real numbers. */
module Chooser {
  import opened Outcomes

  datatype WeightsError = EmptyWeights | NegativeWeight | ZeroTotal

  /** The sum of the first `n` weights. */
  function Total(weights: seq<real>, n: nat): real
    requires n <= |weights|
  {
    if n == 0 then 0.0 else Total(weights, n - 1) + weights[n - 1]
  }

  predicate NonNegative(weights: seq<real>) {
    forall i :: 0 <= i < |weights| ==> weights[i] >= 0.0
  }

  lemma {:induction false} TotalIsMonotone(weights: seq<real>, i: nat, j: nat)
    requires NonNegative(weights) && i <= j <= |weights|
    ensures 0.0 <= Total(weights, i) <= Total(weights, j)
    decreases j
  {
    if i < j {
      TotalIsMonotone(weights, i, j - 1);
    } else if i > 0 {
      TotalIsMonotone(weights, i - 1, j - 1);
    }
  }

  /** Running totals, or why the weights cannot be picked from. */
  ghost predicate IsChooser(weights: seq<real>, cum: seq<real>) {
    && |cum| == |weights| && weights != [] && NonNegative(weights) && cum[|cum| - 1] > 0.0
    && forall i :: 0 <= i < |cum| ==> cum[i] == Total(weights, i + 1)
  }

  /** Weights are refused exactly when there are none, one is negative, or all
      are zero; otherwise the running totals are built. */
  method NewChooser(weights: seq<real>) returns (r: Result<seq<real>, WeightsError>)
    ensures r == Failure(EmptyWeights) <==> weights == []
    ensures r == Failure(NegativeWeight) <==> !NonNegative(weights)
    ensures r == Failure(ZeroTotal) <==> weights != [] && forall i :: 0 <= i < |weights| ==> weights[i] == 0.0
    ensures r.Success? ==> IsChooser(weights, r.value)
  {
    if |weights| == 0 {
      return Failure(EmptyWeights);
    }
    var cum: seq<real> := [];
    var total := 0.0;
    for i := 0 to |weights|
      invariant |cum| == i && total == Total(weights, i)
      invariant forall k :: 0 <= k < i ==> weights[k] >= 0.0 && cum[k] == Total(weights, k + 1)
      invariant total >= 0.0 && (total == 0.0 <==> forall k :: 0 <= k < i ==> weights[k] == 0.0)
    {
      if weights[i] < 0.0 {
        return Failure(NegativeWeight);
      }
      total := total + weights[i];
      cum := cum + [total];
    }
    if total == 0.0 {
      return Failure(ZeroTotal);
    }
    return Success(cum);
  }

  /** The first index whose running total exceeds `x`, scanning from `i`. */
  function Scan(cum: seq<real>, x: real, i: nat): (k: nat)
    requires i <= |cum|
    ensures i <= k <= |cum|
    ensures k < |cum| ==> cum[k] > x
    ensures forall j :: i <= j < k ==> cum[j] <= x
    decreases |cum| - i
  {
    if i == |cum| || cum[i] > x then i else Scan(cum, x, i + 1)
  }

  lemma {:induction false} ScanFinds(cum: seq<real>, x: real, from: nat, i: nat)
    requires from <= i < |cum| && cum[i] > x && forall h :: from <= h < i ==> cum[h] <= x
    ensures Scan(cum, x, from) == i
    decreases i - from
  {}

  /** sort.Search over the running totals finds what the scan finds. */
  method Pick(ghost weights: seq<real>, cum: seq<real>, x: real) returns (k: nat)
    requires IsChooser(weights, cum) && 0.0 <= x < cum[|cum| - 1]
    ensures k < |cum| && k == Scan(cum, x, 0)
  {
    var i, j := 0, |cum|;
    while i < j
      invariant 0 <= i <= j <= |cum| && i < |cum|
      invariant forall h :: 0 <= h < i ==> cum[h] <= x
      invariant forall h :: j <= h < |cum| ==> cum[h] > x
    {
      var h := (i + j) / 2;
      if !(cum[h] > x) {
        forall l | 0 <= l <= h ensures cum[l] <= x {
          TotalIsMonotone(weights, l + 1, h + 1);
        }
        i := h + 1;
      } else {
        forall l | h <= l < |cum| ensures cum[l] > x {
          TotalIsMonotone(weights, h + 1, l + 1);
        }
        j := h;
      }
    }
    ScanFinds(cum, x, 0, i);
    return i;
  }

  /** The points that pick index `k` are one half-open interval inside
      [0, total), whose length is exactly weight `k`; so a zero weight is never
      picked, and every point picks some index. */
  lemma {:induction false} PickedIntervals(weights: seq<real>, cum: seq<real>, k: nat)
    requires IsChooser(weights, cum) && k < |weights|
    ensures forall x: real :: 0.0 <= x < cum[|cum| - 1] ==>
              (Scan(cum, x, 0) == k <==> Total(weights, k) <= x < Total(weights, k + 1))
    ensures Total(weights, k + 1) - Total(weights, k) == weights[k]
    ensures 0.0 <= Total(weights, k) && Total(weights, k + 1) <= cum[|cum| - 1]
    ensures weights[k] == 0.0 ==> forall x: real :: 0.0 <= x < cum[|cum| - 1] ==> Scan(cum, x, 0) != k
  {
    TotalIsMonotone(weights, k + 1, |weights|);
    TotalIsMonotone(weights, k, k + 1);
    forall x: real | 0.0 <= x < cum[|cum| - 1]
      ensures Scan(cum, x, 0) == k <==> Total(weights, k) <= x < Total(weights, k + 1)
    {
      PickedAt(weights, cum, k, x);
    }
  }

  lemma {:induction false} PickedAt(weights: seq<real>, cum: seq<real>, k: nat, x: real)
    requires IsChooser(weights, cum) && k < |weights| && 0.0 <= x < cum[|cum| - 1]
    ensures Scan(cum, x, 0) == k <==> Total(weights, k) <= x < Total(weights, k + 1)
  {
    var s := Scan(cum, x, 0);
    if s == k {
      assert k > 0 ==> cum[k - 1] <= x;
    } else if s < k {
      TotalIsMonotone(weights, s + 1, k);
    } else {
      assert cum[k] <= x;
    }
  }
}
