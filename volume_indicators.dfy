/** On-balance volume and VWAP (quantfinance/indicators/volume.py). */
module VolumeIndicators {
  import opened Common

  /** `volume.where(close.diff().fillna(0) > 0, -volume)`: a rise adds the
      bar's volume, anything else (an unchanged bar and the first bar
      included) subtracts it. */
  function SignedVolume(close: seq<real>, volume: seq<real>): (r: seq<real>)
    requires |close| == |volume|
    ensures |r| == |close|
  {
    seq(|close|, i requires 0 <= i < |close| =>
      if i > 0 && close[i] - close[i - 1] > 0.0 then volume[i] else -volume[i])
  }

  /** `cumsum`: position i holds the sum of the first i + 1 values. */
  function CumSum(s: seq<real>): (r: seq<real>)
    ensures |r| == |s|
    ensures forall i :: 0 <= i < |s| ==> r[i] == Sum(s[..i + 1])
  {
    if |s| == 0 then []
    else
      var p := CumSum(s[..|s| - 1]);
      forall i | 0 <= i < |s| - 1 ensures p[i] == Sum(s[..i + 1]) {
        assert s[..|s| - 1][..i + 1] == s[..i + 1];
      }
      assert s[..|s|] == s;
      p + [Sum(s)]
  }

  /** `on_balance_volume`. */
  function OnBalanceVolume(close: seq<real>, volume: seq<real>): (r: seq<real>)
    requires |close| == |volume|
    ensures |r| == |close|
  {
    CumSum(SignedVolume(close, volume))
  }

  /** OBV starts at -volume[0] and then moves by plus or minus each bar's volume. */
  lemma ObvSteps(close: seq<real>, volume: seq<real>, i: nat)
    requires |close| == |volume| && i < |close|
    ensures var obv := OnBalanceVolume(close, volume);
            (i == 0 ==> obv[0] == -volume[0]) &&
            (i > 0 ==> obv[i] == obv[i - 1] + (if close[i] > close[i - 1] then volume[i] else -volume[i]))
  {
    var sv := SignedVolume(close, volume);
    if i == 0 {
      assert sv[..1] == [sv[0]];
      assert Sum(sv[..1]) == Sum(sv[..0]) + sv[0] by { assert sv[..1][..0] == sv[..0]; }
    } else {
      assert sv[..i + 1][..i] == sv[..i];
    }
  }

  /** The running sum of close * volume over the first |c| bars. */
  function Dot(c: seq<real>, v: seq<real>): real
    requires |c| == |v|
  {
    if |c| == 0 then 0.0 else Dot(c[..|c| - 1], v[..|v| - 1]) + c[|c| - 1] * v[|v| - 1]
  }

  /** The volume-weighted mean price of a stretch of bars. */
  function WeightedMean(c: seq<real>, v: seq<real>): real
    requires |c| == |v| && Sum(v) != 0.0
  {
    Dot(c, v) / Sum(v)
  }

  /** `volume_weighted_average_price`: cumulative close*volume over
      cumulative volume, undefined where the cumulative volume is 0. */
  function Vwap(close: seq<real>, volume: seq<real>): (r: seq<Option<real>>)
    requires |close| == |volume|
    ensures |r| == |close|
    ensures forall i :: 0 <= i < |r| ==> (r[i].None? <==> Sum(volume[..i + 1]) == 0.0)
  {
    seq(|close|, i requires 0 <= i < |close| =>
      if Sum(volume[..i + 1]) == 0.0 then None
      else Some(WeightedMean(close[..i + 1], volume[..i + 1])))
  }

  lemma MulMonotone(x: real, y: real, w: real)
    requires x <= y && w >= 0.0
    ensures x * w <= y * w
  {
    assert (y - x) * w >= 0.0;
  }

  /** Raising the prices never lowers the weighted sum. */
  lemma {:induction false} DotMonotone(a: seq<real>, b: seq<real>, v: seq<real>)
    requires |a| == |b| == |v|
    requires forall i :: 0 <= i < |a| ==> a[i] <= b[i]
    requires forall i :: 0 <= i < |v| ==> v[i] >= 0.0
    ensures Dot(a, v) <= Dot(b, v)
  {
    if |a| > 0 {
      var n := |a| - 1;
      DotMonotone(a[..n], b[..n], v[..n]);
      MulMonotone(a[n], b[n], v[n]);
    }
  }

  function Constant(n: nat, k: real): (r: seq<real>)
    ensures |r| == n && forall i :: 0 <= i < n ==> r[i] == k
  {
    seq(n, _ => k)
  }

  /** A constant price weighted by the volumes is that price times the total volume. */
  lemma {:induction false} DotConstant(k: real, v: seq<real>)
    ensures Dot(Constant(|v|, k), v) == k * Sum(v)
  {
    if |v| > 0 {
      var n := |v| - 1;
      assert Constant(|v|, k)[..n] == Constant(n, k);
      DotConstant(k, v[..n]);
      assert k * Sum(v) == k * Sum(v[..n]) + k * v[n];
    }
  }

  /** The weighted sum lies between lo and hi times the total weight. */
  predicate WeightedBetween(c: seq<real>, v: seq<real>, lo: real, hi: real)
    requires |c| == |v|
  {
    lo * Sum(v) <= Dot(c, v) <= hi * Sum(v)
  }

  /** With non-negative weights, prices in [lo, hi] give a weighted sum
      between lo and hi times the total weight. */
  lemma WeightedSumBounds(c: seq<real>, v: seq<real>, lo: real, hi: real)
    requires |c| == |v| && Between(c, lo, hi)
    requires forall i :: 0 <= i < |v| ==> v[i] >= 0.0
    ensures WeightedBetween(c, v, lo, hi)
  {
    DotMonotone(Constant(|c|, lo), c, v);
    DotMonotone(c, Constant(|c|, hi), v);
    DotConstant(lo, v);
    DotConstant(hi, v);
  }

  /** Dividing by a positive total volume keeps a weighted mean between the bounds. */
  lemma WeightedMeanBounds(c: seq<real>, v: seq<real>, lo: real, hi: real)
    requires |c| == |v| && Sum(v) > 0.0 && WeightedBetween(c, v, lo, hi)
    ensures lo <= WeightedMean(c, v) <= hi
  {
    RatioBetween(Dot(c, v), Sum(v), lo, hi);
  }

  lemma {:induction false} SumNonNegative(v: seq<real>)
    requires forall i :: 0 <= i < |v| ==> v[i] >= 0.0
    ensures Sum(v) >= 0.0
  {
    if |v| > 0 {
      SumNonNegative(v[..|v| - 1]);
    }
  }

  lemma RatioBetween(value: real, total: real, lo: real, hi: real)
    requires total > 0.0 && lo * total <= value <= hi * total
    ensures lo <= value / total <= hi
  {
  }

  /** A volume-weighted mean price lies between the lowest and the highest price. */
  lemma WeightedMeanBetween(c: seq<real>, v: seq<real>)
    requires |c| == |v| > 0 && Sum(v) != 0.0
    requires forall i :: 0 <= i < |v| ==> v[i] >= 0.0
    ensures Min(c) <= WeightedMean(c, v) <= Max(c)
  {
    SumNonNegative(v);
    WeightedSumBounds(c, v, Min(c), Max(c));
    WeightedMeanBounds(c, v, Min(c), Max(c));
  }

  /** With non-negative volumes, each defined VWAP lies between the lowest
      and highest close seen so far. */
  lemma VwapWithinCloses(close: seq<real>, volume: seq<real>, i: nat)
    requires |close| == |volume| && i < |close|
    requires forall j :: 0 <= j < |volume| ==> volume[j] >= 0.0
    ensures var w := Vwap(close, volume)[i];
            w.Some? ==> Min(close[..i + 1]) <= w.value <= Max(close[..i + 1])
  {
    if Vwap(close, volume)[i].Some? {
      WeightedMeanBetween(close[..i + 1], volume[..i + 1]);
    }
  }
}
