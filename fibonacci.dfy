/** Fibonacci retracement and extension levels
    (quantfinance/analysis/fibonacci.py). */
module Fibonacci {
  import opened Common

  datatype FibonacciLevels = FibonacciLevels(levels: map<string, real>, baseHigh: real, baseLow: real)

  datatype LevelKind = Retracement | Extension

  /** `f"Ret_{int(ratio * 100)}"` or `f"Ext_{int(ratio * 100)}"`. */
  function Label(kind: LevelKind, ratio: real): string
    requires ratio >= 0.0
  {
    (if kind == Retracement then "Ret_" else "Ext_") + NatToString((ratio * 100.0).Floor as nat)
  }

  /** A retracement falls `ratio` of the swing below the high; an
      extension rises `ratio - 1` of the swing above it. */
  function LevelValue(kind: LevelKind, high: real, low: real, ratio: real): real
  {
    match kind
    case Retracement => high - (high - low) * ratio
    case Extension => high + (high - low) * (ratio - 1.0)
  }

  /** `{**retracements, **extensions}` over the retracement ratios 0.236,
      0.382, 0.5, 0.618, 0.786 and the extension ratios 1.272, 1.618, 2.0. */
  function LevelMap(high: real, low: real): map<string, real>
  {
    map[
      Label(Retracement, 0.236) := LevelValue(Retracement, high, low, 0.236),
      Label(Retracement, 0.382) := LevelValue(Retracement, high, low, 0.382),
      Label(Retracement, 0.5) := LevelValue(Retracement, high, low, 0.5),
      Label(Retracement, 0.618) := LevelValue(Retracement, high, low, 0.618),
      Label(Retracement, 0.786) := LevelValue(Retracement, high, low, 0.786),
      Label(Extension, 1.272) := LevelValue(Extension, high, low, 1.272),
      Label(Extension, 1.618) := LevelValue(Extension, high, low, 1.618),
      Label(Extension, 2.0) := LevelValue(Extension, high, low, 2.0)]
  }

  /** `df[column].tail(lookback)`: the last `lookback` rows, or for a
      negative lookback every row but the first `-lookback`. */
  function TailRows(s: seq<real>, lookback: int): (r: seq<real>)
    ensures |r| <= |s|
    ensures lookback >= 0 ==> |r| == if lookback < |s| then lookback else |s|
    ensures lookback < 0 ==> |r| == if -lookback < |s| then |s| + lookback else 0
    ensures forall i :: 0 <= i < |r| ==> r[i] == s[|s| - |r| + i]
  {
    if lookback >= 0 then (if lookback >= |s| then s else s[|s| - lookback..])
    else if -lookback >= |s| then []
    else s[-lookback..]
  }

  /** `compute_retracements`. The swing of an empty window has NaN bounds
      and NaN levels; that case is None. */
  function ComputeRetracements(xs: seq<real>, lookback: int): (r: Option<FibonacciLevels>)
    ensures r.None? <==> |TailRows(xs, lookback)| == 0
    ensures r.Some? ==>
              var w := TailRows(xs, lookback);
              r.value.baseLow == Min(w) && r.value.baseHigh == Max(w) && r.value.baseLow <= r.value.baseHigh &&
              r.value.levels == LevelMap(Max(w), Min(w))
  {
    var w := TailRows(xs, lookback);
    if |w| == 0 then None
    else
      var low := Min(w);
      var high := Max(w);
      Some(FibonacciLevels(LevelMap(high, low), high, low))
  }

  lemma RetracementLabels()
    ensures Label(Retracement, 0.236) == "Ret_23" && Label(Retracement, 0.382) == "Ret_38"
    ensures Label(Retracement, 0.5) == "Ret_50" && Label(Retracement, 0.618) == "Ret_61"
    ensures Label(Retracement, 0.786) == "Ret_78"
  {
    assert (0.236 * 100.0).Floor == 23 && NatToString(23) == "23";
    assert (0.382 * 100.0).Floor == 38 && NatToString(38) == "38";
    assert (0.5 * 100.0).Floor == 50 && NatToString(50) == "50";
    assert (0.618 * 100.0).Floor == 61 && NatToString(61) == "61";
    assert (0.786 * 100.0).Floor == 78 && NatToString(78) == "78";
  }

  lemma ExtensionLabels()
    ensures Label(Extension, 1.272) == "Ext_127" && Label(Extension, 1.618) == "Ext_161"
    ensures Label(Extension, 2.0) == "Ext_200"
  {
    assert (1.272 * 100.0).Floor == 127 && NatToString(127) == "127";
    assert (1.618 * 100.0).Floor == 161 && NatToString(161) == "161";
    assert (2.0 * 100.0).Floor == 200 && NatToString(200) == "200";
  }

  /** The eight labels and their values, written out: five retracements
      below the high and three extensions above it. */
  lemma LevelTable(h: real, l: real)
    ensures LevelMap(h, l) == map[
              "Ret_23" := h - (h - l) * 0.236,
              "Ret_38" := h - (h - l) * 0.382,
              "Ret_50" := h - (h - l) * 0.5,
              "Ret_61" := h - (h - l) * 0.618,
              "Ret_78" := h - (h - l) * 0.786,
              "Ext_127" := h + (h - l) * 0.272,
              "Ext_161" := h + (h - l) * 0.618,
              "Ext_200" := h + (h - l) * 1.0]
  {
    RetracementLabels();
    ExtensionLabels();
  }

  /** A retracement with a ratio in [0, 1] stays within the swing, and a
      larger ratio lies lower. */
  lemma RetracementWithinSwing(high: real, low: real, ratio: real, other: real)
    requires low <= high && 0.0 <= ratio <= other <= 1.0
    ensures low <= LevelValue(Retracement, high, low, other) <= LevelValue(Retracement, high, low, ratio) <= high
  {
    ScaleMono(high - low, ratio, other);
    ScaleMono(high - low, other, 1.0);
    ScaleMono(high - low, 0.0, ratio);
    assert LevelValue(Retracement, high, low, ratio) == high - (high - low) * ratio;
    assert LevelValue(Retracement, high, low, other) == high - (high - low) * other;
  }

  /** Scaling by a non-negative factor keeps the order. */
  lemma ScaleMono(d: real, a: real, b: real)
    requires d >= 0.0 && a <= b
    ensures d * a <= d * b
  {
    assert d * b - d * a == d * (b - a);
  }

  /** An extension with a ratio of at least 1 lies at or above the high. */
  lemma ExtensionAboveHigh(high: real, low: real, ratio: real)
    requires low <= high && ratio >= 1.0
    ensures LevelValue(Extension, high, low, ratio) >= high
  {
    assert (high - low) * (ratio - 1.0) >= 0.0;
  }

  /** The levels of `compute_retracements`: the retracements descend from
      the high to the low in ratio order, Ret_50 is the midpoint of the
      swing, the extensions rise above the high with Ext_200 at twice the
      swing above the low, and a flat window puts every level at its price. */
  lemma LevelOrdering(h: real, l: real)
    requires l <= h
    ensures var L := LevelMap(h, l);
            L.Keys == {"Ret_23", "Ret_38", "Ret_50", "Ret_61", "Ret_78", "Ext_127", "Ext_161", "Ext_200"} &&
            h >= L["Ret_23"] >= L["Ret_38"] >= L["Ret_50"] >= L["Ret_61"] >= L["Ret_78"] >= l &&
            L["Ret_50"] == (h + l) / 2.0 &&
            h <= L["Ext_127"] <= L["Ext_161"] <= L["Ext_200"] &&
            L["Ext_200"] == 2.0 * h - l &&
            (h == l ==> forall key :: key in L ==> L[key] == h)
  {
    LevelTable(h, l);
  }
}
