/** RSI, the stochastic oscillator and Williams %R
    (quantfinance/indicators/momentum.py). */
module MomentumIndicators {
  import opened Common
  import opened TrendIndicators

  // ---------------------------------------------------------------------
  // RSI

  /** `delta.where(delta > 0, 0.0)`: the first bar has no difference and
      contributes 0. */
  function Gains(xs: seq<real>): (r: seq<real>)
    ensures |r| == |xs| && forall i :: 0 <= i < |r| ==> r[i] >= 0.0
  {
    seq(|xs|, i requires 0 <= i < |xs| =>
      if i > 0 && xs[i] - xs[i - 1] > 0.0 then xs[i] - xs[i - 1] else 0.0)
  }

  /** `-delta.where(delta < 0, 0.0)`. */
  function Losses(xs: seq<real>): (r: seq<real>)
    ensures |r| == |xs| && forall i :: 0 <= i < |r| ==> r[i] >= 0.0
  {
    seq(|xs|, i requires 0 <= i < |xs| =>
      if i > 0 && xs[i] - xs[i - 1] < 0.0 then xs[i - 1] - xs[i] else 0.0)
  }

  /** One RSI value from the window's average gain and loss: a zero average
      loss becomes NA and is filled with 50. */
  function RsiValue(avgGain: real, avgLoss: real): real
    requires avgGain >= 0.0 && avgLoss >= 0.0
  {
    if avgLoss == 0.0 then 50.0 else 100.0 - 100.0 / (1.0 + avgGain / avgLoss)
  }

  /** `rsi(series, window)`: 50 before the first full window. */
  function Rsi(xs: seq<real>, window: nat): (r: seq<real>)
    requires window >= 1
    ensures |r| == |xs|
  {
    var g := Sma(Gains(xs), window);
    var l := Sma(Losses(xs), window);
    SmaNonNegative(Gains(xs), window);
    SmaNonNegative(Losses(xs), window);
    seq(|xs|, i requires 0 <= i < |xs| =>
      if g[i].None? || l[i].None? then 50.0 else RsiValue(g[i].value, l[i].value))
  }

  /** The window averages behind RSI at i (defined from i = window - 1). */
  function AvgGain(xs: seq<real>, window: nat, i: nat): real
    requires 1 <= window <= i + 1 <= |xs|
  {
    Mean(Gains(xs)[i + 1 - window..i + 1])
  }

  function AvgLoss(xs: seq<real>, window: nat, i: nat): real
    requires 1 <= window <= i + 1 <= |xs|
  {
    Mean(Losses(xs)[i + 1 - window..i + 1])
  }

  lemma AveragesNonNegative(xs: seq<real>, window: nat, i: nat)
    requires 1 <= window <= i + 1 <= |xs|
    ensures AvgGain(xs, window, i) >= 0.0 && AvgLoss(xs, window, i) >= 0.0
  {
    WindowMeanNonNegative(Gains(xs), i + 1 - window, i + 1);
    WindowMeanNonNegative(Losses(xs), i + 1 - window, i + 1);
  }

  lemma WindowMeanNonNegative(r: seq<real>, lo: nat, hi: nat)
    requires lo < hi <= |r| && forall k :: 0 <= k < |r| ==> r[k] >= 0.0
    ensures Mean(r[lo..hi]) >= 0.0
  {
    var w := r[lo..hi];
    MeanBetween(w, 0.0, Max(w));
  }

  lemma RsiValueRange(g: real, l: real)
    requires g >= 0.0 && l >= 0.0
    ensures 0.0 <= RsiValue(g, l) < 100.0
  {
    if l != 0.0 {
      RsiAsShare(g, l);
      DivUnit(g, g + l);
      assert 100.0 * g / (g + l) == 100.0 * (g / (g + l));
      assert g / (g + l) < 1.0 by {
        DivAdd(g, l, g + l);
        assert l / (g + l) > 0.0;
        assert (g + l) / (g + l) == 1.0;
      }
    }
  }

  /** RSI stays in [0, 100) and never reaches 100. */
  lemma RsiRange(xs: seq<real>, window: nat)
    requires window >= 1
    ensures forall i :: 0 <= i < |xs| ==> 0.0 <= Rsi(xs, window)[i] < 100.0
  {
    forall i | 0 <= i < |xs| ensures 0.0 <= Rsi(xs, window)[i] < 100.0 {
      if i + 1 >= window {
        RsiAt(xs, window, i);
        RsiValueRange(AvgGain(xs, window, i), AvgLoss(xs, window, i));
      }
    }
  }

  /** RSI is 50 before the first full window and wherever the window's
      average loss is 0 (an all-gain window included). */
  lemma RsiNeutral(xs: seq<real>, window: nat, i: nat)
    requires window >= 1 && i < |xs|
    requires i < window - 1 || AvgLoss(xs, window, i) == 0.0
    ensures Rsi(xs, window)[i] == 50.0
  {
    if i >= window - 1 {
      RsiAt(xs, window, i);
    }
  }

  /** Elsewhere RSI is the gain's share of total movement, 100 * G / (G + L). */
  lemma RsiShare(xs: seq<real>, window: nat, i: nat)
    requires window >= 1 && window - 1 <= i < |xs| && AvgLoss(xs, window, i) != 0.0
    ensures var g := AvgGain(xs, window, i);
            var l := AvgLoss(xs, window, i);
            g >= 0.0 && l > 0.0 && Rsi(xs, window)[i] == 100.0 * g / (g + l)
  {
    RsiAt(xs, window, i);
    RsiAsShare(AvgGain(xs, window, i), AvgLoss(xs, window, i));
  }

  /** From the first full window on, RSI is computed from the window averages. */
  lemma RsiAt(xs: seq<real>, window: nat, i: nat)
    requires window >= 1 && window - 1 <= i < |xs|
    ensures AvgGain(xs, window, i) >= 0.0 && AvgLoss(xs, window, i) >= 0.0
    ensures Rsi(xs, window)[i] == RsiValue(AvgGain(xs, window, i), AvgLoss(xs, window, i))
  {
    AveragesNonNegative(xs, window, i);
  }

  lemma DivAdd(a: real, b: real, s: real)
    requires s != 0.0
    ensures a / s + b / s == (a + b) / s
  {
  }

  lemma DivUnit(a: real, s: real)
    requires s > 0.0 && 0.0 <= a <= s
    ensures 0.0 <= a / s <= 1.0
  {
  }

  /** With a positive average loss, RSI = 100 * G / (G + L). */
  lemma RsiAsShare(g: real, l: real)
    requires g >= 0.0 && l > 0.0
    ensures RsiValue(g, l) == 100.0 * g / (g + l)
  {
    var rs := g / l;
    assert rs * l == g;
    assert (1.0 + rs) * l == l + g;
    var a := 100.0 / (1.0 + rs);
    assert a * (1.0 + rs) == 100.0;
    assert a * (l + g) == 100.0 * l;
    assert a == 100.0 * l / (l + g);
    DivAdd(100.0 * g, 100.0 * l, g + l);
    assert (100.0 * g + 100.0 * l) / (g + l) == 100.0;
    assert 100.0 * l / (l + g) == 100.0 * l / (g + l);
  }

  /** A flat series is neutral everywhere. */
  lemma RsiOfConstant(xs: seq<real>, window: nat, c: real)
    requires window >= 1 && forall i :: 0 <= i < |xs| ==> xs[i] == c
    ensures forall i :: 0 <= i < |xs| ==> Rsi(xs, window)[i] == 50.0
  {
    forall i | 0 <= i < |xs| ensures Rsi(xs, window)[i] == 50.0 {
      if i + 1 >= window {
        var l := Losses(xs)[i + 1 - window..i + 1];
        MeanOfConstant(l, 0.0);
      }
    }
  }

  // ---------------------------------------------------------------------
  // Stochastic oscillator and Williams %R

  /** Lowest low and highest high of the window ending at i. */
  function LowestLow(low: seq<real>, window: nat, i: nat): real
    requires 1 <= window <= i + 1 <= |low|
  {
    Min(low[i + 1 - window..i + 1])
  }

  function HighestHigh(high: seq<real>, window: nat, i: nat): real
    requires 1 <= window <= i + 1 <= |high|
  {
    Max(high[i + 1 - window..i + 1])
  }

  /** %K of one bar: where the close sits in the window's range, in percent. */
  function KValue(close: real, ll: real, hh: real): real
    requires hh != ll
  {
    ((close - ll) / (hh - ll)) * 100.0
  }

  /** %R of one bar: how far the close is below the window's high, in negative percent. */
  function RValue(close: real, ll: real, hh: real): real
    requires hh != ll
  {
    ((hh - close) / (hh - ll)) * -100.0
  }

  /** %R is %K minus 100. */
  lemma RValueIsShiftedK(close: real, ll: real, hh: real)
    requires hh != ll
    ensures RValue(close, ll, hh) == KValue(close, ll, hh) - 100.0
  {
    var d := hh - ll;
    var k := (close - ll) / d;
    var r := (hh - close) / d;
    DivAdd(close - ll, hh - close, d);
    assert close - ll + (hh - close) == d;
    assert d / d == 1.0;
    assert r == 1.0 - k;
  }

  /** A close inside the range gives %K in [0, 100]. */
  lemma KValueRange(close: real, ll: real, hh: real)
    requires ll <= close <= hh && ll != hh
    ensures 0.0 <= KValue(close, ll, hh) <= 100.0
  {
    DivUnit(close - ll, hh - ll);
  }

  /** %K: 100*(close - LL)/(HH - LL). Undefined before the window fills and
      where HH = LL (pandas yields NaN or an infinity there). */
  function PercentK(high: seq<real>, low: seq<real>, close: seq<real>, window: nat): (r: seq<Option<real>>)
    requires |high| == |low| == |close| && window >= 1
    ensures |r| == |close|
  {
    seq(|close|, i requires 0 <= i < |close| =>
      if i + 1 < window then None
      else
        var ll := LowestLow(low, window, i);
        var hh := HighestHigh(high, window, i);
        if hh == ll then None else Some(KValue(close[i], ll, hh)))
  }

  /** %D: the 3-bar mean of %K, defined where all three are. */
  function PercentD(k: seq<Option<real>>): (r: seq<Option<real>>)
    ensures |r| == |k|
  {
    seq(|k|, i requires 0 <= i < |k| =>
      if i < 2 || k[i - 2].None? || k[i - 1].None? || k[i].None? then None
      else Some((k[i - 2].value + k[i - 1].value + k[i].value) / 3.0))
  }

  datatype Stochastic = Stochastic(k: seq<Option<real>>, d: seq<Option<real>>)

  function StochasticOscillator(high: seq<real>, low: seq<real>, close: seq<real>, window: nat): (r: Stochastic)
    requires |high| == |low| == |close| && window >= 1
    ensures |r.k| == |r.d| == |close|
  {
    var k := PercentK(high, low, close, window);
    Stochastic(k, PercentD(k))
  }

  /** `williams_r`: -100*(HH - close)/(HH - LL). */
  function WilliamsR(high: seq<real>, low: seq<real>, close: seq<real>, window: nat): (r: seq<Option<real>>)
    requires |high| == |low| == |close| && window >= 1
    ensures |r| == |close|
  {
    seq(|close|, i requires 0 <= i < |close| =>
      if i + 1 < window then None
      else
        var ll := LowestLow(low, window, i);
        var hh := HighestHigh(high, window, i);
        if hh == ll then None else Some(RValue(close[i], ll, hh)))
  }

  /** Williams %R is %K shifted down by 100 on the same window. */
  lemma WilliamsIsShiftedK(high: seq<real>, low: seq<real>, close: seq<real>, window: nat, i: nat)
    requires |high| == |low| == |close| && window >= 1 && i < |close|
    ensures var k := PercentK(high, low, close, window)[i];
            var r := WilliamsR(high, low, close, window)[i];
            k.Some? == r.Some? && (k.Some? ==> r.value == k.value - 100.0)
  {
    if i + 1 >= window {
      var ll := LowestLow(low, window, i);
      var hh := HighestHigh(high, window, i);
      if hh != ll {
        RValueIsShiftedK(close[i], ll, hh);
      }
    }
  }

  /** Bars with low <= close <= high keep %K in [0, 100] and %R in [-100, 0]. */
  lemma OscillatorBounds(high: seq<real>, low: seq<real>, close: seq<real>, window: nat, i: nat)
    requires |high| == |low| == |close| && window >= 1 && i < |close|
    requires forall j :: 0 <= j < |close| ==> low[j] <= close[j] <= high[j]
    ensures var k := PercentK(high, low, close, window)[i];
            k.Some? ==> 0.0 <= k.value <= 100.0
    ensures var r := WilliamsR(high, low, close, window)[i];
            r.Some? ==> -100.0 <= r.value <= 0.0
  {
    if i + 1 >= window {
      var ll := LowestLow(low, window, i);
      var hh := HighestHigh(high, window, i);
      assert low[i + 1 - window..i + 1][window - 1] == low[i];
      assert high[i + 1 - window..i + 1][window - 1] == high[i];
      if hh != ll {
        KValueRange(close[i], ll, hh);
        RValueIsShiftedK(close[i], ll, hh);
      }
    }
  }
}
