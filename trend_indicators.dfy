/** Moving averages, MACD and the average true range
    (quantfinance/indicators/trend.py). A series is a `seq<real>`; a
    position pandas leaves as NaN is `None`. */
module TrendIndicators {
  import opened Common

  // ---------------------------------------------------------------------
  // Simple moving average

  /** `series.rolling(window, min_periods=window).mean()`: undefined until
      the window has filled, then the mean of the window ending at i. */
  function Sma(xs: seq<real>, window: nat): (r: seq<Option<real>>)
    requires window >= 1
    ensures |r| == |xs|
    ensures forall i :: 0 <= i < |xs| ==> (r[i].None? <==> i < window - 1)
  {
    seq(|xs|, i requires 0 <= i < |xs| =>
      if i + 1 < window then None else Some(Mean(xs[i + 1 - window..i + 1])))
  }

  /** A defined SMA value lies between the smallest and the largest value
      of its window. */
  lemma SmaWithinWindow(xs: seq<real>, window: nat, i: nat)
    requires window >= 1 && window - 1 <= i < |xs|
    ensures var w := xs[i + 1 - window..i + 1];
            Sma(xs, window)[i] == Some(Mean(w)) && Min(w) <= Mean(w) <= Max(w)
  {
    MeanBounds(xs[i + 1 - window..i + 1]);
  }

  /** Values in [lo, hi] give SMA values in [lo, hi]. */
  lemma SmaBetween(xs: seq<real>, window: nat, lo: real, hi: real)
    requires window >= 1 && Between(xs, lo, hi)
    ensures forall i :: window - 1 <= i < |xs| ==>
              Sma(xs, window)[i].Some? && lo <= Sma(xs, window)[i].value <= hi
  {
    forall i | window - 1 <= i < |xs|
      ensures Sma(xs, window)[i].Some? && lo <= Sma(xs, window)[i].value <= hi
    {
      var w := xs[i + 1 - window..i + 1];
      assert Between(w, lo, hi) by {
        forall k | 0 <= k < |w| ensures lo <= w[k] <= hi { assert w[k] == xs[i + 1 - window + k]; }
      }
      MeanBetween(w, lo, hi);
    }
  }

  /** Non-negative values give non-negative SMA values. */
  lemma SmaNonNegative(xs: seq<real>, window: nat)
    requires window >= 1 && forall i :: 0 <= i < |xs| ==> xs[i] >= 0.0
    ensures forall i :: 0 <= i < |xs| && Sma(xs, window)[i].Some? ==> Sma(xs, window)[i].value >= 0.0
  {
    var big := Max(xs + [0.0]);
    assert Between(xs, 0.0, big) by {
      forall i | 0 <= i < |xs| ensures 0.0 <= xs[i] <= big { assert (xs + [0.0])[i] == xs[i]; }
    }
    SmaBetween(xs, window, 0.0, big);
  }

  // ---------------------------------------------------------------------
  // Exponential moving average (adjust=False)

  /** The smoothing factor pandas derives from `span`: 2 / (span + 1). */
  function SpanAlpha(span: nat): (a: real)
    requires span >= 1
    ensures 0.0 < a <= 1.0
  {
    2.0 / (span as real + 1.0)
  }

  /** `ewm(alpha, adjust=False).mean()`: e0 = x0, et = alpha*xt + (1-alpha)*e(t-1). */
  function EmaAlpha(xs: seq<real>, alpha: real): (r: seq<real>)
    ensures |r| == |xs|
  {
    if |xs| == 0 then []
    else if |xs| == 1 then [xs[0]]
    else
      var p := EmaAlpha(xs[..|xs| - 1], alpha);
      p + [alpha * xs[|xs| - 1] + (1.0 - alpha) * p[|p| - 1]]
  }

  /** `series.ewm(span=window, adjust=False).mean()`. */
  function Ema(xs: seq<real>, window: nat): (r: seq<real>)
    requires window >= 1
    ensures |r| == |xs|
  {
    EmaAlpha(xs, SpanAlpha(window))
  }

  /** The EMA of a prefix is the prefix of the EMA: each value depends only
      on the past. */
  lemma {:induction false} EmaPrefix(xs: seq<real>, alpha: real, k: nat)
    requires k <= |xs|
    ensures EmaAlpha(xs, alpha)[..k] == EmaAlpha(xs[..k], alpha)
    decreases |xs|
  {
    if k < |xs| {
      var p := xs[..|xs| - 1];
      EmaPrefix(p, alpha, k);
      assert p[..k] == xs[..k];
      if |xs| == 1 {
        assert k == 0;
      } else {
        assert EmaAlpha(xs, alpha)[..k] == EmaAlpha(p, alpha)[..k];
      }
    } else {
      assert xs[..k] == xs;
    }
  }

  /** The recursion, stated position by position. */
  lemma EmaRecurrence(xs: seq<real>, alpha: real, t: nat)
    requires 0 < t < |xs|
    ensures EmaAlpha(xs, alpha)[0] == xs[0]
    ensures EmaAlpha(xs, alpha)[t] ==
            alpha * xs[t] + (1.0 - alpha) * EmaAlpha(xs, alpha)[t - 1]
  {
    EmaPrefix(xs, alpha, t + 1);
    EmaPrefix(xs, alpha, 1);
    var q := xs[..t + 1];
    assert q[..|q| - 1] == xs[..t];
    EmaPrefix(xs, alpha, t);
    assert EmaAlpha(xs, alpha)[..t + 1][t] == EmaAlpha(xs, alpha)[t];
    assert EmaAlpha(xs, alpha)[..t][t - 1] == EmaAlpha(xs, alpha)[t - 1];
    assert EmaAlpha(xs, alpha)[..1][0] == EmaAlpha(xs, alpha)[0];
    assert xs[..1] == [xs[0]];
  }

  lemma Convex(a: real, b: real, alpha: real, lo: real, hi: real)
    requires 0.0 <= alpha <= 1.0 && lo <= a <= hi && lo <= b <= hi
    ensures lo <= alpha * a + (1.0 - alpha) * b <= hi
  {
    assert alpha * (a - lo) >= 0.0;
    assert (1.0 - alpha) * (b - lo) >= 0.0;
    assert alpha * (hi - a) >= 0.0;
    assert (1.0 - alpha) * (hi - b) >= 0.0;
  }

  /** Smoothing never leaves the range of its input. */
  lemma {:induction false} EmaBetween(xs: seq<real>, alpha: real, lo: real, hi: real)
    requires 0.0 <= alpha <= 1.0 && Between(xs, lo, hi)
    ensures Between(EmaAlpha(xs, alpha), lo, hi)
  {
    if |xs| > 1 {
      var p := xs[..|xs| - 1];
      assert Between(p, lo, hi) by {
        forall i | 0 <= i < |p| ensures lo <= p[i] <= hi { assert p[i] == xs[i]; }
      }
      EmaBetween(p, alpha, lo, hi);
      var e := EmaAlpha(p, alpha);
      Convex(xs[|xs| - 1], e[|e| - 1], alpha, lo, hi);
    }
  }

  /** Each EMA value lies between the minimum and the maximum of the input
      seen so far. */
  lemma EmaWithinHistory(xs: seq<real>, window: nat, t: nat)
    requires window >= 1 && t < |xs|
    ensures Min(xs[..t + 1]) <= Ema(xs, window)[t] <= Max(xs[..t + 1])
  {
    var h := xs[..t + 1];
    var alpha := SpanAlpha(window);
    EmaBetween(h, alpha, Min(h), Max(h));
    EmaPrefix(xs, alpha, t + 1);
    assert EmaAlpha(xs, alpha)[..t + 1][t] == EmaAlpha(xs, alpha)[t];
  }

  /** A constant input gives a constant EMA. */
  lemma EmaOfConstant(xs: seq<real>, window: nat, c: real)
    requires window >= 1 && forall i :: 0 <= i < |xs| ==> xs[i] == c
    ensures forall i :: 0 <= i < |xs| ==> Ema(xs, window)[i] == c
  {
    EmaBetween(xs, SpanAlpha(window), c, c);
  }

  // ---------------------------------------------------------------------
  // MACD

  datatype MacdLines = MacdLines(macd: seq<real>, signal: seq<real>, histogram: seq<real>)

  function Minus(a: seq<real>, b: seq<real>): (r: seq<real>)
    requires |a| == |b|
    ensures |r| == |a| && forall i :: 0 <= i < |a| ==> r[i] == a[i] - b[i]
  {
    seq(|a|, i requires 0 <= i < |a| => a[i] - b[i])
  }

  /** `macd(series, 12, 26, 9)`. */
  function Macd(xs: seq<real>, shortWindow: nat, longWindow: nat, signalWindow: nat): (r: MacdLines)
    requires shortWindow >= 1 && longWindow >= 1 && signalWindow >= 1
    ensures |r.macd| == |r.signal| == |r.histogram| == |xs|
  {
    var line := Minus(Ema(xs, shortWindow), Ema(xs, longWindow));
    var signal := Ema(line, signalWindow);
    MacdLines(line, signal, Minus(line, signal))
  }

  /** Histogram is exactly MACD minus Signal, and Signal is the EMA of MACD. */
  lemma MacdHistogramIsGap(xs: seq<real>, i: nat)
    requires i < |xs|
    ensures var r := Macd(xs, 12, 26, 9);
            r.histogram[i] == r.macd[i] - r.signal[i] &&
            r.macd[i] == Ema(xs, 12)[i] - Ema(xs, 26)[i] &&
            r.signal == Ema(r.macd, 9)
  {
  }

  /** A flat price has no momentum: all three MACD lines are zero. */
  lemma MacdOfConstant(xs: seq<real>, c: real)
    requires forall i :: 0 <= i < |xs| ==> xs[i] == c
    ensures var r := Macd(xs, 12, 26, 9);
            forall i :: 0 <= i < |xs| ==> r.macd[i] == 0.0 && r.signal[i] == 0.0 && r.histogram[i] == 0.0
  {
    EmaOfConstant(xs, 12, c);
    EmaOfConstant(xs, 26, c);
    var line := Minus(Ema(xs, 12), Ema(xs, 26));
    EmaOfConstant(line, 9, 0.0);
  }

  // ---------------------------------------------------------------------
  // True range and ATR

  function Max3(a: real, b: real, c: real): real
  {
    if a >= b && a >= c then a else if b >= c then b else c
  }

  /** Per bar: max(high-low, |high-prev close|, |low-prev close|); the first
      bar has no previous close and pandas' NaN-skipping max leaves high-low. */
  function TrueRange(high: seq<real>, low: seq<real>, close: seq<real>): (r: seq<real>)
    requires |high| == |low| == |close|
    ensures |r| == |high|
    ensures forall i :: 0 <= i < |r| ==> r[i] >= high[i] - low[i]
    ensures |r| > 0 ==> r[0] == high[0] - low[0]
  {
    seq(|high|, i requires 0 <= i < |high| =>
      if i == 0 then high[0] - low[0]
      else Max3(high[i] - low[i], Abs(high[i] - close[i - 1]), Abs(low[i] - close[i - 1])))
  }

  /** A previous close inside the current bar's range leaves the range as
      the true range; a gap beyond it widens it. */
  lemma TrueRangeGap(high: seq<real>, low: seq<real>, close: seq<real>, i: nat)
    requires |high| == |low| == |close| && 0 < i < |high| && low[i] <= high[i]
    ensures var tr := TrueRange(high, low, close)[i];
            (low[i] <= close[i - 1] <= high[i] ==> tr == high[i] - low[i]) &&
            (close[i - 1] > high[i] ==> tr == close[i - 1] - low[i]) &&
            (close[i - 1] < low[i] ==> tr == high[i] - close[i - 1])
  {
  }

  /** `average_true_range`: the SMA of the true range. */
  function AverageTrueRange(high: seq<real>, low: seq<real>, close: seq<real>, window: nat): (r: seq<Option<real>>)
    requires |high| == |low| == |close| && window >= 1
    ensures |r| == |high|
  {
    Sma(TrueRange(high, low, close), window)
  }

  /** The ATR is undefined until the window fills and then never negative
      (given a well-formed first bar). */
  lemma AtrNonNegative(high: seq<real>, low: seq<real>, close: seq<real>, window: nat)
    requires |high| == |low| == |close| && window >= 1
    requires |high| > 0 ==> low[0] <= high[0]
    ensures var atr := AverageTrueRange(high, low, close, window);
            forall i :: 0 <= i < |atr| ==>
              (atr[i].None? <==> i < window - 1) && (atr[i].Some? ==> atr[i].value >= 0.0)
  {
    SmaNonNegative(TrueRange(high, low, close), window);
  }
}
