/** Bollinger bands and the Keltner channel
    (quantfinance/indicators/volatility.py). The rolling standard deviation
    involves a square root and is taken as an input series. */
module VolatilityIndicators {
  import opened Common
  import opened TrendIndicators

  datatype Bands = Bands(middle: seq<Option<real>>, upper: seq<Option<real>>, lower: seq<Option<real>>)

  /** A rolling standard deviation: never negative where defined. */
  predicate IsDeviation(std: seq<Option<real>>)
  {
    forall i :: 0 <= i < |std| && std[i].Some? ==> std[i].value >= 0.0
  }

  function Offset(m: Option<real>, d: Option<real>, k: real): Option<real>
  {
    if m.Some? && d.Some? then Some(m.value + d.value * k) else None
  }

  /** `bollinger_bands(series, window, num_std)`, with `std` the series'
      rolling standard deviation over the same window. */
  function BollingerBands(xs: seq<real>, window: nat, numStd: real, std: seq<Option<real>>): (r: Bands)
    requires window >= 1 && |std| == |xs|
    ensures |r.middle| == |r.upper| == |r.lower| == |xs|
  {
    var mid := Sma(xs, window);
    Bands(mid,
          seq(|xs|, i requires 0 <= i < |xs| => Offset(mid[i], std[i], numStd)),
          seq(|xs|, i requires 0 <= i < |xs| => Offset(mid[i], std[i], -numStd)))
  }

  /** The middle band is the SMA; the outer bands sit num_std deviations
      above and below it, symmetrically, and in order when num_std >= 0. */
  lemma BollingerSymmetric(xs: seq<real>, window: nat, numStd: real, std: seq<Option<real>>, i: nat)
    requires window >= 1 && |std| == |xs| && IsDeviation(std) && i < |xs|
    ensures var b := BollingerBands(xs, window, numStd, std);
            b.middle == Sma(xs, window) &&
            (b.upper[i].Some? <==> b.middle[i].Some? && std[i].Some?) &&
            b.upper[i].Some? == b.lower[i].Some? &&
            (b.upper[i].Some? ==>
               b.upper[i].value - b.middle[i].value == numStd * std[i].value &&
               b.middle[i].value - b.lower[i].value == numStd * std[i].value &&
               (numStd >= 0.0 ==> b.upper[i].value >= b.lower[i].value))
  {
    var b := BollingerBands(xs, window, numStd, std);
    if b.upper[i].Some? && numStd >= 0.0 {
      assert numStd * std[i].value >= 0.0;
    }
  }

  /** `keltner_channel`: EMA middle line, bands at +/- multiplier times the
      rolling mean of (high - low). */
  function KeltnerChannel(close: seq<real>, high: seq<real>, low: seq<real>, window: nat, multiplier: real): (r: Bands)
    requires |close| == |high| == |low| && window >= 1
    ensures |r.middle| == |r.upper| == |r.lower| == |close|
  {
    var mid := Ema(close, window);
    var range := Sma(Minus(high, low), window);
    Bands(Wrap(mid),
          seq(|close|, i requires 0 <= i < |close| =>
            if range[i].Some? then Some(mid[i] + multiplier * range[i].value) else None),
          seq(|close|, i requires 0 <= i < |close| =>
            if range[i].Some? then Some(mid[i] - multiplier * range[i].value) else None))
  }

  /** With high >= low and a non-negative multiplier the channel is
      symmetric about the EMA and never inverted. */
  lemma KeltnerOrdered(close: seq<real>, high: seq<real>, low: seq<real>, window: nat, multiplier: real, i: nat)
    requires |close| == |high| == |low| && window >= 1 && i < |close|
    requires multiplier >= 0.0 && forall j :: 0 <= j < |high| ==> high[j] >= low[j]
    ensures var k := KeltnerChannel(close, high, low, window, multiplier);
            k.middle[i] == Some(Ema(close, window)[i]) &&
            (k.upper[i].Some? <==> i >= window - 1) &&
            (k.upper[i].Some? ==>
               k.lower[i].Some? &&
               k.upper[i].value - k.middle[i].value == k.middle[i].value - k.lower[i].value &&
               k.upper[i].value >= k.lower[i].value)
  {
    var d := Minus(high, low);
    SmaNonNegative(d, window);
    var range := Sma(d, window);
    if range[i].Some? {
      assert multiplier * range[i].value >= 0.0;
    }
  }
}
