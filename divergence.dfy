/** RSI divergences against price (quantfinance/analysis/divergence.py).
    Timestamps are day numbers. */
module Divergence {
  import opened Common
  import opened Levels

  /** `DivergenceSignal`: the kind ("bullish" or "bearish") and the later
      pivot's timestamp, price and RSI value. */
  datatype DivergenceSignal = DivergenceSignal(kind: string, priceIndex: int, priceLevel: real, indicatorLevel: real)

  /** One row of `prices.dropna()` with the RSI at the same timestamp. */
  datatype Bar = Bar(date: int, price: real, rsi: real)

  datatype Kind = Bullish | Bearish

  function KindName(kind: Kind): string
  {
    if kind == Bullish then "bullish" else "bearish"
  }

  /** `prices.dropna()` joined with `rsi.loc[prices.index]`; the RSI is
      required wherever the price is present, so the two stay aligned. */
  function CleanBars(dates: seq<int>, prices: seq<Option<real>>, rsi: seq<Option<real>>): (r: seq<Bar>)
    requires |dates| == |prices| == |rsi|
    requires forall i :: 0 <= i < |prices| && prices[i].Some? ==> rsi[i].Some?
    ensures |r| <= |prices|
  {
    if |prices| == 0 then []
    else
      var n := |prices| - 1;
      CleanBars(dates[..n], prices[..n], rsi[..n]) +
        (if prices[n].Some? then [Bar(dates[n], prices[n].value, rsi[n].value)] else [])
  }

  function Prices(bars: seq<Bar>): (r: seq<real>)
    ensures |r| == |bars| && forall i :: 0 <= i < |bars| ==> r[i] == bars[i].price
  {
    seq(|bars|, i requires 0 <= i < |bars| => bars[i].price)
  }

  /** `_extrema`: pivot positions of the cleaned price series. */
  function Pivots(bars: seq<Bar>, order: nat, kind: Kind): (r: seq<nat>)
    requires order >= 1
    ensures forall k :: 0 <= k < |r| ==> r[k] < |bars|
    ensures forall k, l :: 0 <= k < l < |r| ==> r[k] < r[l]
  {
    ExtremaIndices(Prices(bars), order, if kind == Bullish then LessEqual else GreaterEqual, |bars|)
  }

  /** Adjacent pivots i1 < i2 diverge when they are at least `minDistance`
      apart and price and RSI move in opposite directions: a lower low with
      a higher RSI (bullish) or a higher high with a lower RSI (bearish). */
  predicate Diverges(bars: seq<Bar>, i1: nat, i2: nat, minDistance: int, kind: Kind)
    requires i1 < |bars| && i2 < |bars|
  {
    i2 - i1 >= minDistance &&
    match kind
    case Bullish => bars[i2].price < bars[i1].price && bars[i2].rsi > bars[i1].rsi
    case Bearish => bars[i2].price > bars[i1].price && bars[i2].rsi < bars[i1].rsi
  }

  function SignalAt(bars: seq<Bar>, i: nat, kind: Kind): DivergenceSignal
    requires i < |bars|
  {
    DivergenceSignal(KindName(kind), bars[i].date, bars[i].price, bars[i].rsi)
  }

  predicate InBars(bars: seq<Bar>, piv: seq<nat>)
  {
    forall k :: 0 <= k < |piv| ==> piv[k] < |bars|
  }

  /** The signals of one kind, pair by adjacent pair in pivot order. */
  function Signals(bars: seq<Bar>, piv: seq<nat>, minDistance: int, kind: Kind): seq<DivergenceSignal>
    requires InBars(bars, piv)
  {
    if |piv| < 2 then []
    else
      var n := |piv| - 1;
      Signals(bars, piv[..n], minDistance, kind) +
        (if Diverges(bars, piv[n - 1], piv[n], minDistance, kind) then [SignalAt(bars, piv[n], kind)] else [])
  }

  /** One of the two loops of `detect_rsi_divergences`: over
      `zip(piv[:-1], piv[1:])`, skipping close pairs and appending a signal
      for each diverging pair. */
  method ScanPairs(bars: seq<Bar>, piv: seq<nat>, minDistance: int, kind: Kind) returns (out: seq<DivergenceSignal>)
    requires InBars(bars, piv)
    ensures out == Signals(bars, piv, minDistance, kind)
  {
    out := [];
    if |piv| < 2 {
      return;
    }
    var k := 1;
    while k < |piv|
      invariant 1 <= k <= |piv|
      invariant out == Signals(bars, piv[..k], minDistance, kind)
    {
      var idx1 := piv[k - 1];
      var idx2 := piv[k];
      assert piv[..k + 1][..k] == piv[..k];
      if idx2 - idx1 < minDistance {
        k := k + 1;
        continue;
      }
      if bars[idx2].price < bars[idx1].price && bars[idx2].rsi > bars[idx1].rsi && kind == Bullish {
        out := out + [SignalAt(bars, idx2, kind)];
      } else if bars[idx2].price > bars[idx1].price && bars[idx2].rsi < bars[idx1].rsi && kind == Bearish {
        out := out + [SignalAt(bars, idx2, kind)];
      }
      k := k + 1;
    }
    assert piv[..k] == piv;
  }

  function Divergences(dates: seq<int>, prices: seq<Option<real>>, rsi: seq<Option<real>>, order: nat, minDistance: int): seq<DivergenceSignal>
    requires |dates| == |prices| == |rsi| && order >= 1
    requires forall i :: 0 <= i < |prices| && prices[i].Some? ==> rsi[i].Some?
  {
    var bars := CleanBars(dates, prices, rsi);
    Signals(bars, Pivots(bars, order, Bullish), minDistance, Bullish) +
      Signals(bars, Pivots(bars, order, Bearish), minDistance, Bearish)
  }

  /** `detect_rsi_divergences`: every bullish signal, then every bearish one. */
  method DetectRsiDivergences(dates: seq<int>, prices: seq<Option<real>>, rsi: seq<Option<real>>, order: nat, minDistance: int)
    returns (r: seq<DivergenceSignal>)
    requires |dates| == |prices| == |rsi| && order >= 1
    requires forall i :: 0 <= i < |prices| && prices[i].Some? ==> rsi[i].Some?
    ensures r == Divergences(dates, prices, rsi, order, minDistance)
  {
    var bars := CleanBars(dates, prices, rsi);
    var lows := Pivots(bars, order, Bullish);
    var highs := Pivots(bars, order, Bearish);
    var bullish := ScanPairs(bars, lows, minDistance, Bullish);
    var bearish := ScanPairs(bars, highs, minDistance, Bearish);
    r := bullish + bearish;
  }

  /** Fewer than two pivots give no signal; otherwise at most one signal
      per adjacent pair. */
  lemma {:induction false} SignalsCount(bars: seq<Bar>, piv: seq<nat>, minDistance: int, kind: Kind)
    requires InBars(bars, piv)
    ensures |piv| < 2 ==> Signals(bars, piv, minDistance, kind) == []
    ensures |piv| >= 1 ==> |Signals(bars, piv, minDistance, kind)| <= |piv| - 1
  {
    if |piv| >= 2 {
      SignalsCount(bars, piv[..|piv| - 1], minDistance, kind);
    }
  }

  /** Every signal comes from an adjacent diverging pair and carries the
      later pivot's date, price and RSI. */
  lemma {:induction false} SignalsSound(bars: seq<Bar>, piv: seq<nat>, minDistance: int, kind: Kind, j: nat)
    requires InBars(bars, piv) && j < |Signals(bars, piv, minDistance, kind)|
    ensures exists k :: 0 <= k < |piv| - 1 && Diverges(bars, piv[k], piv[k + 1], minDistance, kind) &&
                        Signals(bars, piv, minDistance, kind)[j] == SignalAt(bars, piv[k + 1], kind)
  {
    var n := |piv| - 1;
    var prev := Signals(bars, piv[..n], minDistance, kind);
    if j < |prev| {
      SignalsSound(bars, piv[..n], minDistance, kind, j);
      var k :| 0 <= k < n - 1 && Diverges(bars, piv[..n][k], piv[..n][k + 1], minDistance, kind) &&
                prev[j] == SignalAt(bars, piv[..n][k + 1], kind);
      assert piv[..n][k] == piv[k] && piv[..n][k + 1] == piv[k + 1];
    } else {
      assert Signals(bars, piv, minDistance, kind)[j] == SignalAt(bars, piv[n], kind);
      assert Diverges(bars, piv[n - 1], piv[n], minDistance, kind);
    }
  }

  /** Every adjacent diverging pair yields a signal; a pair that is too
      close is skipped and never bridged to a later pivot. */
  lemma {:induction false} SignalsComplete(bars: seq<Bar>, piv: seq<nat>, minDistance: int, kind: Kind, k: nat)
    requires InBars(bars, piv) && k + 1 < |piv| && Diverges(bars, piv[k], piv[k + 1], minDistance, kind)
    ensures SignalAt(bars, piv[k + 1], kind) in Signals(bars, piv, minDistance, kind)
  {
    var n := |piv| - 1;
    if k + 1 < n {
      SignalsComplete(bars, piv[..n], minDistance, kind, k);
    }
  }

  /** No signal is dated after the last pivot. */
  lemma {:induction false} SignalsNotAfterLast(bars: seq<Bar>, piv: seq<nat>, minDistance: int, kind: Kind, i: nat)
    requires InBars(bars, piv) && |piv| > 0 && forall k, l :: 0 <= k < l < |piv| ==> piv[k] < piv[l]
    requires forall a, b :: 0 <= a < b < |bars| ==> bars[a].date < bars[b].date
    requires i < |Signals(bars, piv, minDistance, kind)|
    ensures Signals(bars, piv, minDistance, kind)[i].priceIndex <= bars[piv[|piv| - 1]].date
  {
    var n := |piv| - 1;
    var prev := Signals(bars, piv[..n], minDistance, kind);
    if i < |prev| {
      SignalsNotAfterLast(bars, piv[..n], minDistance, kind, i);
      assert piv[..n][n - 1] == piv[n - 1] && piv[n - 1] < piv[n];
    }
  }

  /** Over strictly increasing dates and pivots, the signals of one kind
      come in strictly increasing date order. */
  lemma {:induction false} SignalsOrdered(bars: seq<Bar>, piv: seq<nat>, minDistance: int, kind: Kind)
    requires InBars(bars, piv) && forall k, l :: 0 <= k < l < |piv| ==> piv[k] < piv[l]
    requires forall a, b :: 0 <= a < b < |bars| ==> bars[a].date < bars[b].date
    ensures forall i, j :: 0 <= i < j < |Signals(bars, piv, minDistance, kind)| ==>
              Signals(bars, piv, minDistance, kind)[i].priceIndex < Signals(bars, piv, minDistance, kind)[j].priceIndex
  {
    if |piv| >= 2 {
      var n := |piv| - 1;
      var s := Signals(bars, piv, minDistance, kind);
      var prev := Signals(bars, piv[..n], minDistance, kind);
      SignalsOrdered(bars, piv[..n], minDistance, kind);
      forall i, j | 0 <= i < j < |s| ensures s[i].priceIndex < s[j].priceIndex {
        if j < |prev| {
          assert s[i] == prev[i] && s[j] == prev[j];
        } else {
          assert s[i] == prev[i] && s[j] == SignalAt(bars, piv[n], kind);
          SignalsNotAfterLast(bars, piv[..n], minDistance, kind, i);
          assert piv[..n][n - 1] == piv[n - 1] && piv[n - 1] < piv[n];
          assert prev[i].priceIndex <= bars[piv[n - 1]].date;
          assert bars[piv[n - 1]].date < bars[piv[n]].date;
        }
      }
    }
  }

  /** Every signal of one kind carries that kind's name. */
  lemma {:induction false} SignalsKind(bars: seq<Bar>, piv: seq<nat>, minDistance: int, kind: Kind)
    requires InBars(bars, piv)
    ensures forall i :: 0 <= i < |Signals(bars, piv, minDistance, kind)| ==>
              Signals(bars, piv, minDistance, kind)[i].kind == KindName(kind)
  {
    if |piv| >= 2 {
      SignalsKind(bars, piv[..|piv| - 1], minDistance, kind);
    }
  }

  /** The result lists every bullish signal before every bearish one. */
  lemma BullishFirst(dates: seq<int>, prices: seq<Option<real>>, rsi: seq<Option<real>>, order: nat, minDistance: int)
    requires |dates| == |prices| == |rsi| && order >= 1
    requires forall i :: 0 <= i < |prices| && prices[i].Some? ==> rsi[i].Some?
    ensures var r := Divergences(dates, prices, rsi, order, minDistance);
            forall i, j :: 0 <= i < j < |r| && r[j].kind == "bullish" ==> r[i].kind == "bullish"
  {
    var bars := CleanBars(dates, prices, rsi);
    var lows := Pivots(bars, order, Bullish);
    var highs := Pivots(bars, order, Bearish);
    SignalsKind(bars, lows, minDistance, Bullish);
    SignalsKind(bars, highs, minDistance, Bearish);
    var b := Signals(bars, lows, minDistance, Bullish);
    var r := Divergences(dates, prices, rsi, order, minDistance);
    forall i, j | 0 <= i < j < |r| && r[j].kind == "bullish" ensures r[i].kind == "bullish" {
      if j >= |b| {
        assert false;
      }
    }
  }
}
