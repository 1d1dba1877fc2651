/** Trend diagnosis and breakouts (quantfinance/analysis/trend.py). */
module TrendAnalysis {
  import opened Common
  import opened TrendIndicators

  datatype TrendSnapshot = TrendSnapshot(
    direction: string,
    slopeShort: real,
    slopeMedium: real,
    slopeLong: real,
    crossover: string)

  // ---------------------------------------------------------------------
  // Least-squares slope against x = 0, 1, ..., n - 1

  /** The sum of i * y[i]. */
  function SumXY(y: seq<real>): real
  {
    if |y| == 0 then 0.0 else SumXY(y[..|y| - 1]) + (|y| - 1) as real * y[|y| - 1]
  }

  /** Sum of 0..n-1 and of their squares. */
  function SumX(n: real): real { n * (n - 1.0) / 2.0 }
  function SumXX(n: real): real { (n - 1.0) * n * (2.0 * n - 1.0) / 6.0 }

  /** n * Sxx - Sx * Sx, which is n^2 (n^2 - 1) / 12 and positive for n >= 2. */
  function Spread(n: real): (d: real)
    requires n >= 2.0
    ensures d > 0.0
  {
    SpreadPositive(n);
    n * SumXX(n) - SumX(n) * SumX(n)
  }

  lemma SpreadPositive(n: real)
    requires n >= 2.0
    ensures n * SumXX(n) - SumX(n) * SumX(n) > 0.0
  {
    assert n * SumXX(n) - SumX(n) * SumX(n) == n * n * (n * n - 1.0) / 12.0;
    assert n * n >= 4.0;
    assert n * n * (n * n - 1.0) >= 12.0;
  }

  /** The closed form of a degree-1 `np.polyfit`: from the point count, the
      sum of i * y[i] and the sum of y[i]. */
  function LeastSquares(n: real, sxy: real, sy: real): real
    requires n >= 2.0
  {
    (n * sxy - SumX(n) * sy) / Spread(n)
  }

  /** `_slope`: 0.0 with fewer than two present values, else the
      least-squares slope of the present values against their positions. */
  function Slope(values: seq<Option<real>>): (r: real)
    ensures |Present(values)| < 2 ==> r == 0.0
  {
    var y := Present(values);
    if |y| < 2 then 0.0 else LeastSquares(|y| as real, SumXY(y), Sum(y))
  }

  /** The points of the line a + b * i. */
  predicate OnLine(y: seq<real>, a: real, b: real)
  {
    forall i :: 0 <= i < |y| ==> y[i] == a + b * i as real
  }

  lemma SumsStep(m: real)
    ensures SumX(m + 1.0) == SumX(m) + m
    ensures SumXX(m + 1.0) == SumXX(m) + m * m
  {
  }

  /** The two sums of the first n points of the line a + b * i. */
  predicate LineSumsAre(sxy: real, sy: real, a: real, b: real, n: real)
  {
    sxy == a * SumX(n) + b * SumXX(n) && sy == n * a + b * SumX(n)
  }

  lemma LineStep(a: real, b: real, m: real, sxy: real, sy: real, y: real)
    requires LineSumsAre(sxy, sy, a, b, m) && y == a + b * m
    ensures LineSumsAre(sxy + m * y, sy + y, a, b, m + 1.0)
  {
    SumsStep(m);
  }

  /** On a line, both sums have closed forms in the point count. */
  lemma {:induction false} LineSums(y: seq<real>, a: real, b: real)
    requires OnLine(y, a, b)
    ensures LineSumsAre(SumXY(y), Sum(y), a, b, |y| as real)
  {
    if |y| > 0 {
      var m := |y| - 1;
      var p := y[..m];
      assert OnLine(p, a, b);
      LineSums(p, a, b);
      LineStep(a, b, m as real, SumXY(p), Sum(p), y[m]);
    }
  }

  lemma LeastSquaresOfLine(n: real, a: real, b: real, sxy: real, sy: real)
    requires n >= 2.0 && LineSumsAre(sxy, sy, a, b, n)
    ensures LeastSquares(n, sxy, sy) == b
  {
    var d := Spread(n);
    assert n * (a * SumX(n) + b * SumXX(n)) - SumX(n) * (n * a + b * SumX(n)) == b * d;
  }

  /** The least-squares slope of points lying exactly on a line is its
      gradient; in particular a constant window has slope 0. */
  lemma SlopeOfLine(y: seq<real>, a: real, b: real)
    requires OnLine(y, a, b)
    ensures Slope(Wrap(y)) == if |y| < 2 then 0.0 else b
  {
    PresentOfAllPresent(y);
    assert Wrap(y) == seq(|y|, i requires 0 <= i < |y| => Some(y[i]));
    if |y| >= 2 {
      LineSums(y, a, b);
      LeastSquaresOfLine(|y| as real, a, b, SumXY(y), Sum(y));
    }
  }

  // ---------------------------------------------------------------------
  // trend_strength

  /** "uptrend" when all three slopes rise, "downtrend" when all fall. */
  function Direction(short: real, medium: real, long: real): (r: string)
  {
    if short > 0.0 && medium > 0.0 && long > 0.0 then "uptrend"
    else if short < 0.0 && medium < 0.0 && long < 0.0 then "downtrend"
    else "sideways"
  }

  /** The order of the three EMAs at the last bar. */
  function Crossover(short: real, medium: real, long: real): (r: string)
  {
    if short > medium > long then "bullish_stack"
    else if short < medium < long then "bearish_stack"
    else "mixed"
  }

  /** Any zero slope makes the direction sideways, and the two stacks
      exclude each other. */
  lemma ClassificationCases(s: real, m: real, l: real)
    ensures Direction(s, m, l) == "uptrend" <==> s > 0.0 && m > 0.0 && l > 0.0
    ensures Direction(s, m, l) == "downtrend" <==> s < 0.0 && m < 0.0 && l < 0.0
    ensures s == 0.0 || m == 0.0 || l == 0.0 ==> Direction(s, m, l) == "sideways"
    ensures Crossover(s, m, l) == "bullish_stack" <==> s > m > l
    ensures Crossover(s, m, l) == "bearish_stack" <==> s < m < l
  {
  }

  /** `trend_strength`; `.iloc[-1]` of an empty series raises IndexError. */
  function TrendStrength(close: seq<real>, shortWindow: nat, mediumWindow: nat, longWindow: nat): (r: Result<TrendSnapshot>)
    requires shortWindow >= 1 && mediumWindow >= 1 && longWindow >= 1
    ensures r.Ok? <==> |close| > 0
  {
    if |close| == 0 then Err(IndexOutOfBounds)
    else
      var emaShort := Ema(close, shortWindow);
      var emaMedium := Ema(close, mediumWindow);
      var emaLong := Ema(close, longWindow);
      var slopeShort := Slope(Wrap(Tail(emaShort, shortWindow)));
      var slopeMedium := Slope(Wrap(Tail(emaMedium, mediumWindow)));
      var slopeLong := Slope(Wrap(Tail(emaLong, longWindow)));
      var last := |close| - 1;
      Ok(TrendSnapshot(Direction(slopeShort, slopeMedium, slopeLong),
                       slopeShort, slopeMedium, slopeLong,
                       Crossover(emaShort[last], emaMedium[last], emaLong[last])))
  }

  lemma TailOfConstant(xs: seq<real>, n: nat, c: real)
    requires forall i :: 0 <= i < |xs| ==> xs[i] == c
    ensures OnLine(Tail(xs, n), c, 0.0)
  {
  }

  /** A flat close series has flat EMAs: every slope is 0, the direction is
      sideways and the stack is mixed. */
  lemma FlatTrend(close: seq<real>, shortWindow: nat, mediumWindow: nat, longWindow: nat, c: real)
    requires shortWindow >= 1 && mediumWindow >= 1 && longWindow >= 1 && |close| > 0
    requires forall i :: 0 <= i < |close| ==> close[i] == c
    ensures var r := TrendStrength(close, shortWindow, mediumWindow, longWindow);
            r.Ok? && r.value.slopeShort == 0.0 && r.value.slopeMedium == 0.0 && r.value.slopeLong == 0.0 &&
            r.value.direction == "sideways" && r.value.crossover == "mixed"
  {
    EmaOfConstant(close, shortWindow, c);
    EmaOfConstant(close, mediumWindow, c);
    EmaOfConstant(close, longWindow, c);
    var es := Tail(Ema(close, shortWindow), shortWindow);
    var em := Tail(Ema(close, mediumWindow), mediumWindow);
    var el := Tail(Ema(close, longWindow), longWindow);
    TailOfConstant(Ema(close, shortWindow), shortWindow, c);
    TailOfConstant(Ema(close, mediumWindow), mediumWindow, c);
    TailOfConstant(Ema(close, longWindow), longWindow, c);
    SlopeOfLine(es, c, 0.0);
    SlopeOfLine(em, c, 0.0);
    SlopeOfLine(el, c, 0.0);
  }

  // ---------------------------------------------------------------------
  // trend_by_timeframe

  /** One entry of the frequency mapping: its name, its pandas frequency
      (None for none), and the series `close.resample(freq).last()`, which
      is taken as given. */
  datatype Timeframe = Timeframe(name: string, freq: Option<string>, resampled: seq<Option<real>>)

  /** None, "" and "D" keep the daily series. */
  predicate IsDaily(freq: Option<string>)
  {
    freq.None? || |freq.value| == 0 || (|freq.value| == 1 && freq.value[0] == 'D')
  }

  /** `frequencies or {"daily": None, "weekly": "W"}`: an absent or empty
      mapping means the default pair. */
  function FrequencyMap(frequencies: seq<Timeframe>, weekly: seq<Option<real>>): seq<Timeframe>
  {
    if |frequencies| == 0 then [Timeframe("daily", None, []), Timeframe("weekly", Some("W"), weekly)]
    else frequencies
  }

  function SeriesFor(close: seq<Option<real>>, tf: Timeframe): seq<real>
  {
    if IsDaily(tf.freq) then Present(close) else Present(tf.resampled)
  }

  function MaxWindow(a: nat, b: nat, c: nat): (m: nat)
    ensures m >= a && m >= b && m >= c && (m == a || m == b || m == c)
  {
    if a >= b && a >= c then a else if b >= c then b else c
  }

  /** A timeframe resolved to its name and the series its trend is taken
      from. */
  datatype Entry = Entry(name: string, series: seq<real>)

  /** The mapping with every series resolved, in mapping order. */
  function Entries(close: seq<Option<real>>, tfs: seq<Timeframe>): (r: seq<Entry>)
    ensures |r| == |tfs|
    ensures forall i :: 0 <= i < |tfs| ==> r[i] == Entry(tfs[i].name, SeriesFor(close, tfs[i]))
  {
    seq(|tfs|, i requires 0 <= i < |tfs| => Entry(tfs[i].name, SeriesFor(close, tfs[i])))
  }

  /** The dictionary the loop fills after the given entries, with
      `analyse` computing a snapshot from a series: an entry whose series is
      shorter than `w` is skipped, and a later entry of the same name
      overwrites an earlier one. */
  function Trends(entries: seq<Entry>, w: nat, analyse: seq<real> -> TrendSnapshot): map<string, TrendSnapshot>
  {
    if |entries| == 0 then map[]
    else
      var n := |entries| - 1;
      var m := Trends(entries[..n], w, analyse);
      if |entries[n].series| < w then m
      else m[entries[n].name := analyse(entries[n].series)]
  }

  /** The snapshot `trend_strength` gives a series; the loop only analyses
      series at least one bar long, for which it succeeds (the empty case
      is never reached and gets a flat placeholder). */
  function Snapshot(series: seq<real>, shortWindow: nat, mediumWindow: nat, longWindow: nat): (r: TrendSnapshot)
    requires shortWindow >= 1 && mediumWindow >= 1 && longWindow >= 1
    ensures |series| > 0 ==> Ok(r) == TrendStrength(series, shortWindow, mediumWindow, longWindow)
  {
    match TrendStrength(series, shortWindow, mediumWindow, longWindow)
    case Ok(v) => v
    case Err(_) => TrendSnapshot("sideways", 0.0, 0.0, 0.0, "mixed")
  }

  /** `trend_by_timeframe`; the close is given in date order. */
  method TrendByTimeframe(close: seq<Option<real>>, frequencies: seq<Timeframe>, weekly: seq<Option<real>>,
                          shortWindow: nat, mediumWindow: nat, longWindow: nat)
    returns (results: map<string, TrendSnapshot>)
    requires shortWindow >= 1 && mediumWindow >= 1 && longWindow >= 1
    ensures results == Trends(Entries(close, FrequencyMap(frequencies, weekly)), MaxWindow(shortWindow, mediumWindow, longWindow),
                              series => Snapshot(series, shortWindow, mediumWindow, longWindow))
  {
    var freqMap := FrequencyMap(frequencies, weekly);
    var w := MaxWindow(shortWindow, mediumWindow, longWindow);
    results := FillTrends(close, freqMap, w, series => Snapshot(series, shortWindow, mediumWindow, longWindow));
  }

  /** The loop of `trend_by_timeframe` over the frequency mapping, with
      `analyse` standing for `trend_strength` at the chosen windows. */
  method FillTrends(close: seq<Option<real>>, freqMap: seq<Timeframe>, w: nat, analyse: seq<real> -> TrendSnapshot)
    returns (results: map<string, TrendSnapshot>)
    ensures results == Trends(Entries(close, freqMap), w, analyse)
  {
    ghost var entries := Entries(close, freqMap);
    results := map[];
    var i := 0;
    while i < |freqMap|
      invariant 0 <= i <= |freqMap|
      invariant results == Trends(entries[..i], w, analyse)
    {
      var series := SeriesFor(close, freqMap[i]);
      assert entries[..i + 1][..i] == entries[..i];
      assert entries[..i + 1][i] == Entry(freqMap[i].name, series);
      TrendsStep(entries[..i + 1], w, analyse);
      if |series| >= w {
        results := results[freqMap[i].name := analyse(series)];
      }
      i := i + 1;
    }
    assert entries[..i] == entries;
  }

  /** One step of the loop: an entry adds (or replaces) its name iff its
      series is long enough. */
  lemma TrendsStep(entries: seq<Entry>, w: nat, analyse: seq<real> -> TrendSnapshot)
    requires |entries| > 0
    ensures var n := |entries| - 1;
            var m := Trends(entries[..n], w, analyse);
            Trends(entries, w, analyse) ==
              if |entries[n].series| < w then m else m[entries[n].name := analyse(entries[n].series)]
  {
  }

  /** Entry `i` has the given name and a series at least `w` long. */
  predicate KeptAt(entries: seq<Entry>, w: nat, name: string, i: int)
  {
    0 <= i < |entries| && entries[i].name == name && |entries[i].series| >= w
  }

  /** The names the loop keeps: those of the entries whose series is long
      enough. */
  function TrendNames(entries: seq<Entry>, w: nat): set<string>
  {
    if |entries| == 0 then {}
    else
      var n := |entries| - 1;
      TrendNames(entries[..n], w) + (if |entries[n].series| >= w then {entries[n].name} else {})
  }

  /** The keys of the result are exactly the kept names. */
  lemma {:induction false} TrendsNames(entries: seq<Entry>, w: nat, analyse: seq<real> -> TrendSnapshot)
    ensures Trends(entries, w, analyse).Keys == TrendNames(entries, w)
  {
    if |entries| > 0 {
      TrendsNames(entries[..|entries| - 1], w, analyse);
      TrendsStep(entries, w, analyse);
    }
  }

  /** A name is kept iff some entry of that name has a long enough series. */
  lemma {:induction false} TrendNamesWitness(entries: seq<Entry>, w: nat, name: string)
    ensures name in TrendNames(entries, w) <==> exists i :: KeptAt(entries, w, name, i)
  {
    if |entries| > 0 {
      var n := |entries| - 1;
      var front := entries[..n];
      TrendNamesWitness(front, w, name);
      assert forall i :: KeptAt(front, w, name, i) ==> KeptAt(entries, w, name, i);
      if name in TrendNames(entries, w) && name !in TrendNames(front, w) {
        assert KeptAt(entries, w, name, n);
      }
      if exists i :: KeptAt(entries, w, name, i) {
        var i :| KeptAt(entries, w, name, i);
        if i < n {
          assert KeptAt(front, w, name, i);
        }
      }
    }
  }

  /** A name is in the result iff some entry of that name has a series at
      least `w` long. */
  lemma TrendsKeys(entries: seq<Entry>, w: nat, analyse: seq<real> -> TrendSnapshot, name: string)
    ensures name in Trends(entries, w, analyse) <==> exists i :: KeptAt(entries, w, name, i)
  {
    TrendsNames(entries, w, analyse);
    TrendNamesWitness(entries, w, name);
  }

  /** The snapshot stored under a name is the one computed from the last
      entry of that name whose series is long enough. */
  lemma {:induction false} TrendsValue(entries: seq<Entry>, w: nat, analyse: seq<real> -> TrendSnapshot, i: nat)
    requires i < |entries| && KeptAt(entries, w, entries[i].name, i)
    requires forall j :: i < j < |entries| ==> !KeptAt(entries, w, entries[i].name, j)
    ensures entries[i].name in Trends(entries, w, analyse)
    ensures Trends(entries, w, analyse)[entries[i].name] == analyse(entries[i].series)
  {
    var n := |entries| - 1;
    var front := entries[..n];
    TrendsStep(entries, w, analyse);
    if i < n {
      assert front[i] == entries[i];
      assert !KeptAt(entries, w, entries[i].name, n);
      forall j | i < j < |front|
        ensures !KeptAt(front, w, front[i].name, j)
      {
        assert front[j] == entries[j];
        assert !KeptAt(entries, w, entries[i].name, j);
      }
      TrendsValue(front, w, analyse, i);
    }
  }

  /** The default mapping resolves to the daily close and the weekly
      series, each without its missing values. */
  lemma DefaultEntries(close: seq<Option<real>>, weekly: seq<Option<real>>)
    ensures Entries(close, FrequencyMap([], weekly)) == [Entry("daily", Present(close)), Entry("weekly", Present(weekly))]
  {
    assert !IsDaily(Some("W")) by { assert "W"[0] != "D"[0]; }
  }

  /** With the default mapping, only "daily" and "weekly" can appear, each
      iff its series has at least `w` present values. */
  lemma DefaultTimeframes(close: seq<Option<real>>, weekly: seq<Option<real>>, w: nat, analyse: seq<real> -> TrendSnapshot)
    ensures var m := Trends(Entries(close, FrequencyMap([], weekly)), w, analyse);
            m.Keys <= {"daily", "weekly"} &&
            ("daily" in m <==> |Present(close)| >= w) &&
            ("weekly" in m <==> |Present(weekly)| >= w)
  {
    var entries := Entries(close, FrequencyMap([], weekly));
    DefaultEntries(close, weekly);
    TrendsNames(entries, w, analyse);
    assert entries[..1][..0] == [] && entries[..2] == entries;
    assert TrendNames(entries[..1], w) == if |Present(close)| >= w then {"daily"} else {};
    assert "daily" != "weekly";
  }

  // ---------------------------------------------------------------------
  // breakout_signals

  /** The dictionary keys, which are also the signals' kinds. */
  const BreakoutUp := "breakout_up"
  const FalseBreakoutUp := "false_breakout_up"
  const BreakoutDown := "breakout_down"
  const FalseBreakoutDown := "false_breakout_down"

  datatype BreakoutSignal = BreakoutSignal(kind: string, price: real, referenceLevel: real, timestamp: int)

  /** The four entries of the returned dictionary, always all present. */
  datatype Breakouts = Breakouts(
    breakoutUp: Option<BreakoutSignal>,
    falseBreakoutUp: Option<BreakoutSignal>,
    breakoutDown: Option<BreakoutSignal>,
    falseBreakoutDown: Option<BreakoutSignal>)
  {
    /** The dictionary's items, in insertion order. */
    function Items(): (r: seq<(string, Option<BreakoutSignal>)>)
      ensures |r| == 4 && r[0].1 == breakoutUp && r[1].1 == falseBreakoutUp && r[2].1 == breakoutDown && r[3].1 == falseBreakoutDown
      ensures AllNone() <==> forall i :: 0 <= i < |r| ==> r[i].1.None?
    {
      [(BreakoutUp, breakoutUp), (FalseBreakoutUp, falseBreakoutUp),
       (BreakoutDown, breakoutDown), (FalseBreakoutDown, falseBreakoutDown)]
    }

    predicate AllNone()
    {
      breakoutUp.None? && falseBreakoutUp.None? && breakoutDown.None? && falseBreakoutDown.None?
    }
  }

  /** The position of the level nearest the latest price, the first one on ties. */
  function NearestIndex(levels: seq<real>, latest: real): (k: nat)
    requires |levels| > 0
    ensures k < |levels|
    ensures forall j :: 0 <= j < |levels| ==> Abs(levels[k] - latest) <= Abs(levels[j] - latest)
    ensures forall j :: 0 <= j < k ==> Abs(levels[j] - latest) > Abs(levels[k] - latest)
  {
    if |levels| == 1 then 0
    else
      var n := |levels| - 1;
      var best := NearestIndex(levels[..n], latest);
      if Abs(levels[n] - latest) < Abs(levels[best] - latest) then n else best
  }

  /** `_nearest`: None for no levels, else `min(levels, key=distance)`. */
  function Nearest(levels: seq<real>, latest: real): (r: Option<real>)
    ensures r.None? <==> |levels| == 0
    ensures r.Some? ==> r.value in levels && forall j :: 0 <= j < |levels| ==> Abs(r.value - latest) <= Abs(levels[j] - latest)
  {
    if |levels| == 0 then None else Some(levels[NearestIndex(levels, latest)])
  }

  /** Python truthiness of `float | None`: None and 0.0 are false. */
  predicate Truthy(x: Option<real>)
  {
    x.Some? && x.value != 0.0
  }

  /** The price clears the level by more than the tolerance, upwards or downwards. */
  predicate ClearsAbove(latest: real, level: real, tolerancePct: real)
  {
    latest > level * (1.0 + tolerancePct / 100.0)
  }

  predicate ClearsBelow(latest: real, level: real, tolerancePct: real)
  {
    latest < level * (1.0 - tolerancePct / 100.0)
  }

  /** `breakout_signals` over a price series with its timestamps. Reading
      `price.iloc[-1]` of an empty series, or `price.iloc[-2]` of a
      one-bar series when a false-breakout test gets that far, raises
      IndexError. */
  function BreakoutSignals(price: seq<real>, dates: seq<int>, supports: seq<real>, resistances: seq<real>, tolerancePct: real): (r: Result<Breakouts>)
    requires |dates| == |price|
    ensures r.Err? ==> r.error == IndexOutOfBounds
    ensures r.Err? <==> |price| == 0 ||
                        (|price| == 1 && ((Truthy(Nearest(resistances, price[0])) && price[0] < Nearest(resistances, price[0]).value) ||
                                          (Truthy(Nearest(supports, price[0])) && price[0] > Nearest(supports, price[0]).value)))
    ensures r.Ok? ==>
              var latest := price[|price| - 1];
              var ts := dates[|dates| - 1];
              var nr := Nearest(resistances, latest);
              var ns := Nearest(supports, latest);
              (r.value.breakoutUp.Some? <==> Truthy(nr) && ClearsAbove(latest, nr.value, tolerancePct)) &&
              (r.value.falseBreakoutUp.Some? <==> |price| >= 2 && Truthy(nr) && latest < nr.value && price[|price| - 2] > nr.value) &&
              (r.value.breakoutDown.Some? <==> Truthy(ns) && ClearsBelow(latest, ns.value, tolerancePct)) &&
              (r.value.falseBreakoutDown.Some? <==> |price| >= 2 && Truthy(ns) && latest > ns.value && price[|price| - 2] < ns.value) &&
              (r.value.breakoutUp.Some? ==> r.value.breakoutUp.value == BreakoutSignal(BreakoutUp, latest, nr.value, ts)) &&
              (r.value.falseBreakoutUp.Some? ==> r.value.falseBreakoutUp.value == BreakoutSignal(FalseBreakoutUp, latest, nr.value, ts)) &&
              (r.value.breakoutDown.Some? ==> r.value.breakoutDown.value == BreakoutSignal(BreakoutDown, latest, ns.value, ts)) &&
              (r.value.falseBreakoutDown.Some? ==> r.value.falseBreakoutDown.value == BreakoutSignal(FalseBreakoutDown, latest, ns.value, ts))
  {
    if |price| == 0 then Err(IndexOutOfBounds)
    else
      var latest := price[|price| - 1];
      var ts := dates[|dates| - 1];
      var ns := Nearest(supports, latest);
      var nr := Nearest(resistances, latest);
      var needsPrevious := (Truthy(nr) && latest < nr.value) || (Truthy(ns) && latest > ns.value);
      if needsPrevious && |price| < 2 then Err(IndexOutOfBounds)
      else
        var previous := if |price| >= 2 then price[|price| - 2] else 0.0;
        Ok(Breakouts(
          if Truthy(nr) && ClearsAbove(latest, nr.value, tolerancePct)
          then Some(BreakoutSignal(BreakoutUp, latest, nr.value, ts)) else None,
          if Truthy(nr) && latest < nr.value && previous > nr.value
          then Some(BreakoutSignal(FalseBreakoutUp, latest, nr.value, ts)) else None,
          if Truthy(ns) && ClearsBelow(latest, ns.value, tolerancePct)
          then Some(BreakoutSignal(BreakoutDown, latest, ns.value, ts)) else None,
          if Truthy(ns) && latest > ns.value && previous < ns.value
          then Some(BreakoutSignal(FalseBreakoutDown, latest, ns.value, ts)) else None))
  }

  /** Without levels nothing fires, whatever the series length (but not empty). */
  lemma NoLevelsNoSignals(price: seq<real>, dates: seq<int>, tolerancePct: real)
    requires |dates| == |price| > 0
    ensures var r := BreakoutSignals(price, dates, [], [], tolerancePct);
            r.Ok? && r.value.AllNone() && |r.value.Items()| == 4
  {
  }

  lemma ScaleAbove(level: real, tolerancePct: real)
    requires level > 0.0 && tolerancePct >= 0.0
    ensures forall latest :: ClearsAbove(latest, level, tolerancePct) ==> latest > level
    ensures forall latest :: ClearsBelow(latest, level, tolerancePct) ==> latest < level
  {
    assert level * (tolerancePct / 100.0) >= 0.0;
  }

  /** With positive levels and a non-negative tolerance, a breakout and a
      false breakout in the same direction never fire together; every
      signal refers to the nearest level and the latest bar. */
  lemma BreakoutsExclusive(price: seq<real>, dates: seq<int>, supports: seq<real>, resistances: seq<real>, tolerancePct: real)
    requires |dates| == |price| && tolerancePct >= 0.0
    requires forall i :: 0 <= i < |supports| ==> supports[i] > 0.0
    requires forall i :: 0 <= i < |resistances| ==> resistances[i] > 0.0
    ensures var r := BreakoutSignals(price, dates, supports, resistances, tolerancePct);
            r.Ok? ==>
              !(r.value.breakoutUp.Some? && r.value.falseBreakoutUp.Some?) &&
              !(r.value.breakoutDown.Some? && r.value.falseBreakoutDown.Some?) &&
              (forall o :: o in r.value.Items() && o.1.Some? ==>
                 o.1.value.price == price[|price| - 1] && o.1.value.timestamp == dates[|dates| - 1]) &&
              (r.value.breakoutUp.Some? ==> r.value.breakoutUp.value.referenceLevel == Nearest(resistances, price[|price| - 1]).value) &&
              (r.value.falseBreakoutUp.Some? ==> r.value.falseBreakoutUp.value.referenceLevel == Nearest(resistances, price[|price| - 1]).value) &&
              (r.value.breakoutDown.Some? ==> r.value.breakoutDown.value.referenceLevel == Nearest(supports, price[|price| - 1]).value) &&
              (r.value.falseBreakoutDown.Some? ==> r.value.falseBreakoutDown.value.referenceLevel == Nearest(supports, price[|price| - 1]).value)
  {
    if |price| > 0 {
      var latest := price[|price| - 1];
      var nr := Nearest(resistances, latest);
      var ns := Nearest(supports, latest);
      if nr.Some? {
        ScaleAbove(nr.value, tolerancePct);
      }
      if ns.Some? {
        ScaleAbove(ns.value, tolerancePct);
      }
    }
  }
}
