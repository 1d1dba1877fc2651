/** The market snapshot and its text summary
    (quantfinance/reporting/insights.py): input validation, the wiring of
    the analyses into one snapshot, and the lines the summary shows. */
module Insights {
  import opened Common
  import TI = TrendIndicators
  import MI = MomentumIndicators
  import VI = VolatilityIndicators
  import Lv = Levels
  import Fib = Fibonacci
  import Div = Divergence
  import TA = TrendAnalysis

  // ---------------------------------------------------------------------
  // _validate_input

  /** One input row; `date` is None where the date does not parse. */
  datatype RawRow = RawRow(date: Option<int>, open: real, high: real, low: real, close: real, volume: real)

  /** The input frame: its column names and its rows. */
  datatype RawFrame = RawFrame(columns: set<string>, rows: seq<RawRow>)

  /** A validated row, indexed by its date. */
  datatype Row = Row(date: int, open: real, high: real, low: real, close: real, volume: real)

  /** The required columns, in the order the model renders the missing ones. */
  const RequiredOrder: seq<string> := ["Date", "Open", "High", "Low", "Close", "Volume"]

  /** The required columns absent from the frame. */
  function Missing(columns: set<string>, names: seq<string>): (r: seq<string>)
    ensures forall i :: 0 <= i < |r| ==> r[i] in names && r[i] !in columns
    ensures forall i :: 0 <= i < |names| && names[i] !in columns ==> names[i] in r
  {
    if |names| == 0 then []
    else Missing(columns, names[..|names| - 1]) + (if names[|names| - 1] in columns then [] else [names[|names| - 1]])
  }

  const MissingColumnsPrefix := "DataFrame sem as colunas obrigatórias: "

  /** The rows whose date parsed, in input order: `dropna(subset=["Date"])`. */
  function Dated(rows: seq<RawRow>): (r: seq<Row>)
    ensures |r| <= |rows|
    ensures forall i :: 0 <= i < |r| ==> RawRow(Some(r[i].date), r[i].open, r[i].high, r[i].low, r[i].close, r[i].volume) in rows
  {
    if |rows| == 0 then []
    else
      var x := rows[|rows| - 1];
      Dated(rows[..|rows| - 1]) + (if x.date.Some? then [Row(x.date.value, x.open, x.high, x.low, x.close, x.volume)] else [])
  }

  /** Every row with a date survives. */
  lemma {:induction false} DatedKeeps(rows: seq<RawRow>, j: nat)
    requires j < |rows| && rows[j].date.Some?
    ensures Row(rows[j].date.value, rows[j].open, rows[j].high, rows[j].low, rows[j].close, rows[j].volume) in Dated(rows)
  {
    if j < |rows| - 1 {
      DatedKeeps(rows[..|rows| - 1], j);
    }
  }

  function EarlierOrSame(a: Row, b: Row): bool { a.date <= b.date }

  lemma DateOrderTotal()
    ensures TotalPreorder(EarlierOrSame)
  {
  }

  /** `_validate_input`: a ValueError naming the missing columns, else the
      dated rows sorted by date. */
  function Validate(df: RawFrame): (r: Result<seq<Row>>)
    ensures r.Ok? <==> forall c :: c in RequiredOrder ==> c in df.columns
    ensures r.Err? ==> r.error == MissingColumnsPrefix + "{" + Join(Quoted(Missing(df.columns, RequiredOrder)), ", ") + "}"
    ensures r.Ok? ==> SortedBy(r.value, EarlierOrSame) && multiset(r.value) == multiset(Dated(df.rows))
  {
    var missing := Missing(df.columns, RequiredOrder);
    if |missing| > 0 then
      assert missing[0] in RequiredOrder;
      Err(MissingColumnsPrefix + "{" + Join(Quoted(missing), ", ") + "}")
    else
      assert forall i :: 0 <= i < |RequiredOrder| ==> RequiredOrder[i] in df.columns;
      DateOrderTotal();
      Ok(SortBy(Dated(df.rows), EarlierOrSame))
  }

  function Closes(rows: seq<Row>): (r: seq<real>)
    ensures |r| == |rows| && forall i :: 0 <= i < |rows| ==> r[i] == rows[i].close
  {
    seq(|rows|, i requires 0 <= i < |rows| => rows[i].close)
  }

  function Dates(rows: seq<Row>): (r: seq<int>)
    ensures |r| == |rows| && forall i :: 0 <= i < |rows| ==> r[i] == rows[i].date
  {
    seq(|rows|, i requires 0 <= i < |rows| => rows[i].date)
  }

  // ---------------------------------------------------------------------
  // build_market_snapshot

  /** The indicator columns of the snapshot. */
  datatype Indicators = Indicators(sma21: seq<Option<real>>, ema21: seq<real>, rsi14: seq<real>, macd: TI.MacdLines, bands: VI.Bands)

  datatype MarketSnapshot = MarketSnapshot(
    levels: Lv.PriceLevels,
    fibonacci: map<string, real>,
    trend: TA.TrendSnapshot,
    breakout: TA.Breakouts,
    divergences: seq<Div.DivergenceSignal>,
    indicators: Indicators)

  /** The indicator columns computed from the closes; `std21` is their
      21-bar rolling standard deviation. */
  function SnapshotIndicators(closes: seq<real>, std21: seq<Option<real>>): (r: Indicators)
    requires |std21| == |closes|
    ensures |r.sma21| == |r.ema21| == |r.rsi14| == |closes|
  {
    Indicators(TI.Sma(closes, 21), TI.Ema(closes, 21), MI.Rsi(closes, 14), TI.Macd(closes, 12, 26, 9), VI.BollingerBands(closes, 21, 2.0, std21))
  }

  /** The analyses of `build_market_snapshot` over the validated rows,
      once their levels are consolidated: the Fibonacci levels of the last
      252 closes, the 9/21/72 trend, the breakouts against the given
      supports and resistances at 0.5 %, the RSI(14) divergences (order 5,
      distance 5) and the indicator columns. The breakout test is the one
      step that can fail. */
  function SnapshotFrom(data: seq<Row>, levels: Lv.PriceLevels, std21: seq<Option<real>>): (r: Result<MarketSnapshot>)
    requires |data| > 0 && |std21| == |data|
    ensures r.Ok? ==> r.value.levels == levels
  {
    var closes := Closes(data);
    var dates := Dates(data);
    var breakout := TA.BreakoutSignals(closes, dates, levels.supports, levels.resistances, 0.5);
    if breakout.Err? then Err(breakout.error)
    else
      Ok(MarketSnapshot(levels, FibonacciOf(closes), TrendOf(closes), breakout.value,
                        RsiDivergences(dates, closes), SnapshotIndicators(closes, std21)))
  }

  /** `compute_retracements(data).levels` over the last 252 closes. */
  function FibonacciOf(closes: seq<real>): (r: map<string, real>)
    requires |closes| > 0
    ensures r == Fib.LevelMap(Max(Fib.TailRows(closes, 252)), Min(Fib.TailRows(closes, 252)))
  {
    Fib.ComputeRetracements(closes, 252).value.levels
  }

  /** `trend_strength` with its default 9/21/72 windows. */
  function TrendOf(closes: seq<real>): TA.TrendSnapshot
    requires |closes| > 0
  {
    TA.TrendStrength(closes, 9, 21, 72).value
  }

  /** `detect_rsi_divergences` of the closes against their RSI(14). */
  function RsiDivergences(dates: seq<int>, closes: seq<real>): seq<Div.DivergenceSignal>
    requires |dates| == |closes|
  {
    Div.Divergences(dates, Wrap(closes), Wrap(MI.Rsi(closes, 14)), 5, 5)
  }

  /** The snapshot fails exactly when the breakout test does, with its error. */
  lemma SnapshotFailure(data: seq<Row>, levels: Lv.PriceLevels, std21: seq<Option<real>>)
    requires |data| > 0 && |std21| == |data|
    ensures var b := TA.BreakoutSignals(Closes(data), Dates(data), levels.supports, levels.resistances, 0.5);
            (SnapshotFrom(data, levels, std21).Err? <==> b.Err?) &&
            (b.Err? ==> SnapshotFrom(data, levels, std21).error == b.error)
  {
  }

  /** The breakouts are computed from exactly the supports and resistances
      the snapshot stores, against the latest close and date. */
  lemma SnapshotBreakouts(data: seq<Row>, levels: Lv.PriceLevels, std21: seq<Option<real>>)
    requires |data| > 0 && |std21| == |data|
    ensures var r := SnapshotFrom(data, levels, std21);
            r.Ok? ==> TA.BreakoutSignals(Closes(data), Dates(data), r.value.levels.supports, r.value.levels.resistances, 0.5) == Ok(r.value.breakout)
  {
  }

  /** The trend is the 9/21/72 trend of the closes. */
  lemma SnapshotTrend(data: seq<Row>, levels: Lv.PriceLevels, std21: seq<Option<real>>)
    requires |data| > 0 && |std21| == |data|
    ensures var r := SnapshotFrom(data, levels, std21);
            r.Ok? ==> TA.TrendStrength(Closes(data), 9, 21, 72) == Ok(r.value.trend)
  {
  }

  /** The Fibonacci levels span the extremes of the last 252 closes. */
  lemma SnapshotFibonacci(data: seq<Row>, levels: Lv.PriceLevels, std21: seq<Option<real>>)
    requires |data| > 0 && |std21| == |data|
    ensures var r := SnapshotFrom(data, levels, std21);
            r.Ok? ==> r.value.fibonacci == Fib.LevelMap(Max(Fib.TailRows(Closes(data), 252)), Min(Fib.TailRows(Closes(data), 252)))
  {
  }

  /** The divergences and the indicator columns are those of the closes. */
  lemma SnapshotSignals(data: seq<Row>, levels: Lv.PriceLevels, std21: seq<Option<real>>)
    requires |data| > 0 && |std21| == |data|
    ensures var r := SnapshotFrom(data, levels, std21);
            r.Ok? ==> r.value.divergences == RsiDivergences(Dates(data), Closes(data)) &&
                      r.value.indicators == SnapshotIndicators(Closes(data), std21)
  {
  }

  /** `build_market_snapshot`: validate, consolidate the levels of the
      closes (order 5, round step and width as given, 0.5 % grouping),
      then analyse. `weeklyMin` / `weeklyMax` are the weekly minima and
      maxima of the validated closes and `std21` their rolling deviation,
      all taken as given. */
  method BuildMarketSnapshot(df: RawFrame, weeklyMin: seq<Option<real>>, weeklyMax: seq<Option<real>>, std21: seq<Option<real>>,
                             roundStep: real, roundWidth: nat)
    returns (r: Result<MarketSnapshot>)
    requires roundStep > 0.0
    requires |weeklyMin| == |weeklyMax| && (|weeklyMin| == 0 <==> |Dated(df.rows)| == 0) && |std21| == |Dated(df.rows)|
    ensures Validate(df).Err? ==> r == Err(Validate(df).error)
    ensures Validate(df).Ok? && |Validate(df).value| == 0 ==> r == Err(IndexOutOfBounds)
    ensures Validate(df).Ok? && |Validate(df).value| > 0 ==>
              var data := Validate(df).value;
              |std21| == |data| &&
              r == SnapshotFrom(data, Lv.Consolidated(Closes(data), weeklyMin, weeklyMax, 5, roundStep, roundWidth, 0.5), std21)
  {
    var validated := Validate(df);
    if validated.Err? {
      return Err(validated.error);
    }
    var data := validated.value;
    assert |data| == |Dated(df.rows)| by {
      assert |multiset(data)| == |multiset(Dated(df.rows))|;
    }
    var levels := Lv.ConsolidateLevels(Closes(data), weeklyMin, weeklyMax, 5, roundStep, roundWidth, 0.5);
    if levels.Err? {
      return Err(levels.error);
    }
    r := SnapshotFrom(data, levels.value, std21);
  }

  // ---------------------------------------------------------------------
  // summarise_snapshot

  /** The lines of the summary, with the values each shows; rendering the
      numbers as text is not modelled. */
  datatype SummaryLine =
    | Header
    | TrendLine(direction: string, slopeShort: real, slopeMedium: real, slopeLong: real)
    | StackLine(crossover: string)
    | BreakoutLine(kind: string, referenceLevel: real, price: real)
    | NoBreakout
    | SupportsLine(supports: seq<real>)
    | ResistancesLine(resistances: seq<real>)
    | FibonacciLine(levels: map<string, real>)
    | DivergenceLine(kind: string, date: int, priceLevel: real, indicatorLevel: real)
    | NoDivergence

  /** The fixed text of the lines that show no value. */
  function FixedText(line: SummaryLine): string
    requires line.Header? || line.NoBreakout? || line.NoDivergence?
  {
    match line
    case Header => "Resumo de Mercado"
    case NoBreakout => "- Nenhum sinal de rompimento relevante no momento"
    case NoDivergence => "- Sem divergências relevantes entre preço e RSI"
  }

  /** The breakout signals that fired, in the dictionary's order. */
  function Fired(items: seq<(string, Option<TA.BreakoutSignal>)>): (r: seq<TA.BreakoutSignal>)
    ensures |r| <= |items|
    ensures |r| == 0 <==> forall i :: 0 <= i < |items| ==> items[i].1.None?
  {
    if |items| == 0 then []
    else
      var n := |items| - 1;
      Fired(items[..n]) + (if items[n].1.Some? then [items[n].1.value] else [])
  }

  function BreakoutLines(fired: seq<TA.BreakoutSignal>): (r: seq<SummaryLine>)
    ensures |r| == |fired|
    ensures forall i :: 0 <= i < |r| ==> r[i] == BreakoutLine(fired[i].kind, fired[i].referenceLevel, fired[i].price)
  {
    if |fired| == 0 then []
    else BreakoutLines(fired[..|fired| - 1]) + [BreakoutLine(fired[|fired| - 1].kind, fired[|fired| - 1].referenceLevel, fired[|fired| - 1].price)]
  }

  function DivergenceLines(divs: seq<Div.DivergenceSignal>): (r: seq<SummaryLine>)
    ensures |r| == |divs|
    ensures forall i :: 0 <= i < |r| ==> r[i] == DivergenceLine(divs[i].kind, divs[i].priceIndex, divs[i].priceLevel, divs[i].indicatorLevel)
  {
    if |divs| == 0 then []
    else DivergenceLines(divs[..|divs| - 1]) + [DivergenceLine(divs[|divs| - 1].kind, divs[|divs| - 1].priceIndex, divs[|divs| - 1].priceLevel, divs[|divs| - 1].indicatorLevel)]
  }

  /** The first n entries (all of them when there are fewer): `s[:n]`. */
  function Head(s: seq<real>, n: nat): (r: seq<real>)
    ensures |r| == if |s| < n then |s| else n
    ensures r == s[..|r|]
  {
    if |s| <= n then s else s[..n]
  }

  /** The title, the trend line and the moving-average stacking line. */
  function Opening(s: MarketSnapshot): seq<SummaryLine>
  {
    [Header, TrendLine(s.trend.direction, s.trend.slopeShort, s.trend.slopeMedium, s.trend.slopeLong), StackLine(s.trend.crossover)]
  }

  /** One line per fired breakout, or the "no breakout" line. */
  function BreakoutSection(fired: seq<TA.BreakoutSignal>): seq<SummaryLine>
  {
    if |fired| > 0 then BreakoutLines(fired) else [NoBreakout]
  }

  /** The first three supports, the first three resistances, the Fibonacci levels. */
  function LevelsSection(s: MarketSnapshot): seq<SummaryLine>
  {
    [SupportsLine(Head(s.levels.supports, 3)), ResistancesLine(Head(s.levels.resistances, 3)), FibonacciLine(s.fibonacci)]
  }

  /** The last three divergences, or the "no divergence" line. */
  function DivergenceSection(divs: seq<Div.DivergenceSignal>): seq<SummaryLine>
  {
    if |divs| > 0 then DivergenceLines(Tail(divs, 3)) else [NoDivergence]
  }

  /** The summary's lines, in order. */
  function Summary(s: MarketSnapshot): seq<SummaryLine>
  {
    SummaryOf(s, Fired(s.breakout.Items()))
  }

  /** The summary's lines once the fired breakout signals are known. */
  function SummaryOf(s: MarketSnapshot, fired: seq<TA.BreakoutSignal>): seq<SummaryLine>
  {
    Opening(s) + BreakoutSection(fired) + LevelsSection(s) + DivergenceSection(s.divergences)
  }

  /** The breakout loop of `summarise_snapshot`: the signals that fired. */
  method CollectFired(items: seq<(string, Option<TA.BreakoutSignal>)>) returns (fired: seq<TA.BreakoutSignal>)
    ensures fired == Fired(items)
  {
    fired := [];
    var i := 0;
    while i < |items|
      invariant 0 <= i <= |items|
      invariant fired == Fired(items[..i])
    {
      assert items[..i + 1][..i] == items[..i];
      if items[i].1.Some? {
        fired := fired + [items[i].1.value];
      }
      i := i + 1;
    }
    assert items[..i] == items;
  }

  /** Appends one line per fired breakout signal. */
  method AppendBreakouts(lines: seq<SummaryLine>, fired: seq<TA.BreakoutSignal>) returns (r: seq<SummaryLine>)
    ensures r == lines + BreakoutLines(fired)
  {
    r := lines;
    var k := 0;
    while k < |fired|
      invariant 0 <= k <= |fired|
      invariant r == lines + BreakoutLines(fired[..k])
    {
      assert fired[..k + 1][..k] == fired[..k];
      r := r + [BreakoutLine(fired[k].kind, fired[k].referenceLevel, fired[k].price)];
      k := k + 1;
    }
    assert fired[..k] == fired;
  }

  /** Appends one line per divergence. */
  method AppendDivergences(lines: seq<SummaryLine>, divs: seq<Div.DivergenceSignal>) returns (r: seq<SummaryLine>)
    ensures r == lines + DivergenceLines(divs)
  {
    r := lines;
    var k := 0;
    while k < |divs|
      invariant 0 <= k <= |divs|
      invariant r == lines + DivergenceLines(divs[..k])
    {
      assert divs[..k + 1][..k] == divs[..k];
      r := r + [DivergenceLine(divs[k].kind, divs[k].priceIndex, divs[k].priceLevel, divs[k].indicatorLevel)];
      k := k + 1;
    }
    assert divs[..k] == divs;
  }

  /** `summarise_snapshot`, up to the rendering of each line. */
  method SummariseSnapshot(s: MarketSnapshot) returns (lines: seq<SummaryLine>)
    ensures lines == Summary(s)
  {
    lines := [Header];
    lines := lines + [TrendLine(s.trend.direction, s.trend.slopeShort, s.trend.slopeMedium, s.trend.slopeLong)];
    lines := lines + [StackLine(s.trend.crossover)];
    assert lines == Opening(s);
    var fired := CollectFired(s.breakout.Items());
    lines := AppendBreakoutSection(lines, fired);
    lines := AppendLevelsSection(lines, s);
    lines := AppendDivergenceSection(lines, s.divergences);
    assert lines == SummaryOf(s, fired);
  }

  /** The breakout lines, or the "no breakout" line when none fired. */
  method AppendBreakoutSection(lines: seq<SummaryLine>, fired: seq<TA.BreakoutSignal>) returns (r: seq<SummaryLine>)
    ensures r == lines + BreakoutSection(fired)
  {
    if |fired| > 0 {
      r := AppendBreakouts(lines, fired);
    } else {
      r := lines + [NoBreakout];
    }
  }

  /** The supports, resistances and Fibonacci lines. */
  method AppendLevelsSection(lines: seq<SummaryLine>, s: MarketSnapshot) returns (r: seq<SummaryLine>)
    ensures r == lines + LevelsSection(s)
  {
    r := lines + [SupportsLine(Head(s.levels.supports, 3))];
    r := r + [ResistancesLine(Head(s.levels.resistances, 3))];
    r := r + [FibonacciLine(s.fibonacci)];
  }

  /** The last three divergences, or the "no divergence" line. */
  method AppendDivergenceSection(lines: seq<SummaryLine>, divs: seq<Div.DivergenceSignal>) returns (r: seq<SummaryLine>)
    ensures r == lines + DivergenceSection(divs)
  {
    if |divs| > 0 {
      r := AppendDivergences(lines, Tail(divs, 3));
    } else {
      r := lines + [NoDivergence];
    }
  }

  /** Breakout lines are breakout lines. */
  lemma BreakoutSectionKinds(fired: seq<TA.BreakoutSignal>)
    ensures forall line :: line in BreakoutSection(fired) ==> line.BreakoutLine? || line == NoBreakout
    ensures NoBreakout in BreakoutSection(fired) <==> |fired| == 0
  {
    if |fired| > 0 {
      var lines := BreakoutLines(fired);
      forall line | line in lines
        ensures line.BreakoutLine?
      {
        var i :| 0 <= i < |lines| && lines[i] == line;
      }
    }
  }

  /** Divergence lines are divergence lines. */
  lemma DivergenceSectionKinds(divs: seq<Div.DivergenceSignal>)
    ensures forall line :: line in DivergenceSection(divs) ==> line.DivergenceLine? || line == NoDivergence
    ensures NoDivergence in DivergenceSection(divs) <==> |divs| == 0
  {
    if |divs| > 0 {
      var lines := DivergenceLines(Tail(divs, 3));
      forall line | line in lines
        ensures line.DivergenceLine?
      {
        var i :| 0 <= i < |lines| && lines[i] == line;
      }
    }
  }

  /** The summary opens with "Resumo de Mercado", then the trend and the
      stacking lines. */
  lemma SummaryOpening(s: MarketSnapshot)
    ensures var lines := Summary(s);
            |lines| >= 8 && lines[0] == Header && FixedText(lines[0]) == "Resumo de Mercado" &&
            lines[1].TrendLine? && lines[1].direction == s.trend.direction && lines[2] == StackLine(s.trend.crossover)
  {
    SummaryOfOpening(s, Fired(s.breakout.Items()));
  }

  lemma SummaryOfOpening(s: MarketSnapshot, fired: seq<TA.BreakoutSignal>)
    ensures var lines := SummaryOf(s, fired);
            |lines| >= 8 && lines[..3] == Opening(s)
  {
    var lines := SummaryOf(s, fired);
    assert lines[..3] == Opening(s);
  }

  /** The "no breakout" line appears iff every breakout entry is None. */
  lemma SummaryBreakouts(s: MarketSnapshot)
    ensures NoBreakout in Summary(s) <==> s.breakout.AllNone()
  {
    SummaryOfBreakouts(s, Fired(s.breakout.Items()));
  }

  lemma SummaryOfBreakouts(s: MarketSnapshot, fired: seq<TA.BreakoutSignal>)
    ensures NoBreakout in SummaryOf(s, fired) <==> |fired| == 0
  {
    var section := BreakoutSection(fired);
    var rest := LevelsSection(s) + DivergenceSection(s.divergences);
    assert SummaryOf(s, fired) == Opening(s) + (section + rest);
    NoBreakoutElsewhere(s);
    BreakoutSectionKinds(fired);
    assert NoBreakout in section <==> |fired| == 0;
  }

  /** Only the breakout section can hold the "no breakout" line. */
  lemma NoBreakoutElsewhere(s: MarketSnapshot)
    ensures NoBreakout !in Opening(s)
    ensures NoBreakout !in LevelsSection(s) + DivergenceSection(s.divergences)
  {
    NoBreakoutNotInLevels(s);
    NoBreakoutNotInDivergences(s.divergences);
  }

  lemma NoBreakoutNotInLevels(s: MarketSnapshot)
    ensures NoBreakout !in LevelsSection(s)
  {
    var levels := LevelsSection(s);
    assert levels[0].SupportsLine? && levels[1].ResistancesLine? && levels[2].FibonacciLine?;
  }

  lemma NoBreakoutNotInDivergences(divs: seq<Div.DivergenceSignal>)
    ensures NoBreakout !in DivergenceSection(divs)
  {
    DivergenceSectionKinds(divs);
  }

  /** When some breakout fired, the lines after the opening show each
      fired signal, in the dictionary's order. */
  lemma SummaryBreakoutLines(s: MarketSnapshot)
    ensures !s.breakout.AllNone() ==>
              var fired := Fired(s.breakout.Items());
              Summary(s)[3..3 + |fired|] == BreakoutLines(fired) &&
              forall i :: 0 <= i < |fired| ==> Summary(s)[3 + i] == BreakoutLine(fired[i].kind, fired[i].referenceLevel, fired[i].price)
  {
    var fired := Fired(s.breakout.Items());
    if |fired| > 0 {
      SummaryOfBreakoutLines(s, fired);
    }
  }

  lemma SummaryOfBreakoutLines(s: MarketSnapshot, fired: seq<TA.BreakoutSignal>)
    requires |fired| > 0
    ensures var lines := SummaryOf(s, fired);
            |lines| >= 3 + |fired| && lines[3..3 + |fired|] == BreakoutLines(fired)
  {
    assert BreakoutSection(fired) == BreakoutLines(fired);
    SecondOfFour(Opening(s), BreakoutLines(fired), LevelsSection(s), DivergenceSection(s.divergences));
  }

  /** At most three supports and three resistances are shown, the first
      ones; at most three divergences, the last ones, and the "no
      divergence" line appears iff there are none. */
  lemma SummaryLevelsAndDivergences(s: MarketSnapshot)
    ensures SupportsLine(Head(s.levels.supports, 3)) in Summary(s) && |Head(s.levels.supports, 3)| <= 3
    ensures ResistancesLine(Head(s.levels.resistances, 3)) in Summary(s) && |Head(s.levels.resistances, 3)| <= 3
    ensures NoDivergence in Summary(s) <==> |s.divergences| == 0
    ensures |s.divergences| > 0 ==>
              var shown := Tail(s.divergences, 3);
              Summary(s)[|Summary(s)| - |shown|..] == DivergenceLines(shown) && |shown| == if |s.divergences| < 3 then |s.divergences| else 3
  {
    SummaryOfLevelsAndDivergences(s, Fired(s.breakout.Items()));
  }

  lemma SummaryOfLevelsAndDivergences(s: MarketSnapshot, fired: seq<TA.BreakoutSignal>)
    ensures SupportsLine(Head(s.levels.supports, 3)) in SummaryOf(s, fired)
    ensures ResistancesLine(Head(s.levels.resistances, 3)) in SummaryOf(s, fired)
    ensures NoDivergence in SummaryOf(s, fired) <==> |s.divergences| == 0
    ensures |s.divergences| > 0 ==>
              var shown := Tail(s.divergences, 3);
              SummaryOf(s, fired)[|SummaryOf(s, fired)| - |shown|..] == DivergenceLines(shown)
  {
    var head := Opening(s) + BreakoutSection(fired);
    var levels := LevelsSection(s);
    var last := DivergenceSection(s.divergences);
    assert SummaryOf(s, fired) == head + levels + last;
    assert SupportsLine(Head(s.levels.supports, 3)) in levels;
    assert ResistancesLine(Head(s.levels.resistances, 3)) in levels;
    NoDivergenceElsewhere(s, fired);
    DivergenceSectionKinds(s.divergences);
    ConcatParts(head, levels, last);
  }

  /** Only the divergence section can hold the "no divergence" line. */
  lemma NoDivergenceElsewhere(s: MarketSnapshot, fired: seq<TA.BreakoutSignal>)
    ensures NoDivergence !in Opening(s) + BreakoutSection(fired) + LevelsSection(s)
  {
    BreakoutSectionKinds(fired);
  }
}
