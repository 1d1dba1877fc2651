/** `enrich_dataframe` (workflows/features/indicators.py): the indicator,
    extrema-flag, 52-week and return columns added to a price frame. The
    frame is its column names, in order, and the three price columns the
    enrichment reads; the other columns are carried by name only. */
module Enrichment {
  import opened Common
  import TI = TrendIndicators
  import MI = MomentumIndicators
  import VI = VolatilityIndicators
  import Lv = Levels

  datatype Frame = Frame(names: seq<string>, close: seq<real>, high: seq<real>, low: seq<real>)

  /** The per-row series the model takes as given: the 21-bar rolling
      standard deviation of Close, and the 52-week rolling minimum and
      maximum of the weekly minimum and maximum close, taken at each
      row's date and forward filled. That date-aligned assignment is the
      one the code intends; `EnrichDataframeAsWritten` models the one it
      makes. */
  datatype Given = Given(std21: seq<Option<real>>, min52: seq<Option<real>>, max52: seq<Option<real>>)

  /** The enriched frame: its column names and the values of the added
      columns (`Return_Log` is named but its values are not modelled). */
  datatype Enriched = Enriched(
    names: seq<string>,
    sma9: seq<Option<real>>, sma21: seq<Option<real>>, sma72: seq<Option<real>>,
    ema9: seq<real>, ema21: seq<real>, ema72: seq<real>,
    rsi14: seq<real>,
    macd: TI.MacdLines,
    bands20: VI.Bands, bands25: VI.Bands, bands30: VI.Bands,
    isSupport: seq<bool>, isResistance: seq<bool>,
    min52w: seq<Option<real>>, max52w: seq<Option<real>>,
    withinMax52w: seq<bool>, withinMin52w: seq<bool>,
    returnDaily: seq<Option<real>>,
    atr14: seq<Option<real>>)

  const NoDateColumn := "DataFrame precisa incluir coluna 'Date' para enriquecer."
  const OverlapPrefix := "columns overlap but no suffix specified: "

  /** The ValueError of `DataFrame.join` when the frame already has some of
      the MACD columns. */
  function OverlapMessage(overlap: seq<string>): string
  {
    OverlapPrefix + "Index([" + Join(Quoted(overlap), ", ") + "], dtype='object')"
  }

  // ---------------------------------------------------------------------
  // Column names

  const BasicNames: seq<string> := ["SMA_9", "SMA_21", "SMA_72", "EMA_9", "EMA_21", "EMA_72", "RSI_14"]
  const MacdNames: seq<string> := ["MACD", "Signal", "Histogram"]
  /** `f"BB_{band}_{str(std).replace('.', '_')}"` for std 2.0, 2.5, 3.0. */
  const BandNames: seq<string> := ["BB_Middle_2_0", "BB_Upper_2_0", "BB_Lower_2_0",
                                   "BB_Middle_2_5", "BB_Upper_2_5", "BB_Lower_2_5",
                                   "BB_Middle_3_0", "BB_Upper_3_0", "BB_Lower_3_0"]
  const LaterNames: seq<string> := ["IsSupport", "IsResistance",
                                    "Min_52w", "Max_52w", "Within_5pct_Max52w", "Within_5pct_Min52w",
                                    "Return_Daily", "Return_Log", "ATR_14"]

  /** `df[name] = ...`: a new name goes last, an existing one keeps its place. */
  function AddColumn(names: seq<string>, name: string): (r: seq<string>)
    ensures names <= r && name in r
    ensures forall x :: x in r ==> x in names || x == name
    ensures Distinct(names) ==> Distinct(r)
  {
    if name in names then names else names + [name]
  }

  /** The names after assigning each of `added` in turn. */
  function AddColumns(names: seq<string>, added: seq<string>): (r: seq<string>)
    ensures names <= r
    ensures forall x :: x in added ==> x in r
    ensures forall x :: x in r ==> x in names || x in added
    ensures Distinct(names) ==> Distinct(r)
  {
    if |added| == 0 then names
    else
      var r := AddColumn(AddColumns(names, added[..|added| - 1]), added[|added| - 1]);
      assert forall x :: x in added[..|added| - 1] ==> x in added;
      r
  }

  /** The names of `names` that are also in `other`, in the order of `names`. */
  function Overlap(names: seq<string>, other: seq<string>): (r: seq<string>)
    ensures forall x :: x in r <==> x in names && x in other
  {
    if |names| == 0 then []
    else Overlap(names[..|names| - 1], other) + (if names[|names| - 1] in other then [names[|names| - 1]] else [])
  }

  /** The names once every column is added: the basic indicators, the MACD
      columns appended by the join, then the Bollinger, flag, 52-week and
      return columns. */
  function EnrichedNames(names: seq<string>): (r: seq<string>)
    requires |Overlap(AddColumns(names, BasicNames), MacdNames)| == 0
  {
    var basic := AddColumns(names, BasicNames);
    AddColumns(AddColumns(basic + MacdNames, BandNames), LaterNames)
  }

  /** Every input column is kept in place, every added column is present,
      nothing else appears, and distinct names stay distinct. */
  lemma EnrichedNamesShape(names: seq<string>)
    requires |Overlap(AddColumns(names, BasicNames), MacdNames)| == 0
    ensures var r := EnrichedNames(names);
            names <= r &&
            (forall x :: x in BasicNames || x in MacdNames || x in BandNames || x in LaterNames ==> x in r) &&
            (forall x :: x in r ==> x in names || x in BasicNames || x in MacdNames || x in BandNames || x in LaterNames) &&
            (Distinct(names) ==> Distinct(r))
  {
    MacdNamesDistinct();
    NamesShape(names, BasicNames, MacdNames, BandNames, LaterNames);
  }

  lemma MacdNamesDistinct()
    ensures Distinct(MacdNames)
  {
  }

  /** The same, for any lists of added names around a join that overlaps
      nothing. */
  lemma NamesShape(names: seq<string>, basicNames: seq<string>, joinedNames: seq<string>,
                   bandNames: seq<string>, laterNames: seq<string>)
    requires Distinct(joinedNames)
    requires |Overlap(AddColumns(names, basicNames), joinedNames)| == 0
    ensures var r := AddColumns(AddColumns(AddColumns(names, basicNames) + joinedNames, bandNames), laterNames);
            names <= r &&
            (forall x :: x in basicNames || x in joinedNames || x in bandNames || x in laterNames ==> x in r) &&
            (forall x :: x in r ==> x in names || x in basicNames || x in joinedNames || x in bandNames || x in laterNames) &&
            (Distinct(names) ==> Distinct(r))
  {
    var basic := AddColumns(names, basicNames);
    var joined := basic + joinedNames;
    var banded := AddColumns(joined, bandNames);
    var r := AddColumns(banded, laterNames);
    PrefixChain(names, basic, joined, banded, r);
    forall x | x in basicNames || x in joinedNames || x in bandNames || x in laterNames ensures x in r {
      if x in basicNames || x in joinedNames {
        assert x in joined;
        PrefixMember(joined, r, x);
      } else if x in bandNames {
        PrefixMember(banded, r, x);
      }
    }
    if Distinct(names) {
      JoinDistinct(basic, joinedNames);
    }
  }

  lemma PrefixMember(a: seq<string>, b: seq<string>, x: string)
    requires a <= b && x in a
    ensures x in b
  {
    var i :| 0 <= i < |a| && a[i] == x;
    assert b[i] == x;
  }

  lemma PrefixChain(a: seq<string>, b: seq<string>, c: seq<string>, d: seq<string>, e: seq<string>)
    requires a <= b && b <= c && c <= d && d <= e
    ensures a <= e
  {
  }

  /** Appending names that are distinct and new keeps names distinct. */
  lemma JoinDistinct(basic: seq<string>, added: seq<string>)
    requires Distinct(basic) && Distinct(added)
    requires forall x :: x in added ==> x !in basic
    ensures Distinct(basic + added)
  {
    var joined := basic + added;
    forall i, j | 0 <= i < j < |joined| ensures joined[i] != joined[j] {
      if j >= |basic| && i < |basic| {
        assert joined[j] in added && joined[i] in basic;
      } else if i >= |basic| {
        assert joined[i] == added[i - |basic|] && joined[j] == added[j - |basic|];
      }
    }
  }

  // ---------------------------------------------------------------------
  // Column values

  /** `close.round(2).isin({round(level, 2) for level in levels})`, with
      `round2` standing for rounding to two decimals. */
  function Flags(close: seq<real>, levels: seq<real>, round2: real -> real): (r: seq<bool>)
    ensures |r| == |close|
    ensures forall t :: 0 <= t < |close| ==> (r[t] <==> exists k :: 0 <= k < |levels| && round2(levels[k]) == round2(close[t]))
  {
    var rounded := set k | 0 <= k < |levels| :: round2(levels[k]);
    seq(|close|, t requires 0 <= t < |close| => round2(close[t]) in rounded)
  }

  /** `Close.pct_change()`: undefined at the first row, and where the
      previous close is 0 (numpy gives an infinity or NaN there). */
  function DailyReturns(close: seq<real>): (r: seq<Option<real>>)
    ensures |r| == |close|
  {
    seq(|close|, t requires 0 <= t < |close| =>
      if t == 0 || close[t - 1] == 0.0 then None else Some(close[t] / close[t - 1] - 1.0))
  }

  /** `Close >= Max_52w * 0.95` (False where the maximum is NaN). */
  function NearMax(close: seq<real>, max52: seq<Option<real>>): (r: seq<bool>)
    requires |max52| == |close|
    ensures |r| == |close|
  {
    seq(|close|, t requires 0 <= t < |close| => max52[t].Some? && close[t] >= max52[t].value * 0.95)
  }

  /** `Close <= Min_52w * 1.05` (False where the minimum is NaN). */
  function NearMin(close: seq<real>, min52: seq<Option<real>>): (r: seq<bool>)
    requires |min52| == |close|
    ensures |r| == |close|
  {
    seq(|close|, t requires 0 <= t < |close| => min52[t].Some? && close[t] <= min52[t].value * 1.05)
  }

  /** The frame passes every check `enrich_dataframe` makes before it can
      raise: Date and Close present, no MACD column yet, High and Low
      present. */
  predicate Enrichable(names: seq<string>)
  {
    "Date" in names && "Close" in names && |Overlap(AddColumns(names, BasicNames), MacdNames)| == 0 &&
    "High" in names && "Low" in names
  }

  /** The enriched frame of a frame that passes every validation. */
  function EnrichedFrame(df: Frame, given: Given, round2: real -> real): (r: Enriched)
    requires Enrichable(df.names)
    requires |df.high| == |df.low| == |df.close|
    requires |given.std21| == |given.min52| == |given.max52| == |df.close|
  {
    var close := df.close;
    var (supports, resistances) := Lv.DetectLocalLevels(close, 3);
    Enriched(
      EnrichedNames(df.names),
      TI.Sma(close, 9), TI.Sma(close, 21), TI.Sma(close, 72),
      TI.Ema(close, 9), TI.Ema(close, 21), TI.Ema(close, 72),
      MI.Rsi(close, 14),
      TI.Macd(close, 12, 26, 9),
      VI.BollingerBands(close, 21, 2.0, given.std21),
      VI.BollingerBands(close, 21, 2.5, given.std21),
      VI.BollingerBands(close, 21, 3.0, given.std21),
      Flags(close, supports, round2), Flags(close, resistances, round2),
      given.min52, given.max52,
      NearMax(close, given.max52), NearMin(close, given.min52),
      DailyReturns(close),
      TI.AverageTrueRange(df.high, df.low, close, 14))
  }

  /** `enrich_dataframe`: raises ValueError without a Date column, KeyError
      without Close, ValueError when the MACD join overlaps existing
      columns, KeyError without High or Low; otherwise the enriched frame. */
  function EnrichDataframe(df: Frame, given: Given, round2: real -> real): (r: Result<Enriched>)
    requires |df.high| == |df.low| == |df.close|
    requires |given.std21| == |given.min52| == |given.max52| == |df.close|
    ensures r.Ok? <==> Enrichable(df.names)
    ensures "Date" !in df.names ==> r == Err(NoDateColumn)
    ensures "Date" in df.names && "Close" !in df.names ==> r == Err(Quote("Close"))
    ensures "Date" in df.names && "Close" in df.names ==>
              var overlap := Overlap(df.names, MacdNames);
              |overlap| > 0 ==> r == Err(OverlapMessage(overlap))
  {
    if "Date" !in df.names then Err(NoDateColumn)
    else if "Close" !in df.names then Err(Quote("Close"))
    else
      var overlap := Overlap(AddColumns(df.names, BasicNames), MacdNames);
      OverlapUnchanged(df.names);
      if |overlap| > 0 then Err(OverlapMessage(overlap))
      else if "High" !in df.names then Err(Quote("High"))
      else if "Low" !in df.names then Err(Quote("Low"))
      else Ok(EnrichedFrame(df, given, round2))
  }

  /** `enrich_dataframe` as written. Every caller hands it a frame indexed
      by row number, while `_calc_52w_metrics` builds Min_52w and Max_52w
      as series indexed by date; assigning them aligns on the frame's
      index, which shares no label with the dates. So both columns are
      NaN on every row and both Within_5pct flags are False; and when two
      rows share a date the alignment itself raises ValueError, after the
      MACD join and before High and Low are read. */
  function EnrichDataframeAsWritten(df: Frame, dates: seq<int>, std21: seq<Option<real>>, round2: real -> real): (r: Result<Enriched>)
    requires |df.high| == |df.low| == |df.close| == |dates| == |std21|
    ensures r.Ok? <==> Enrichable(df.names) && Distinct(dates)
    ensures "Date" !in df.names ==> r == Err(NoDateColumn)
    ensures "Date" in df.names && "Close" !in df.names ==> r == Err(Quote("Close"))
    ensures "Date" in df.names && "Close" in df.names && |Overlap(df.names, MacdNames)| == 0 && !Distinct(dates) ==>
              r == Err(DuplicateLabels)
    ensures r.Ok? ==>
              |r.value.min52w| == |r.value.max52w| == |r.value.withinMax52w| == |r.value.withinMin52w| == |dates| &&
              forall t :: 0 <= t < |dates| ==>
                r.value.min52w[t].None? && r.value.max52w[t].None? && !r.value.withinMax52w[t] && !r.value.withinMin52w[t]
  {
    var unaligned := seq(|dates|, t => None);
    var corrected := EnrichDataframe(df, Given(std21, unaligned, unaligned), round2);
    if "Date" !in df.names || "Close" !in df.names || |Overlap(df.names, MacdNames)| > 0 then
      OverlapUnchanged(df.names);
      corrected
    else if !Distinct(dates) then Err(DuplicateLabels)
    else corrected
  }

  /** Where the weekly maximum is known and the close reaches it, the
      intended enrichment flags the bar as near its 52-week high and the
      enrichment as written does not; with two rows on one date the
      intended enrichment succeeds and the one as written raises. */
  lemma WeeklyColumnsLost(df: Frame, dates: seq<int>, given: Given, round2: real -> real)
    requires |df.high| == |df.low| == |df.close| == |dates|
    requires |given.std21| == |given.min52| == |given.max52| == |df.close|
    requires Enrichable(df.names)
    ensures var intended := EnrichDataframe(df, given, round2);
            var written := EnrichDataframeAsWritten(df, dates, given.std21, round2);
            intended.Ok? &&
            (!Distinct(dates) ==> written == Err(DuplicateLabels)) &&
            (Distinct(dates) ==>
               written.Ok? &&
               forall t :: 0 <= t < |dates| && given.max52[t].Some? && given.max52[t].value >= 0.0 && df.close[t] >= given.max52[t].value ==>
                 intended.value.withinMax52w[t] && !written.value.withinMax52w[t])
  {
    OverlapUnchanged(df.names);
    forall t | 0 <= t < |dates| && given.max52[t].Some? && given.max52[t].value >= 0.0 && df.close[t] >= given.max52[t].value
      ensures EnrichDataframe(df, given, round2).value.withinMax52w[t]
    {
      NearExtremes(df.close, given, t);
    }
  }

  /** Adding one column that is not a MACD name leaves the overlap alone. */
  lemma OverlapAppend(names: seq<string>, x: string)
    requires x !in MacdNames
    ensures Overlap(AddColumn(names, x), MacdNames) == Overlap(names, MacdNames)
  {
    if x !in names {
      assert (names + [x])[..|names|] == names;
    }
  }

  /** The basic indicator names are not MACD names, so the join overlaps
      exactly the MACD columns the input already had. */
  lemma {:induction false} OverlapPrefixUnchanged(names: seq<string>, added: seq<string>)
    requires forall x :: x in added ==> x !in MacdNames
    ensures Overlap(AddColumns(names, added), MacdNames) == Overlap(names, MacdNames)
  {
    if |added| > 0 {
      var init := added[..|added| - 1];
      assert forall x :: x in init ==> x in added;
      OverlapPrefixUnchanged(names, init);
      OverlapAppend(AddColumns(names, init), added[|added| - 1]);
    }
  }

  lemma OverlapUnchanged(names: seq<string>)
    ensures Overlap(AddColumns(names, BasicNames), MacdNames) == Overlap(names, MacdNames)
  {
    OverlapPrefixUnchanged(names, BasicNames);
  }

  // ---------------------------------------------------------------------
  // Properties of the added columns

  /** A flagged bar shares its rounded close with some order-3 extremum
      (soundness), and every extremum is flagged (completeness). */
  lemma FlagsMatchExtrema(close: seq<real>, round2: real -> real, t: nat)
    requires t < |close|
    ensures var (supports, resistances) := Lv.DetectLocalLevels(close, 3);
            (Flags(close, supports, round2)[t] <==>
               exists j :: 0 <= j < |close| && Lv.IsExtremum(close, 3, j, Lv.LessEqual) && round2(close[j]) == round2(close[t])) &&
            (Flags(close, resistances, round2)[t] <==>
               exists j :: 0 <= j < |close| && Lv.IsExtremum(close, 3, j, Lv.GreaterEqual) && round2(close[j]) == round2(close[t]))
  {
    FlagsMatch(close, round2, t, Lv.LessEqual);
    FlagsMatch(close, round2, t, Lv.GreaterEqual);
  }

  lemma FlagsMatch(close: seq<real>, round2: real -> real, t: nat, cmp: Lv.Comparator)
    requires t < |close|
    ensures Flags(close, Lv.DetectExtrema(close, 3, cmp), round2)[t] <==>
              exists j :: 0 <= j < |close| && Lv.IsExtremum(close, 3, j, cmp) && round2(close[j]) == round2(close[t])
  {
    var levels := Lv.DetectExtrema(close, 3, cmp);
    var idx := Lv.ExtremaIndices(close, 3, cmp, |close|);
    if Flags(close, levels, round2)[t] {
      var k :| 0 <= k < |levels| && round2(levels[k]) == round2(close[t]);
      assert Lv.IsExtremum(close, 3, idx[k], cmp) && levels[k] == close[idx[k]];
    }
    if exists j :: 0 <= j < |close| && Lv.IsExtremum(close, 3, j, cmp) && round2(close[j]) == round2(close[t]) {
      var j :| 0 <= j < |close| && Lv.IsExtremum(close, 3, j, cmp) && round2(close[j]) == round2(close[t]);
      assert j in idx;
      var k :| 0 <= k < |idx| && idx[k] == j;
      assert levels[k] == close[j];
    }
  }

  /** A bar can be flagged as a support without being a local minimum:
      with closes 0.5, 1, 1, 1, 1, 0.4, 0.5 the last bar is above the 0.4
      three bars back, yet shares the value 0.5 of the first bar, which
      is a minimum. */
  lemma FlagWithoutExtremum()
    ensures var close := [0.5, 1.0, 1.0, 1.0, 1.0, 0.4, 0.5];
            var (supports, _) := Lv.DetectLocalLevels(close, 3);
            Flags(close, supports, x => x)[6] && !Lv.IsExtremum(close, 3, 6, Lv.LessEqual)
  {
    var close := [0.5, 1.0, 1.0, 1.0, 1.0, 0.4, 0.5];
    assert Lv.IsExtremum(close, 3, 0, Lv.LessEqual);
    assert !Lv.Holds(Lv.LessEqual, close[6], close[5]);
    FlagsMatch(close, x => x, 6, Lv.LessEqual);
  }

  /** A bar closing at or beyond its (non-negative) 52-week maximum is
      flagged as near it, and a flagged bar is within 5 % below it; the
      same for the minimum. */
  lemma NearExtremes(close: seq<real>, given: Given, t: nat)
    requires |given.min52| == |given.max52| == |close| && t < |close|
    ensures var m := given.max52[t];
            (m.Some? && m.value >= 0.0 && close[t] >= m.value ==> NearMax(close, given.max52)[t]) &&
            (NearMax(close, given.max52)[t] ==> m.Some? && close[t] >= m.value - m.value * 0.05)
    ensures var m := given.min52[t];
            (m.Some? && m.value >= 0.0 && close[t] <= m.value ==> NearMin(close, given.min52)[t]) &&
            (NearMin(close, given.min52)[t] ==> m.Some? && close[t] <= m.value + m.value * 0.05)
  {
  }

  /** A daily return is defined from the second row on, where the previous
      close is not 0, and carries the previous close to the current one. */
  lemma DailyReturnGrowth(close: seq<real>, t: nat)
    requires t < |close|
    ensures DailyReturns(close)[t].Some? <==> t > 0 && close[t - 1] != 0.0
    ensures DailyReturns(close)[t].Some? ==> close[t] == close[t - 1] * (1.0 + DailyReturns(close)[t].value)
  {
    if t > 0 && close[t - 1] != 0.0 {
      var p := close[t - 1];
      assert p * (1.0 + (close[t] / p - 1.0)) == p * (close[t] / p);
    }
  }

  /** The Bollinger bands at 2, 2.5 and 3 deviations nest around the same
      middle band. */
  lemma BandsNested(close: seq<real>, std21: seq<Option<real>>, t: nat)
    requires |std21| == |close| && VI.IsDeviation(std21) && t < |close|
    ensures var b20 := VI.BollingerBands(close, 21, 2.0, std21);
            var b25 := VI.BollingerBands(close, 21, 2.5, std21);
            var b30 := VI.BollingerBands(close, 21, 3.0, std21);
            b20.middle == b25.middle == b30.middle &&
            (b20.upper[t].Some? ==>
               b20.lower[t].Some? && b25.upper[t].Some? && b25.lower[t].Some? && b30.upper[t].Some? && b30.lower[t].Some? &&
               b30.lower[t].value <= b25.lower[t].value <= b20.lower[t].value <= b20.middle[t].value &&
               b20.middle[t].value <= b20.upper[t].value <= b25.upper[t].value <= b30.upper[t].value)
  {
    VI.BollingerSymmetric(close, 21, 2.0, std21, t);
    VI.BollingerSymmetric(close, 21, 2.5, std21, t);
    VI.BollingerSymmetric(close, 21, 3.0, std21, t);
  }

  /** ATR_14 is undefined for the first 13 rows and never negative after,
      when every bar's low is at most its high. */
  lemma EnrichedAtr(df: Frame, given: Given, round2: real -> real)
    requires |df.high| == |df.low| == |df.close|
    requires |given.std21| == |given.min52| == |given.max52| == |df.close|
    requires |df.close| > 0 ==> df.low[0] <= df.high[0]
    ensures var r := EnrichDataframe(df, given, round2);
            r.Ok? ==>
              |r.value.atr14| == |df.close| &&
              forall i :: 0 <= i < |df.close| ==>
                (r.value.atr14[i].None? <==> i < 13) && (r.value.atr14[i].Some? ==> r.value.atr14[i].value >= 0.0)
  {
    TI.AtrNonNegative(df.high, df.low, df.close, 14);
  }
}
