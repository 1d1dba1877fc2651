/** `build_features` and the format check of `export_features`
    (ml/features.py): per-row ratios and returns over an enriched frame.
    Dates are day numbers counted from 1970-01-01, a Thursday, so a day
    `d` is a Sunday exactly when `d % 7 == 3`. */
module MlFeatures {
  import opened Common

  /** One input row: its Date cell (None when it does not parse as a
      date), Close, and the indicator cells the features read (None for
      NaN; ignored when the frame lacks that column). */
  datatype InRow = InRow(date: Option<int>, close: real, sma200: Option<real>,
                         upper: Option<real>, lower: Option<real>, rsi14: Option<real>)
  datatype InFrame = InFrame(columns: set<string>, rows: seq<InRow>)

  datatype FeatureRow = FeatureRow(date: int, close: real, distance: Option<real>, bandWidth: Option<real>,
                                   weeklyRsi: Option<real>, ret1: Option<real>, ret5: Option<real>, ret21: Option<real>)
  datatype Features = Features(columns: seq<string>, rows: seq<FeatureRow>)

  datatype Format = Parquet | Csv

  const NoDateColumn := "DataFrame precisa conter coluna 'Date'."
  const BadFormat := "format deve ser 'parquet' ou 'csv'"
  const FeatureColumns: seq<string> := ["Date", "Close", "distancia_preco_MM200", "largura_banda_bollinger",
                                        "IFR_semanal", "ret_1", "ret_5", "ret_21"]
  const DerivedColumns: set<string> := {"distancia_preco_MM200", "largura_banda_bollinger", "IFR_semanal",
                                        "ret_1", "ret_5", "ret_21"}

  // ---------------------------------------------------------------------
  // Dated rows in date order

  /** The rows whose Date parsed (`dropna(subset=["Date"])`). */
  function Dated(rows: seq<InRow>): (r: seq<InRow>)
    ensures |r| <= |rows|
    ensures forall x :: x in r <==> x in rows && x.date.Some?
  {
    if |rows| == 0 then []
    else
      var init := Dated(rows[..|rows| - 1]);
      var last := rows[|rows| - 1];
      assert forall x :: x in rows <==> x in rows[..|rows| - 1] || x == last;
      if last.date.Some? then init + [last] else init
  }

  function DateKey(r: InRow): int { if r.date.Some? then r.date.value else 0 }

  function EarlierRow(a: InRow, b: InRow): bool { DateKey(a) <= DateKey(b) }

  lemma EarlierRowTotal()
    ensures TotalPreorder(EarlierRow)
  {
  }

  /** `sort_values("Date")` of the dated rows. */
  function Ordered(rows: seq<InRow>): (r: seq<InRow>)
    ensures multiset(r) == multiset(Dated(rows))
    ensures forall t :: 0 <= t < |r| ==> r[t].date.Some? && r[t] in rows
    ensures forall i, j :: 0 <= i < j < |r| ==> r[i].date.value <= r[j].date.value
  {
    EarlierRowTotal();
    var r := SortBy(Dated(rows), EarlierRow);
    forall t | 0 <= t < |r| ensures r[t].date.Some? && r[t] in rows {
      SameElements(r, Dated(rows), r[t]);
    }
    r
  }

  // ---------------------------------------------------------------------
  // Per-row features

  /** `distancia_preco_MM200`: the percentage distance of Close above
      SMA_200; missing without the column, where SMA_200 is NaN, or 0. */
  function Distance(hasSma: bool, row: InRow): Option<real>
  {
    if hasSma && row.sma200.Some? && row.sma200.value != 0.0
    then Some((row.close / row.sma200.value - 1.0) * 100.0)
    else None
  }

  /** `largura_banda_bollinger`: the 2-deviation band width over Close;
      missing without both band columns, where a band is NaN, or where
      Close is 0. */
  function BandWidth(hasBands: bool, row: InRow): Option<real>
  {
    if hasBands && row.upper.Some? && row.lower.Some? && row.close != 0.0
    then Some((row.upper.value - row.lower.value) / row.close)
    else None
  }

  /** `close.pct_change(k)`: missing for the first k rows and where the
      close k rows back is 0 (numpy gives an infinity or NaN there). */
  function PctChange(closes: seq<real>, k: nat, t: nat): Option<real>
    requires t < |closes|
  {
    if t < k || closes[t - k] == 0.0 then None else Some(closes[t] / closes[t - k] - 1.0)
  }

  lemma DistanceMeaning(hasSma: bool, row: InRow)
    ensures Distance(hasSma, row).Some? <==> hasSma && row.sma200.Some? && row.sma200.value != 0.0
    ensures Distance(hasSma, row).Some? ==>
              row.close == row.sma200.value * (1.0 + Distance(hasSma, row).value / 100.0)
  {
    if Distance(hasSma, row).Some? {
      var s := row.sma200.value;
      assert (row.close / s - 1.0) * 100.0 / 100.0 == row.close / s - 1.0;
      assert s * (1.0 + (row.close / s - 1.0)) == s * (row.close / s);
    }
  }

  lemma BandWidthMeaning(hasBands: bool, row: InRow)
    ensures BandWidth(hasBands, row).Some? <==>
              hasBands && row.upper.Some? && row.lower.Some? && row.close != 0.0
    ensures BandWidth(hasBands, row).Some? ==>
              BandWidth(hasBands, row).value * row.close == row.upper.value - row.lower.value
  {
  }

  /** A k-bar return is defined from row k on where the base close is not
      0, and carries the base close to the current one. */
  lemma PctChangeGrowth(closes: seq<real>, k: nat, t: nat)
    requires t < |closes|
    ensures PctChange(closes, k, t).Some? <==> t >= k && closes[t - k] != 0.0
    ensures PctChange(closes, k, t).Some? ==> closes[t] == closes[t - k] * (1.0 + PctChange(closes, k, t).value)
  {
    if t >= k && closes[t - k] != 0.0 {
      var b := closes[t - k];
      assert b * (1.0 + (closes[t] / b - 1.0)) == b * (closes[t] / b);
    }
  }

  // ---------------------------------------------------------------------
  // Weekly RSI

  /** The Sunday closing the week of day `d` (the label `resample("W")`
      gives the week holding `d`). */
  function WeekLabel(d: int): (l: int)
    ensures d <= l < d + 7 && l % 7 == 3
  {
    d + (3 - d) % 7
  }

  /** The last Sunday on or before day `d`. */
  function LastWeekEnd(d: int): (l: int)
    ensures d - 7 < l <= d && l % 7 == 3
  {
    d - (d - 3) % 7
  }

  /** The rows of week `l` carry no RSI. */
  ghost predicate NoRsiInWeek(rows: seq<InRow>, l: int, from: int)
    requires forall t :: 0 <= t < |rows| ==> rows[t].date.Some?
  {
    forall k :: from <= k < |rows| && 0 <= k && WeekLabel(rows[k].date.value) == l ==> rows[k].rsi14.None?
  }

  /** `resample("W").last()` at label `l`: the last present RSI among the
      rows of that week, missing when none of them has one. */
  function WeekLast(rows: seq<InRow>, l: int): (r: Option<real>)
    requires forall t :: 0 <= t < |rows| ==> rows[t].date.Some?
    ensures r.None? <==> NoRsiInWeek(rows, l, 0)
    ensures r.Some? ==> exists j :: 0 <= j < |rows| && WeekLabel(rows[j].date.value) == l && rows[j].rsi14 == r &&
                                    NoRsiInWeek(rows, l, j + 1)
  {
    if |rows| == 0 then None
    else
      var last := rows[|rows| - 1];
      if WeekLabel(last.date.value) == l && last.rsi14.Some? then last.rsi14
      else
        var p := WeekLast(rows[..|rows| - 1], l);
        WeekLastStep(rows, l, p, rows[..|rows| - 1]);
        p
  }

  /** When the last row adds no RSI to week `l`, the week's last value over
      the rows before it is its last value over all of them. */
  lemma WeekLastStep(rows: seq<InRow>, l: int, p: Option<real>, pre: seq<InRow>)
    requires forall t :: 0 <= t < |rows| ==> rows[t].date.Some?
    requires |rows| > 0 && pre == rows[..|rows| - 1]
    requires !(WeekLabel(rows[|rows| - 1].date.value) == l && rows[|rows| - 1].rsi14.Some?)
    requires p.None? <==> NoRsiInWeek(pre, l, 0)
    requires p.Some? ==> exists j :: 0 <= j < |pre| && WeekLabel(pre[j].date.value) == l && pre[j].rsi14 == p &&
                                     NoRsiInWeek(pre, l, j + 1)
    ensures p.None? <==> NoRsiInWeek(rows, l, 0)
    ensures p.Some? ==> exists j :: 0 <= j < |rows| && WeekLabel(rows[j].date.value) == l && rows[j].rsi14 == p &&
                                    NoRsiInWeek(rows, l, j + 1)
  {
    PrefixNoRsi(rows, l, 0);
    if p.Some? {
      var j :| 0 <= j < |pre| && WeekLabel(pre[j].date.value) == l && pre[j].rsi14 == p && NoRsiInWeek(pre, l, j + 1);
      PrefixNoRsi(rows, l, j + 1);
      assert rows[j] == pre[j];
    }
  }

  /** Whether the rows from `from` on carry no RSI of week `l` is decided
      by the rows before the last one, and the last one. */
  lemma PrefixNoRsi(rows: seq<InRow>, l: int, from: int)
    requires forall t :: 0 <= t < |rows| ==> rows[t].date.Some?
    requires |rows| > 0 && 0 <= from < |rows|
    ensures NoRsiInWeek(rows, l, from) <==>
            NoRsiInWeek(rows[..|rows| - 1], l, from) &&
            (WeekLabel(rows[|rows| - 1].date.value) == l ==> rows[|rows| - 1].rsi14.None?)
  {
    var p := rows[..|rows| - 1];
    assert forall k :: 0 <= k < |p| ==> p[k] == rows[k];
  }

  /** Each entry, or else the nearest present entry before it (`ffill`). */
  function ForwardFill(xs: seq<Option<real>>): (r: seq<Option<real>>)
    ensures |r| == |xs|
    ensures forall t {:trigger xs[t]} :: 0 <= t < |xs| && xs[t].Some? ==> r[t] == xs[t]
    ensures forall t {:trigger xs[t]} :: 0 < t < |xs| && xs[t].None? ==> r[t] == r[t - 1]
    ensures |xs| > 0 && xs[0].None? ==> r[0].None?
  {
    if |xs| == 0 then []
    else
      var p := ForwardFill(xs[..|xs| - 1]);
      var last := xs[|xs| - 1];
      assert forall t :: 0 <= t < |p| ==> xs[..|xs| - 1][t] == xs[t];
      p + [if last.Some? then last else if |p| > 0 then p[|p| - 1] else None]
  }

  /** A filled entry is the latest present entry at or before it, and an
      entry stays missing exactly while no entry so far is present. */
  lemma {:induction false} ForwardFillLatest(xs: seq<Option<real>>, t: nat)
    requires t < |xs|
    ensures ForwardFill(xs)[t].None? <==> forall j :: 0 <= j <= t ==> xs[j].None?
    ensures ForwardFill(xs)[t].Some? ==>
              exists j :: 0 <= j <= t && xs[j] == ForwardFill(xs)[t] && forall i :: j < i <= t ==> xs[i].None?
  {
    var r := ForwardFill(xs);
    if xs[t].Some? {
      assert r[t] == xs[t];
    } else if t == 0 {
      assert r[0].None?;
    } else {
      ForwardFillLatest(xs, t - 1);
      assert r[t] == r[t - 1];
      if r[t].Some? {
        var j :| 0 <= j <= t - 1 && xs[j] == r[t - 1] && forall i :: j < i <= t - 1 ==> xs[i].None?;
        assert forall i :: j < i <= t ==> xs[i].None?;
      }
    }
  }

  /** The Date cells of the rows, in order. */
  function DateCells(rows: seq<InRow>): (r: seq<Option<int>>)
    ensures |r| == |rows| && forall t :: 0 <= t < |rows| ==> r[t] == rows[t].date
  {
    seq(|rows|, t requires 0 <= t < |rows| => rows[t].date)
  }

  /** `IFR_semanal` as written. Without RSI_14 `_weekly_rsi` returns an
      empty series on the frame's own index. With RSI_14 it returns a
      series labelled by date, and line 61 aligns it on the frame's labels
      0, 1, ... (after `reset_index`): no label matches, so the column is
      missing on every row, and when two rows share a date the alignment
      raises ValueError. */
  function WeeklyRsiAsWritten(hasRsi: bool, rows: seq<InRow>): (r: Result<seq<Option<real>>>)
    ensures r.Err? <==> hasRsi && !Distinct(DateCells(rows))
    ensures r.Err? ==> r.error == DuplicateLabels
    ensures r.Ok? ==> |r.value| == |rows| && forall t :: 0 <= t < |rows| ==> r.value[t].None?
  {
    if hasRsi && !Distinct(DateCells(rows)) then Err(DuplicateLabels)
    else Ok(seq(|rows|, t requires 0 <= t < |rows| => None))
  }

  /** The weekly RSI each date-ordered row is meant to carry: the last RSI
      of the most recent week that ended on or before its date (missing
      before the first week label), then forward filled; missing without
      an RSI_14 column. */
  function WeeklyRsi(hasRsi: bool, rows: seq<InRow>): (r: seq<Option<real>>)
    requires forall t :: 0 <= t < |rows| ==> rows[t].date.Some?
    ensures |r| == |rows|
    ensures !hasRsi ==> forall t :: 0 <= t < |r| ==> r[t].None?
    ensures hasRsi ==> forall t {:trigger WeekValue(rows, t)} :: 0 <= t < |r| && WeekValue(rows, t).Some? ==> r[t] == WeekValue(rows, t)
    ensures hasRsi ==> forall t {:trigger WeekValue(rows, t)} :: 0 < t < |r| && WeekValue(rows, t).None? ==> r[t] == r[t - 1]
    ensures hasRsi && |r| > 0 && WeekValue(rows, 0).None? ==> r[0].None?
  {
    if !hasRsi then seq(|rows|, t requires 0 <= t < |rows| => None)
    else ForwardFill(WeekValues(rows))
  }

  /** The weekly value of every row, before the forward fill. */
  function WeekValues(rows: seq<InRow>): (r: seq<Option<real>>)
    requires forall t :: 0 <= t < |rows| ==> rows[t].date.Some?
    ensures |r| == |rows| && forall t :: 0 <= t < |rows| ==> r[t] == WeekValue(rows, t)
  {
    seq(|rows|, t requires 0 <= t < |rows| => WeekValue(rows, t))
  }

  /** The weekly value a row picks before the forward fill: the last RSI of
      the most recent week label on or before its date, missing when that
      label precedes the first row's week or the week has no RSI. */
  function WeekValue(rows: seq<InRow>, t: nat): (r: Option<real>)
    requires forall t :: 0 <= t < |rows| ==> rows[t].date.Some?
    requires t < |rows|
    ensures r.None? <==> LastWeekEnd(rows[t].date.value) < WeekLabel(rows[0].date.value) ||
                         NoRsiInWeek(rows, LastWeekEnd(rows[t].date.value), 0)
    ensures r.Some? ==> exists j :: 0 <= j < |rows| && WeekLabel(rows[j].date.value) == LastWeekEnd(rows[t].date.value) &&
                                    rows[j].rsi14 == r && NoRsiInWeek(rows, LastWeekEnd(rows[t].date.value), j + 1)
  {
    var l := LastWeekEnd(rows[t].date.value);
    if l < WeekLabel(rows[0].date.value) then None else WeekLast(rows, l)
  }

  /** A value a row carries is the weekly value of the latest row up to
      it that has one; a row carries none exactly when there is no RSI_14
      column or no row up to it has a weekly value. */
  lemma WeeklyRsiLatest(hasRsi: bool, rows: seq<InRow>, t: nat)
    requires forall t :: 0 <= t < |rows| ==> rows[t].date.Some?
    requires t < |rows|
    ensures WeeklyRsi(hasRsi, rows)[t].None? <==> !hasRsi || forall j :: 0 <= j <= t ==> WeekValue(rows, j).None?
    ensures WeeklyRsi(hasRsi, rows)[t].Some? ==>
              exists j :: 0 <= j <= t && WeekValue(rows, j) == WeeklyRsi(hasRsi, rows)[t] &&
                          forall i :: j < i <= t ==> WeekValue(rows, i).None?
  {
    if hasRsi {
      var xs := WeekValues(rows);
      assert WeeklyRsi(hasRsi, rows) == ForwardFill(xs);
      ForwardFillLatest(xs, t);
    }
  }

  /** The weekly RSI never looks ahead: a value a date-ordered row carries
      is the RSI of a row dated no later than it. */
  lemma WeeklyRsiNoLookAhead(hasRsi: bool, rows: seq<InRow>, t: nat)
    requires forall t :: 0 <= t < |rows| ==> rows[t].date.Some?
    requires forall i, j :: 0 <= i < j < |rows| ==> rows[i].date.value <= rows[j].date.value
    requires t < |rows|
    ensures WeeklyRsi(hasRsi, rows)[t].Some? ==>
              exists j :: 0 <= j < |rows| && rows[j].date.value <= rows[t].date.value &&
                          rows[j].rsi14 == WeeklyRsi(hasRsi, rows)[t]
  {
    if hasRsi && WeeklyRsi(hasRsi, rows)[t].Some? {
      var xs := WeekValues(rows);
      assert WeeklyRsi(hasRsi, rows) == ForwardFill(xs);
      var i := FilledFrom(xs, t);
      WeekValueNoLookAhead(rows, i);
      assert rows[i].date.value <= rows[t].date.value by {
        if i < t { assert rows[i].date.value <= rows[t].date.value; }
      }
    }
  }

  /** The entry a present filled value was copied from. */
  lemma FilledFrom(xs: seq<Option<real>>, t: nat) returns (j: nat)
    requires t < |xs| && ForwardFill(xs)[t].Some?
    ensures j <= t && xs[j] == ForwardFill(xs)[t]
  {
    ForwardFillLatest(xs, t);
    j :| 0 <= j <= t && xs[j] == ForwardFill(xs)[t] && forall i :: j < i <= t ==> xs[i].None?;
  }

  /** A row's weekly value is the RSI of a row dated no later than it. */
  lemma WeekValueNoLookAhead(rows: seq<InRow>, t: nat)
    requires forall t :: 0 <= t < |rows| ==> rows[t].date.Some?
    requires t < |rows|
    ensures WeekValue(rows, t).Some? ==>
              exists j :: 0 <= j < |rows| && rows[j].date.value <= rows[t].date.value && rows[j].rsi14 == WeekValue(rows, t)
  {
    var l := LastWeekEnd(rows[t].date.value);
    if WeekValue(rows, t).Some? {
      var j :| 0 <= j < |rows| && WeekLabel(rows[j].date.value) == l && rows[j].rsi14 == WeekValue(rows, t) &&
               NoRsiInWeek(rows, l, j + 1);
      assert rows[j].date.value <= WeekLabel(rows[j].date.value);
    }
  }

  /** A single row dated on a Sunday with an RSI of 50 carries that weekly
      RSI, yet the column as written is missing there. */
  lemma WeeklyRsiLost()
    ensures var rows := [InRow(Some(3), 10.0, None, None, None, Some(50.0))];
            WeeklyRsi(true, rows) == [Some(50.0)] && WeeklyRsiAsWritten(true, rows) == Ok([None])
  {
    var rows := [InRow(Some(3), 10.0, None, None, None, Some(50.0))];
    SundayValue(rows);
    var xs := seq(1, t requires 0 <= t < 1 => WeekValue(rows, t));
    assert xs == [Some(50.0)];
    assert xs[..0] == [];
    assert Distinct(DateCells(rows));
    var none: seq<Option<real>> := seq(1, t requires 0 <= t < 1 => None);
    assert none == [None];
  }

  lemma SundayValue(rows: seq<InRow>)
    requires |rows| == 1 && rows[0].date == Some(3) && rows[0].rsi14 == Some(50.0)
    ensures WeekValue(rows, 0) == Some(50.0)
  {
    assert LastWeekEnd(3) == 3 && WeekLabel(3) == 3;
  }

  // ---------------------------------------------------------------------
  // build_features and export_features

  /** `[c for c in feature_cols if c in data.columns]`. */
  function Selected(wanted: seq<string>, columns: set<string>): (r: seq<string>)
    ensures forall c :: c in r <==> c in wanted && c in columns
  {
    if |wanted| == 0 then []
    else Selected(wanted[..|wanted| - 1], columns) + (if wanted[|wanted| - 1] in columns then [wanted[|wanted| - 1]] else [])
  }

  /** The listed feature columns that exist once the features are added. */
  function OutputColumns(columns: set<string>): seq<string>
  {
    Selected(FeatureColumns, columns + DerivedColumns)
  }

  /** The feature rows of the date-ordered rows, given their weekly RSI. */
  function FeatureRows(columns: set<string>, rows: seq<InRow>, weekly: seq<Option<real>>): (r: seq<FeatureRow>)
    requires forall i :: 0 <= i < |rows| ==> rows[i].date.Some?
    requires |weekly| == |rows|
    ensures |r| == |rows|
    ensures forall t :: 0 <= t < |r| ==> r[t].date == rows[t].date.value && r[t].close == rows[t].close && r[t].weeklyRsi == weekly[t]
  {
    var closes := seq(|rows|, i requires 0 <= i < |rows| => rows[i].close);
    seq(|rows|, t requires 0 <= t < |rows| =>
      FeatureRow(rows[t].date.value, rows[t].close,
                 Distance("SMA_200" in columns, rows[t]),
                 BandWidth("BB_Upper_2_0" in columns && "BB_Lower_2_0" in columns, rows[t]),
                 weekly[t],
                 PctChange(closes, 1, t), PctChange(closes, 5, t), PctChange(closes, 21, t)))
  }

  /** `build_features` with the intended weekly RSI: ValueError without a
      Date column, KeyError without Close; otherwise the feature rows of
      the dated rows in date order. */
  function BuildFeatures(frame: InFrame): (r: Result<Features>)
    ensures r.Err? <==> "Date" !in frame.columns || "Close" !in frame.columns
    ensures "Date" !in frame.columns ==> r == Err(NoDateColumn)
    ensures "Date" in frame.columns && "Close" !in frame.columns ==> r == Err(Quote("Close"))
    ensures r.Ok? ==> |r.value.rows| == |Dated(frame.rows)|
  {
    if "Date" !in frame.columns then Err(NoDateColumn)
    else if "Close" !in frame.columns then Err(Quote("Close"))
    else
      var rows := Ordered(frame.rows);
      assert |rows| == |multiset(rows)| == |multiset(Dated(frame.rows))| == |Dated(frame.rows)|;
      Ok(Features(OutputColumns(frame.columns), FeatureRows(frame.columns, rows, WeeklyRsi("RSI_14" in frame.columns, rows))))
  }

  /** `build_features` as written: the same errors, then, with an RSI_14
      column, the ValueError of line 61 when two dated rows share a date;
      otherwise the intended features with `IFR_semanal` missing on every
      row. */
  function BuildFeaturesAsWritten(frame: InFrame): (r: Result<Features>)
    ensures r.Err? <==> "Date" !in frame.columns || "Close" !in frame.columns ||
                        ("RSI_14" in frame.columns && !Distinct(DateCells(Ordered(frame.rows))))
    ensures "Date" !in frame.columns ==> r == Err(NoDateColumn)
    ensures "Date" in frame.columns && "Close" !in frame.columns ==> r == Err(Quote("Close"))
    ensures "Date" in frame.columns && "Close" in frame.columns && r.Err? ==> r == Err(DuplicateLabels)
    ensures r.Ok? ==>
              var intended := BuildFeatures(frame).value;
              r.value.columns == intended.columns && |r.value.rows| == |intended.rows| &&
              forall t :: 0 <= t < |r.value.rows| ==> r.value.rows[t] == intended.rows[t].(weeklyRsi := None)
  {
    if "Date" !in frame.columns then Err(NoDateColumn)
    else if "Close" !in frame.columns then Err(Quote("Close"))
    else
      var rows := Ordered(frame.rows);
      match WeeklyRsiAsWritten("RSI_14" in frame.columns, rows)
      case Err(e) => Err(e)
      case Ok(weekly) => Ok(Features(OutputColumns(frame.columns), FeatureRows(frame.columns, rows, weekly)))
  }

  /** Every listed column exists once the features are added, so the
      output keeps the whole list in order. */
  lemma FeaturesColumns(frame: InFrame)
    requires BuildFeatures(frame).Ok?
    ensures BuildFeatures(frame).value.columns == FeatureColumns
  {
    assert BuildFeatures(frame).value.columns == OutputColumns(frame.columns);
    var columns := frame.columns + DerivedColumns;
    assert "Date" in columns && "Close" in columns;
    assert forall c :: c in FeatureColumns ==> c in columns;
    SelectedAll(FeatureColumns, columns);
  }

  /** The rows are in date order and each carries the date and close of a
      dated input row. */
  lemma FeaturesRows(frame: InFrame)
    requires BuildFeatures(frame).Ok?
    ensures var f := BuildFeatures(frame).value;
            (forall i, j :: 0 <= i < j < |f.rows| ==> f.rows[i].date <= f.rows[j].date) &&
            (forall t :: 0 <= t < |f.rows| ==>
               FromInput(frame.rows, f.rows[t]))
  {
    var rows := Ordered(frame.rows);
    var out := FeatureRows(frame.columns, rows, WeeklyRsi("RSI_14" in frame.columns, rows));
    assert BuildFeatures(frame).value.rows == out;
    RowsFrom(frame.rows, rows, out);
  }

  lemma RowsFrom(input: seq<InRow>, rows: seq<InRow>, out: seq<FeatureRow>)
    requires forall t :: 0 <= t < |rows| ==> rows[t].date.Some? && rows[t] in input
    requires forall i, j :: 0 <= i < j < |rows| ==> rows[i].date.value <= rows[j].date.value
    requires |out| == |rows|
    requires forall t :: 0 <= t < |out| ==> out[t].date == rows[t].date.value && out[t].close == rows[t].close
    ensures forall i, j :: 0 <= i < j < |out| ==> out[i].date <= out[j].date
    ensures forall t :: 0 <= t < |out| ==> FromInput(input, out[t])
  {
    forall t | 0 <= t < |out| ensures FromInput(input, out[t]) {
      var x := rows[t];
      assert x in input && x.date == Some(out[t].date) && x.close == out[t].close;
    }
  }

  /** The feature row carries the date and close of some input row. */
  predicate FromInput(input: seq<InRow>, r: FeatureRow)
  {
    exists x :: x in input && x.date == Some(r.date) && x.close == r.close
  }

  lemma {:induction false} SelectedAll(wanted: seq<string>, columns: set<string>)
    requires forall c :: c in wanted ==> c in columns
    ensures Selected(wanted, columns) == wanted
  {
    if |wanted| > 0 {
      var init, last := wanted[..|wanted| - 1], wanted[|wanted| - 1];
      assert wanted == init + [last];
      forall c | c in init ensures c in columns {
        assert c in wanted;
      }
      SelectedAll(init, columns);
    }
  }

  /** `format.lower()` compared with "parquet" and "csv". */
  function ExportFormat(format: string): (r: Result<Format>)
  {
    if Lower(format) == "parquet" then Ok(Parquet)
    else if Lower(format) == "csv" then Ok(Csv)
    else Err(BadFormat)
  }

  /** `export_features`: builds the features first, so their errors come
      before a rejected format; the file write is not modelled. */
  function ExportFeatures(frame: InFrame, format: string): (r: Result<(Features, Format)>)
    ensures r.Ok? <==> BuildFeatures(frame).Ok? && ExportFormat(format).Ok?
    ensures BuildFeatures(frame).Err? ==> r == Err(BuildFeatures(frame).error)
    ensures BuildFeatures(frame).Ok? && ExportFormat(format).Err? ==> r == Err(BadFormat)
  {
    match BuildFeatures(frame)
    case Err(e) => Err(e)
    case Ok(f) =>
      match ExportFormat(format)
      case Err(e) => Err(e)
      case Ok(fmt) => Ok((f, fmt))
  }

  /** The format is matched without regard to case: upper-casing it
      changes nothing, and any casing of "parquet" or "csv" is accepted. */
  lemma {:induction false} FormatIgnoresCase(format: string)
    ensures ExportFormat(Upper(format)) == ExportFormat(format)
    ensures ExportFormat(format).Ok? <==> Lower(format) == "parquet" || Lower(format) == "csv"
    ensures ExportFormat("PARQUET") == Ok(Parquet) && ExportFormat("Csv") == Ok(Csv)
    ensures ExportFormat("xlsx").Err?
  {
    FormatNamesPlain();
    LowerUpperPlain(format, "parquet");
    LowerUpperPlain(format, "csv");
    assert Lower("PARQUET") == "parquet";
    assert Lower("Csv") == "csv";
    assert Lower("xlsx") == "xlsx";
  }

  lemma FormatNamesPlain()
    ensures PlainWord("parquet") && PlainWord("csv")
  {
  }
}
