/** `analysis/analytics.py`: the windowed-return momentum ranking of a set
    of tickers and the snapshot of selected indicator columns at each
    ticker's latest session. The ticker-to-frame dictionary is a sequence
    of (ticker, frame) pairs in the dictionary's iteration order. */
module Analytics {
  import opened Common

  /** The KeyError pandas raises for `sort_values("Date")` on a frame with
      no Date column. */
  const DateKeyError := "'Date'"

  /** `df.empty`: no rows or no columns. */
  predicate IsEmpty(columns: set<string>, rowCount: nat)
  {
    rowCount == 0 || |columns| == 0
  }

  // ---------------------------------------------------------------------
  // Walking the dictionary

  /** The loop shared by both functions: each (ticker, frame) either
      raises, contributes no row, or contributes one row; the first raise
      ends the walk. */
  function Collect<F, R>(items: seq<(string, F)>, step: (string, F) -> Result<Option<R>>): Result<seq<R>>
  {
    if |items| == 0 then Ok([])
    else
      var n := |items| - 1;
      var prior := Collect(items[..n], step);
      if prior.Err? then prior
      else
        var next := step(items[n].0, items[n].1);
        if next.Err? then Err(next.error)
        else if next.value.Some? then Ok(prior.value + [next.value.value])
        else prior
  }

  /** Once the walk has raised, later entries change nothing. */
  lemma {:induction false} CollectErrPersists<F, R>(items: seq<(string, F)>, step: (string, F) -> Result<Option<R>>, k: nat)
    requires k <= |items| && Collect(items[..k], step).Err?
    ensures Collect(items, step) == Collect(items[..k], step)
  {
    if k < |items| {
      var n := |items| - 1;
      assert items[..n][..k] == items[..k];
      CollectErrPersists(items[..n], step, k);
    } else {
      assert items[..k] == items;
    }
  }

  /** The walk raises iff some entry raises, and then with the error of
      the first entry that does. */
  lemma {:induction false} CollectErr<F, R>(items: seq<(string, F)>, step: (string, F) -> Result<Option<R>>)
    ensures Collect(items, step).Err? <==> exists k :: 0 <= k < |items| && step(items[k].0, items[k].1).Err?
    ensures Collect(items, step).Err? ==>
              exists k :: 0 <= k < |items| && step(items[k].0, items[k].1).Err? &&
                          Collect(items, step).error == step(items[k].0, items[k].1).error &&
                          forall j :: 0 <= j < k ==> step(items[j].0, items[j].1).Ok?
  {
    if |items| > 0 {
      var n := |items| - 1;
      var p := items[..n];
      CollectErr(p, step);
      assert forall j :: 0 <= j < n ==> p[j] == items[j];
      if Collect(p, step).Err? {
        var k :| 0 <= k < |p| && step(p[k].0, p[k].1).Err? &&
                 Collect(p, step).error == step(p[k].0, p[k].1).error &&
                 forall j :: 0 <= j < k ==> step(p[j].0, p[j].1).Ok?;
        assert step(items[k].0, items[k].1).Err?;
      } else if step(items[n].0, items[n].1).Err? {
        assert forall j :: 0 <= j < n ==> step(items[j].0, items[j].1).Ok?;
      } else {
        forall k | 0 <= k < |items| ensures step(items[k].0, items[k].1).Ok? {
          if k < n {
            assert items[k] == p[k];
          }
        }
      }
    }
  }

  /** The kept entries, each made into a row, in order: an independent
      description of what a walk that does not raise returns. */
  function Kept<F, R>(items: seq<(string, F)>, keep: F -> bool, make: (string, F) -> R): (r: seq<R>)
    ensures |r| <= |items|
  {
    if |items| == 0 then []
    else
      var n := |items| - 1;
      Kept(items[..n], keep, make) + (if keep(items[n].1) then [make(items[n].0, items[n].1)] else [])
  }

  /** A walk whose steps keep exactly the frames `keep` accepts, as
      `make` builds them, returns the kept rows when it does not raise. */
  lemma {:induction false} CollectKept<F, R>(items: seq<(string, F)>, step: (string, F) -> Result<Option<R>>,
                                            keep: F -> bool, make: (string, F) -> R)
    requires forall t, f :: step(t, f).Ok? ==> (step(t, f).value.Some? <==> keep(f))
    requires forall t, f :: step(t, f).Ok? && step(t, f).value.Some? ==> step(t, f).value.value == make(t, f)
    ensures Collect(items, step).Ok? ==> Collect(items, step).value == Kept(items, keep, make)
  {
    if |items| > 0 {
      CollectKept(items[..|items| - 1], step, keep, make);
    }
  }

  // ---------------------------------------------------------------------
  // compute_momentum_scores

  /** One row of a price frame. */
  datatype PriceRow = PriceRow(date: int, close: Option<real>)

  /** A price frame: its column names and its rows (the Close cell is read
      only when the frame has a Close column). */
  datatype PriceFrame = PriceFrame(columns: set<string>, rows: seq<PriceRow>)

  /** A row of the result: `Ticker`, `LastClose`, one `Return_<w>` per
      window, `Score`. */
  datatype MomentumRow = MomentumRow(ticker: string, lastClose: Option<real>, windowReturns: seq<Option<real>>, score: Option<real>)

  function EarlierRow(a: PriceRow, b: PriceRow): bool { a.date <= b.date }

  lemma EarlierRowTotal()
    ensures TotalPreorder(EarlierRow)
  {
  }

  /** `df.sort_values("Date")["Close"]`. */
  function SortedCloses(rows: seq<PriceRow>): (r: seq<Option<real>>)
    ensures |r| == |rows|
  {
    EarlierRowTotal();
    var sorted := SortBy(rows, EarlierRow);
    seq(|sorted|, i requires 0 <= i < |sorted| => sorted[i].close)
  }

  /** The position `close.iloc[-window]` reads: `-0` is position 0. */
  function BaseIndex(n: nat, w: nat): (k: nat)
    requires 0 < n && w <= n
    ensures k < n
  {
    if w == 0 then 0 else n - w
  }

  /** `latest / close.iloc[-window] - 1.0`, NaN when there are fewer than
      `window` closes, when either close is NaN, or when the base close is
      0 (where numpy gives an infinity). */
  function WindowReturn(close: seq<Option<real>>, w: nat): Option<real>
  {
    if |close| == 0 || |close| < w then None
    else
      var latest := close[|close| - 1];
      var base := close[BaseIndex(|close|, w)];
      if latest.None? || base.None? || base.value == 0.0 then None
      else Some(latest.value / base.value - 1.0)
  }

  /** A window return is defined exactly when the window fits and both
      closes are present with a non-zero base, and it is the growth that
      takes the base close to the latest one. */
  lemma WindowReturnGrowth(close: seq<Option<real>>, w: nat)
    requires |close| > 0
    ensures WindowReturn(close, w).Some? <==>
              w <= |close| && close[|close| - 1].Some? &&
              close[BaseIndex(|close|, w)].Some? && close[BaseIndex(|close|, w)].value != 0.0
    ensures WindowReturn(close, w).Some? ==>
              close[|close| - 1].value == close[BaseIndex(|close|, w)].value * (1.0 + WindowReturn(close, w).value)
  {
    if WindowReturn(close, w).Some? {
      var latest := close[|close| - 1].value;
      var base := close[BaseIndex(|close|, w)].value;
      assert base * (1.0 + (latest / base - 1.0)) == base * (latest / base);
    }
  }

  function Returns(close: seq<Option<real>>, windows: seq<nat>): (r: seq<Option<real>>)
    ensures |r| == |windows| && forall j :: 0 <= j < |windows| ==> r[j] == WindowReturn(close, windows[j])
  {
    seq(|windows|, j requires 0 <= j < |windows| => WindowReturn(close, windows[j]))
  }

  /** `float(np.nanmean(scores)) if scores else np.nan` over the returns
      that are not NaN. */
  function Score(rets: seq<Option<real>>): Option<real>
  {
    var present := Present(rets);
    if |present| == 0 then None else Some(Mean(present))
  }

  /** `dropna` keeps nothing iff every value is missing. */
  lemma {:induction false} PresentEmpty(s: seq<Option<real>>)
    ensures |Present(s)| == 0 <==> forall i :: 0 <= i < |s| ==> s[i].None?
  {
    if |s| > 0 {
      var p := s[..|s| - 1];
      PresentEmpty(p);
      assert forall i :: 0 <= i < |p| ==> p[i] == s[i];
    }
  }

  /** The score is missing iff every window return is, and otherwise lies
      between the smallest and the largest defined return. */
  lemma ScoreBounds(rets: seq<Option<real>>)
    ensures Score(rets).None? <==> forall j :: 0 <= j < |rets| ==> rets[j].None?
    ensures Score(rets).Some? ==>
              Min(Present(rets)) <= Score(rets).value <= Max(Present(rets))
  {
    PresentEmpty(rets);
    if |Present(rets)| > 0 {
      MeanBounds(Present(rets));
    }
  }

  /** The row of a ticker whose date-sorted closes are `close`. */
  function Momentum(ticker: string, close: seq<Option<real>>, windows: seq<nat>): (r: MomentumRow)
    ensures r.ticker == ticker && |r.windowReturns| == |windows|
  {
    var rets := Returns(close, windows);
    MomentumRow(ticker, if |close| == 0 then None else close[|close| - 1], rets, Score(rets))
  }

  /** A frame contributes a row iff it is not empty and has a Close column
      (and, being sortable, a Date column). */
  predicate Contributes(f: PriceFrame)
  {
    !IsEmpty(f.columns, |f.rows|) && "Date" in f.columns && "Close" in f.columns
  }

  /** One pass of the loop: an empty frame is skipped, a frame without
      Date raises, a frame without Close is skipped, any other frame
      gives its row. */
  function MomentumStep(ticker: string, f: PriceFrame, windows: seq<nat>): Result<Option<MomentumRow>>
  {
    if IsEmpty(f.columns, |f.rows|) then Ok(None)
    else if "Date" !in f.columns then Err(DateKeyError)
    else if "Close" !in f.columns then Ok(None)
    else Ok(Some(Momentum(ticker, SortedCloses(f.rows), windows)))
  }

  /** Descending by score, missing scores last. */
  function ScoreBefore(a: MomentumRow, b: MomentumRow): bool
  {
    match (a.score, b.score)
    case (Some(x), Some(y)) => x >= y
    case (Some(_), None) => true
    case (None, Some(_)) => false
    case (None, None) => true
  }

  lemma ScoreOrderTotal()
    ensures TotalPreorder(ScoreBefore)
  {
  }

  /** What `compute_momentum_scores(data_map, MomentumConfig(windows))`
      gives: the rows sorted by score, best first. */
  function MomentumScores(dataMap: seq<(string, PriceFrame)>, windows: seq<nat>): Result<seq<MomentumRow>>
  {
    var rows := Collect(dataMap, (t, f) => MomentumStep(t, f, windows));
    if rows.Err? then rows
    else
      ScoreOrderTotal();
      Ok(SortBy(rows.value, ScoreBefore))
  }

  /** The ranking raises iff some non-empty frame has no Date column, with
      pandas' KeyError. */
  lemma MomentumErr(dataMap: seq<(string, PriceFrame)>, windows: seq<nat>)
    ensures MomentumScores(dataMap, windows).Err? <==>
              exists k :: 0 <= k < |dataMap| && !IsEmpty(dataMap[k].1.columns, |dataMap[k].1.rows|) && "Date" !in dataMap[k].1.columns
    ensures MomentumScores(dataMap, windows).Err? ==> MomentumScores(dataMap, windows).error == DateKeyError
  {
    var step := (t, f) => MomentumStep(t, f, windows);
    CollectErr(dataMap, step);
  }

  /** Without an error, the ranking holds one row per contributing frame,
      as `Momentum` builds it, best score first and missing scores last. */
  lemma MomentumRanking(dataMap: seq<(string, PriceFrame)>, windows: seq<nat>)
    ensures var r := MomentumScores(dataMap, windows);
            r.Ok? ==>
              var kept := Kept(dataMap, Contributes, (t, f: PriceFrame) => Momentum(t, SortedCloses(f.rows), windows));
              multiset(r.value) == multiset(kept) &&
              (forall i, j :: 0 <= i < j < |r.value| && r.value[i].score.None? ==> r.value[j].score.None?) &&
              (forall i, j :: 0 <= i < j < |r.value| && r.value[i].score.Some? && r.value[j].score.Some? ==>
                 r.value[i].score.value >= r.value[j].score.value)
  {
    var step := (t, f) => MomentumStep(t, f, windows);
    var make := (t, f: PriceFrame) => Momentum(t, SortedCloses(f.rows), windows);
    CollectKept(dataMap, step, Contributes, make);
    var r := MomentumScores(dataMap, windows);
    if r.Ok? {
      ScoreOrderTotal();
      assert SortedBy(r.value, ScoreBefore);
    }
  }

  /** The window loop for one ticker: its rets, collecting the defined
      ones, then their mean. */
  method MomentumRowOf(ticker: string, close: seq<Option<real>>, windows: seq<nat>) returns (row: MomentumRow)
    requires |close| > 0
    ensures row == Momentum(ticker, close, windows)
  {
    var latest := close[|close| - 1];
    var rets: seq<Option<real>> := [];
    var scores: seq<real> := [];
    var j := 0;
    while j < |windows|
      invariant 0 <= j <= |windows|
      invariant |rets| == j && forall k :: 0 <= k < j ==> rets[k] == WindowReturn(close, windows[k])
      invariant scores == Present(rets)
    {
      var w := windows[j];
      var ret: Option<real> := None;
      if |close| >= w {
        var base := close[BaseIndex(|close|, w)];
        if latest.Some? && base.Some? && base.value != 0.0 {
          ret := Some(latest.value / base.value - 1.0);
        }
      }
      assert (rets + [ret])[..j] == rets;
      rets := rets + [ret];
      if ret.Some? {
        scores := scores + [ret.value];
      }
      j := j + 1;
    }
    assert rets == Returns(close, windows);
    var score: Option<real> := if |scores| > 0 then Some(Mean(scores)) else None;
    row := MomentumRow(ticker, latest, rets, score);
  }

  /** `compute_momentum_scores`: the loop over the tickers, then the sort
      by score, descending (an empty result is returned unsorted). */
  method ComputeMomentumScores(dataMap: seq<(string, PriceFrame)>, windows: seq<nat>) returns (r: Result<seq<MomentumRow>>)
    ensures r == MomentumScores(dataMap, windows)
  {
    var rows := MomentumLoop(dataMap, windows);
    if rows.Err? {
      return rows;
    }
    if |rows.value| == 0 {
      return Ok([]);
    }
    ScoreOrderTotal();
    r := Ok(SortBy(rows.value, ScoreBefore));
  }

  /** The loop of `compute_momentum_scores` over the tickers, building `rows`. */
  method MomentumLoop(dataMap: seq<(string, PriceFrame)>, windows: seq<nat>) returns (r: Result<seq<MomentumRow>>)
    ensures r == Collect(dataMap, (t, f) => MomentumStep(t, f, windows))
  {
    ghost var step := (t, f) => MomentumStep(t, f, windows);
    var rows: seq<MomentumRow> := [];
    var i := 0;
    while i < |dataMap|
      invariant 0 <= i <= |dataMap|
      invariant Collect(dataMap[..i], step) == Ok(rows)
    {
      assert dataMap[..i + 1][..i] == dataMap[..i];
      var next := MomentumPass(dataMap[i].0, dataMap[i].1, windows);
      if next.Err? {
        CollectErrPersists(dataMap, step, i + 1);
        return Err(next.error);
      }
      if next.value.Some? {
        rows := rows + [next.value.value];
      }
      i := i + 1;
    }
    assert dataMap[..i] == dataMap;
    r := Ok(rows);
  }

  /** The body of the ticker loop: skip an empty frame, raise on a frame
      without Date, skip a frame without Close, otherwise build the row. */
  method MomentumPass(ticker: string, df: PriceFrame, windows: seq<nat>) returns (r: Result<Option<MomentumRow>>)
    ensures r == MomentumStep(ticker, df, windows)
  {
    if IsEmpty(df.columns, |df.rows|) {
      return Ok(None);
    }
    if "Date" !in df.columns {
      return Err(DateKeyError);
    }
    if "Close" !in df.columns {
      return Ok(None);
    }
    var row := MomentumRowOf(ticker, SortedCloses(df.rows), windows);
    r := Ok(Some(row));
  }

  // ---------------------------------------------------------------------
  // compute_indicator_snapshot

  /** One row of an enriched frame: its date and its cells by column. */
  datatype Record = Record(date: int, values: map<string, Option<real>>)

  datatype IndicatorFrame = IndicatorFrame(columns: set<string>, rows: seq<Record>)

  /** A row of the snapshot: the ticker and one value per requested column. */
  datatype SnapshotRow = SnapshotRow(ticker: string, values: seq<Option<real>>)

  function EarlierRecord(a: Record, b: Record): bool { a.date <= b.date }

  lemma EarlierRecordTotal()
    ensures TotalPreorder(EarlierRecord)
  {
  }

  /** `df.sort_values("Date").iloc[-1]`. */
  function Latest(rows: seq<Record>): (r: Record)
    requires |rows| > 0
  {
    EarlierRecordTotal();
    var sorted := SortBy(rows, EarlierRecord);
    sorted[|sorted| - 1]
  }

  /** The latest row is a row of the frame, and no row is dated later. */
  lemma LatestIsNewest(rows: seq<Record>)
    requires |rows| > 0
    ensures Latest(rows) in rows
    ensures forall k :: 0 <= k < |rows| ==> rows[k].date <= Latest(rows).date
  {
    EarlierRecordTotal();
    var sorted := SortBy(rows, EarlierRecord);
    var last := |sorted| - 1;
    assert sorted[last] in multiset(rows);
    forall k | 0 <= k < |rows| ensures rows[k].date <= sorted[last].date {
      assert rows[k] in multiset(sorted);
      var m :| 0 <= m < |sorted| && sorted[m] == rows[k];
      if m < last {
        assert EarlierRecord(sorted[m], sorted[last]);
      }
    }
  }

  /** `latest.get(col)`: None for a column the row does not have. */
  function Lookup(rec: Record, col: string): Option<real>
  {
    if col in rec.values then rec.values[col] else None
  }

  /** The snapshot row of a non-empty frame. */
  function SnapshotRowOf(ticker: string, rows: seq<Record>, columns: seq<string>): (r: SnapshotRow)
    requires |rows| > 0
    ensures r.ticker == ticker && |r.values| == |columns|
    ensures forall k :: 0 <= k < |columns| ==> r.values[k] == Lookup(Latest(rows), columns[k])
  {
    var latest := Latest(rows);
    SnapshotRow(ticker, seq(|columns|, k requires 0 <= k < |columns| => Lookup(latest, columns[k])))
  }

  function SnapshotStep(ticker: string, f: IndicatorFrame, columns: seq<string>): Result<Option<SnapshotRow>>
  {
    if IsEmpty(f.columns, |f.rows|) then Ok(None)
    else if "Date" !in f.columns then Err(DateKeyError)
    else Ok(Some(SnapshotRowOf(ticker, f.rows, columns)))
  }

  predicate NonEmpty(f: IndicatorFrame)
  {
    !IsEmpty(f.columns, |f.rows|)
  }

  /** What `compute_indicator_snapshot(enriched_map, columns)` gives. */
  function IndicatorSnapshot(enrichedMap: seq<(string, IndicatorFrame)>, columns: seq<string>): Result<seq<SnapshotRow>>
  {
    Collect(enrichedMap, (t, f) => SnapshotStep(t, f, columns))
  }

  /** The snapshot raises iff some non-empty frame has no Date column;
      otherwise it holds one row per non-empty frame, in dictionary order,
      each read from that frame's latest row. */
  lemma IndicatorSnapshotRows(enrichedMap: seq<(string, IndicatorFrame)>, columns: seq<string>)
    ensures IndicatorSnapshot(enrichedMap, columns).Err? <==>
              exists k :: 0 <= k < |enrichedMap| && NonEmpty(enrichedMap[k].1) && "Date" !in enrichedMap[k].1.columns
    ensures var r := IndicatorSnapshot(enrichedMap, columns);
            r.Ok? ==>
              r.value == Kept(enrichedMap, NonEmpty, (t, f: IndicatorFrame) => if |f.rows| > 0 then SnapshotRowOf(t, f.rows, columns) else SnapshotRow(t, []))
  {
    var step := (t, f) => SnapshotStep(t, f, columns);
    CollectErr(enrichedMap, step);
    CollectKept(enrichedMap, step, NonEmpty,
                (t, f: IndicatorFrame) => if |f.rows| > 0 then SnapshotRowOf(t, f.rows, columns) else SnapshotRow(t, []));
  }

  /** The column loop for one frame's latest row. */
  method SnapshotRowFor(ticker: string, rows: seq<Record>, columns: seq<string>) returns (row: SnapshotRow)
    requires |rows| > 0
    ensures row == SnapshotRowOf(ticker, rows, columns)
  {
    var latest := Latest(rows);
    var values: seq<Option<real>> := [];
    var k := 0;
    while k < |columns|
      invariant 0 <= k <= |columns|
      invariant |values| == k && forall m :: 0 <= m < k ==> values[m] == Lookup(latest, columns[m])
    {
      var cell := if columns[k] in latest.values then latest.values[columns[k]] else None;
      values := values + [cell];
      k := k + 1;
    }
    row := SnapshotRow(ticker, values);
  }

  /** `compute_indicator_snapshot`: the loop over the tickers. */
  method ComputeIndicatorSnapshot(enrichedMap: seq<(string, IndicatorFrame)>, columns: seq<string>) returns (r: Result<seq<SnapshotRow>>)
    ensures r == IndicatorSnapshot(enrichedMap, columns)
  {
    ghost var step := (t, f) => SnapshotStep(t, f, columns);
    var rows: seq<SnapshotRow> := [];
    var i := 0;
    while i < |enrichedMap|
      invariant 0 <= i <= |enrichedMap|
      invariant Collect(enrichedMap[..i], step) == Ok(rows)
    {
      var (ticker, df) := enrichedMap[i];
      assert enrichedMap[..i + 1][..i] == enrichedMap[..i];
      if IsEmpty(df.columns, |df.rows|) {
        i := i + 1;
        continue;
      }
      if "Date" !in df.columns {
        CollectErrPersists(enrichedMap, step, i + 1);
        return Err(DateKeyError);
      }
      var row := SnapshotRowFor(ticker, df.rows, columns);
      rows := rows + [row];
      i := i + 1;
    }
    assert enrichedMap[..i] == enrichedMap;
    r := Ok(rows);
  }
}
