// Coverage audit of stored price series (quantfinance/workflows/audit.py):
// for each expected ticker, is its file there, readable and non-empty,
// and are its dates free of long gaps, including the gap up to today.

module Audit {
  import opened Common

  /** What looking for a ticker's file gives: no file, a read error with
      its message, a file without any usable date, or its dates as day
      numbers in ascending order (what `_collect_dates` returns). */
  datatype FileState = Absent | Unreadable(reason: string) | NoDates | Dates(days: seq<int>)

  datatype GapIssue = GapIssue(ticker: string, maxGap: int, lastGap: int, lastDate: int, path: string)

  datatype AuditSummary = AuditSummary(missing: seq<string>, gaps: seq<GapIssue>, failures: seq<string>)

  /** `_collect_dates` only returns a non-empty ascending series. */
  predicate Collected(f: FileState)
  {
    f.Dates? ==> |f.days| > 0 && NonDecreasingInts(f.days)
  }

  // ---------------------------------------------------------------------
  // _evaluate_series

  /** The largest day difference between consecutive dates; 0 for at most
      one date. */
  function {:induction false} MaxGap(days: seq<int>): (g: int)
    ensures |days| <= 1 ==> g == 0
    ensures forall i :: 0 < i < |days| ==> days[i] - days[i - 1] <= g
    ensures |days| > 1 ==> exists i :: 0 < i < |days| && g == days[i] - days[i - 1]
  {
    if |days| <= 1 then 0
    else
      var n := |days| - 1;
      var init := days[..n];
      var prev := MaxGap(init);
      var d := days[n] - days[n - 1];
      assert forall i :: 0 < i < n ==> init[i] - init[i - 1] == days[i] - days[i - 1];
      if n == 1 || d > prev then d else prev
  }

  /** For ascending dates the largest gap is between 0 and the whole span. */
  lemma MaxGapBounds(days: seq<int>)
    requires |days| > 0 && NonDecreasingInts(days)
    ensures 0 <= MaxGap(days) <= days[|days| - 1] - days[0]
  {
    if |days| > 1 {
      var n := |days| - 1;
      var i :| 0 < i <= n && MaxGap(days) == days[i] - days[i - 1];
      GapWithinSpan(days, i);
    }
  }

  lemma GapWithinSpan(days: seq<int>, i: nat)
    requires 0 < i < |days| && NonDecreasingInts(days)
    ensures 0 <= days[i] - days[i - 1] <= days[|days| - 1] - days[0]
  {
    var n := |days| - 1;
    assert days[i - 1] <= days[i];
    if 0 < i - 1 {
      assert days[0] <= days[i - 1];
    }
    if i < n {
      assert days[i] <= days[n];
    }
  }

  /** `_evaluate_series`: the largest gap, the days from the last date to
      today (`today` is the normalised current day), and the last date. */
  function EvaluateSeries(days: seq<int>, today: int): (r: (int, int, int))
    requires |days| > 0
    ensures r.2 == days[|days| - 1] && r.1 == today - r.2
    ensures forall i :: 0 < i < |days| ==> days[i] - days[i - 1] <= r.0
  {
    (MaxGap(days), today - days[|days| - 1], days[|days| - 1])
  }

  /** A series is reported when its largest gap or the gap up to today
      exceeds the limit. */
  predicate Flagged(days: seq<int>, maxGapDays: int, today: int)
    requires |days| > 0
  {
    var r := EvaluateSeries(days, today);
    r.0 > maxGapDays || r.1 > maxGapDays
  }

  /** Under a non-negative limit, two consecutive dates further apart than
      the limit, or a last date older than the limit, flag the series;
      otherwise it is not flagged. (A negative limit flags every series,
      since the largest gap of a single date is 0.) */
  lemma FlaggedMeaning(days: seq<int>, maxGapDays: int, today: int)
    requires |days| > 0 && maxGapDays >= 0
    ensures Flagged(days, maxGapDays, today) <==>
              (exists i :: 0 < i < |days| && days[i] - days[i - 1] > maxGapDays) ||
              today - days[|days| - 1] > maxGapDays
  {
    assert EvaluateSeries(days, today).0 == MaxGap(days);
    if |days| > 1 && MaxGap(days) > maxGapDays {
      var i :| 0 < i < |days| && MaxGap(days) == days[i] - days[i - 1];
      assert days[i] - days[i - 1] > maxGapDays;
    }
    if exists i :: 0 < i < |days| && days[i] - days[i - 1] > maxGapDays {
      var i :| 0 < i < |days| && days[i] - days[i - 1] > maxGapDays;
      assert days[i] - days[i - 1] <= MaxGap(days);
    }
  }

  // ---------------------------------------------------------------------
  // _audit_directory

  function PathOf(dataDir: string, ticker: string, suffix: string): string
  {
    dataDir + "/" + ticker + suffix
  }

  /** The failure noted for a ticker whose file cannot be used. */
  function FailureOf(ticker: string, path: string, f: FileState): Option<string>
  {
    match f
    case Unreadable(reason) => Some(ticker + ": erro ao ler " + path + " (" + reason + ")")
    case NoDates => Some(ticker + ": arquivo vazio em " + path)
    case _ => None
  }

  /** The audit parameters: where files are, their suffix, the gap limit,
      today's date, and what each ticker's file holds. */
  datatype Setting = Setting(dataDir: string, suffix: string, maxGapDays: int, today: int, probe: string -> FileState)

  ghost predicate Sound(c: Setting)
  {
    forall t :: Collected(c.probe(t))
  }

  function PathFor(c: Setting, ticker: string): string
  {
    PathOf(c.dataDir, ticker, c.suffix)
  }

  predicate IsMissing(c: Setting, ticker: string)
  {
    c.probe(ticker).Absent?
  }

  predicate IsFailing(c: Setting, ticker: string)
  {
    c.probe(ticker).Unreadable? || c.probe(ticker).NoDates?
  }

  predicate HasGap(c: Setting, ticker: string)
    requires Sound(c)
  {
    c.probe(ticker).Dates? && Flagged(c.probe(ticker).days, c.maxGapDays, c.today)
  }

  function IssueFor(c: Setting, ticker: string): GapIssue
    requires Sound(c) && c.probe(ticker).Dates?
  {
    var days := c.probe(ticker).days;
    var (maxGap, lastGap, lastDate) := EvaluateSeries(days, c.today);
    GapIssue(ticker, maxGap, lastGap, lastDate, PathFor(c, ticker))
  }

  /** One turn of the loop: the ticker joins the list of its kind. */
  function Visit(c: Setting, s: AuditSummary, ticker: string): AuditSummary
    requires Sound(c)
  {
    if IsMissing(c, ticker) then s.(missing := s.missing + [ticker])
    else if IsFailing(c, ticker) then
      s.(failures := s.failures + [FailureOf(ticker, PathFor(c, ticker), c.probe(ticker)).value])
    else if HasGap(c, ticker) then s.(gaps := s.gaps + [IssueFor(c, ticker)])
    else s
  }

  /** The summary after the loop has visited `expected`. */
  function Audited(c: Setting, expected: seq<string>): AuditSummary
    requires Sound(c)
  {
    if |expected| == 0 then AuditSummary([], [], [])
    else Visit(c, Audited(c, expected[..|expected| - 1]), expected[|expected| - 1])
  }

  /** `_audit_directory`: every expected ticker goes to `missing` when its
      file is absent, to `failures` when it cannot be read or holds no
      date, and to `gaps` when its series is flagged. */
  method AuditDirectory(c: Setting, expected: seq<string>) returns (summary: AuditSummary)
    requires Sound(c)
    ensures summary == Audited(c, expected)
  {
    var missing: seq<string> := [];
    var gaps: seq<GapIssue> := [];
    var failures: seq<string> := [];
    for i := 0 to |expected|
      invariant AuditSummary(missing, gaps, failures) == Audited(c, expected[..i])
    {
      var ticker := expected[i];
      assert expected[..i + 1][..i] == expected[..i];
      var path := PathOf(c.dataDir, ticker, c.suffix);
      var state := c.probe(ticker);
      if state.Absent? {
        missing := missing + [ticker];
      } else if state.Unreadable? {
        failures := failures + [ticker + ": erro ao ler " + path + " (" + state.reason + ")"];
      } else if state.NoDates? {
        failures := failures + [ticker + ": arquivo vazio em " + path];
      } else {
        var (maxGap, lastGap, lastDate) := EvaluateSeries(state.days, c.today);
        if maxGap > c.maxGapDays || lastGap > c.maxGapDays {
          gaps := gaps + [GapIssue(ticker, maxGap, lastGap, lastDate, path)];
        }
      }
    }
    assert expected[..|expected|] == expected;
    summary := AuditSummary(missing, gaps, failures);
  }

  // ---------------------------------------------------------------------
  // Properties of the audit

  function GapTickers(gaps: seq<GapIssue>): (r: seq<string>)
    ensures |r| == |gaps| && forall k :: 0 <= k < |gaps| ==> r[k] == gaps[k].ticker
  {
    seq(|gaps|, k requires 0 <= k < |gaps| => gaps[k].ticker)
  }

  /** The three lists are the expected tickers of each kind, in the order
      of `expected`; each gap issue carries its ticker's evaluation and
      each failure its ticker's message. */
  lemma {:induction false} AuditedLists(c: Setting, expected: seq<string>)
    requires Sound(c)
    ensures var s := Audited(c, expected);
            var failing := Select(expected, t => IsFailing(c, t));
            s.missing == Select(expected, t => IsMissing(c, t)) &&
            GapTickers(s.gaps) == Select(expected, t => HasGap(c, t)) &&
            (forall k :: 0 <= k < |s.gaps| ==> HasGap(c, s.gaps[k].ticker) && s.gaps[k] == IssueFor(c, s.gaps[k].ticker)) &&
            |s.failures| == |failing| &&
            (forall k :: 0 <= k < |failing| ==>
               Some(s.failures[k]) == FailureOf(failing[k], PathFor(c, failing[k]), c.probe(failing[k])))
  {
    if |expected| > 0 {
      var init, ticker := expected[..|expected| - 1], expected[|expected| - 1];
      assert expected == init + [ticker];
      AuditedLists(c, init);
      var s := Audited(c, init);
      if !IsMissing(c, ticker) && !IsFailing(c, ticker) && HasGap(c, ticker) {
        assert GapTickers(s.gaps + [IssueFor(c, ticker)]) == GapTickers(s.gaps) + [ticker];
      }
    }
  }

  /** Each expected ticker lands in exactly the list of its kind, so in at
      most one list; every list keeps the order of `expected`. */
  lemma AuditClassifies(c: Setting, expected: seq<string>, t: string)
    requires Sound(c) && t in expected
    ensures var s := Audited(c, expected);
            (t in s.missing <==> IsMissing(c, t)) &&
            (t in GapTickers(s.gaps) <==> HasGap(c, t)) &&
            (t in s.missing ==> t !in GapTickers(s.gaps) && !IsFailing(c, t)) &&
            (t in GapTickers(s.gaps) ==> !IsFailing(c, t)) &&
            InOrderOf(s.missing, expected) && InOrderOf(GapTickers(s.gaps), expected) &&
            InOrderOf(Select(expected, t => IsFailing(c, t)), expected)
  {
    AuditedLists(c, expected);
  }

  /** The scenario of the repository's audit tests: a ticker whose dates
      lie 15 days apart is flagged under a 7-day limit whatever today is,
      and a ticker without a file is reported missing. */
  lemma GapAndMissingExample(c: Setting)
    requires Sound(c) && c.maxGapDays == 7
    requires c.probe("AAA") == Dates([19723, 19738, 19753, 19768]) && c.probe("BBB") == Absent
    ensures Audited(c, ["AAA", "BBB"]).missing == ["BBB"]
    ensures |Audited(c, ["AAA", "BBB"]).gaps| == 1 && Audited(c, ["AAA", "BBB"]).gaps[0].ticker == "AAA"
  {
    var days := c.probe("AAA").days;
    assert days[1] - days[0] == 15;
    FlaggedMeaning(days, 7, c.today);
    TwoTickers(c, "AAA", "BBB");
  }

  /** A ticker with dates and a ticker without a file: only the second is
      missing, whatever the dates and the limit. */
  lemma MissingExample(c: Setting)
    requires Sound(c)
    requires c.probe("AAA").Dates? && c.probe("BBB") == Absent
    ensures Audited(c, ["AAA", "BBB"]).missing == ["BBB"]
  {
    TwoTickers(c, "AAA", "BBB");
  }

  lemma TwoTickers(c: Setting, a: string, b: string)
    requires Sound(c)
    ensures Audited(c, [a, b]).missing ==
              (if IsMissing(c, a) then [a] else []) + (if IsMissing(c, b) then [b] else [])
    ensures !IsMissing(c, a) && !IsFailing(c, a) && HasGap(c, a) && IsMissing(c, b) ==>
              Audited(c, [a, b]).gaps == [IssueFor(c, a)]
  {
    assert [a, b][..1] == [a] && [a][..0] == [];
    assert Audited(c, [a]) == Visit(c, AuditSummary([], [], []), a);
    assert Audited(c, [a, b]) == Visit(c, Audited(c, [a]), b);
  }
}
