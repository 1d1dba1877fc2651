// Alerts built from audit summaries (quantfinance/workflows/alerts.py):
// one alert for the missing tickers, one per gap issue, one per read
// failure; a report gathers the alerts of several audits.

module Alerts {
  import opened Common
  import opened Audit

  datatype Alert = Alert(title: string, message: string)

  datatype AlertReport = AlertReport(alerts: seq<Alert>, ok: bool)

  const MissingTitle := ": ativos ausentes"
  const GapTitle := ": gap elevado"
  const FailureTitle := ": falha de leitura"

  /** The alert for the missing tickers: their names in Python's string
      order, joined by ", ". */
  function MissingAlert(title: string, missing: seq<string>): Alert
  {
    LexLeTotalPreorder();
    Alert(title + MissingTitle, Join(SortBy(missing, LexLe), ", "))
  }

  /** The text of a gap alert; `showDate` renders a day number as
      `last_date.date()` prints it. */
  function GapMessage(issue: GapIssue, showDate: int -> string): string
  {
    issue.ticker + " \U{2013} maior gap " + IntToString(issue.maxGap) + "d, gap atual " +
    IntToString(issue.lastGap) + "d (\U{fa}ltima data " + showDate(issue.lastDate) +
    ", arquivo " + issue.path + ")"
  }

  function GapAlert(title: string, issue: GapIssue, showDate: int -> string): Alert
  {
    Alert(title + GapTitle, GapMessage(issue, showDate))
  }

  function FailureAlert(title: string, failure: string): Alert
  {
    Alert(title + FailureTitle, failure)
  }

  function MissingAlerts(title: string, missing: seq<string>): seq<Alert>
  {
    if |missing| > 0 then [MissingAlert(title, missing)] else []
  }

  /** One alert per gap issue, in order. */
  function GapAlerts(title: string, gaps: seq<GapIssue>, showDate: int -> string): seq<Alert>
  {
    seq(|gaps|, k requires 0 <= k < |gaps| => GapAlert(title, gaps[k], showDate))
  }

  /** One alert per failure, in order. */
  function FailureAlerts(title: string, failures: seq<string>): seq<Alert>
  {
    seq(|failures|, k requires 0 <= k < |failures| => FailureAlert(title, failures[k]))
  }

  /** The alerts of one summary: missing first, then gaps, then failures. */
  function AlertsFor(title: string, s: AuditSummary, showDate: int -> string): seq<Alert>
  {
    MissingAlerts(title, s.missing) + GapAlerts(title, s.gaps, showDate) + FailureAlerts(title, s.failures)
  }

  /** `build_alerts_from_summary` */
  method BuildAlertsFromSummary(title: string, s: AuditSummary, showDate: int -> string) returns (alerts: seq<Alert>)
    ensures alerts == AlertsFor(title, s, showDate)
  {
    alerts := [];
    if |s.missing| > 0 {
      alerts := alerts + [MissingAlert(title, s.missing)];
    }
    alerts := AppendGapAlerts(alerts, title, s.gaps, showDate);
    alerts := AppendFailureAlerts(alerts, title, s.failures);
  }

  /** The loop over the gap issues. */
  method AppendGapAlerts(start: seq<Alert>, title: string, gaps: seq<GapIssue>, showDate: int -> string)
    returns (alerts: seq<Alert>)
    ensures alerts == start + GapAlerts(title, gaps, showDate)
  {
    alerts := start;
    for i := 0 to |gaps|
      invariant alerts == start + GapAlerts(title, gaps[..i], showDate)
    {
      GapAlertsStep(title, gaps, showDate, i);
      alerts := alerts + [GapAlert(title, gaps[i], showDate)];
    }
    Whole(gaps);
  }

  /** The loop over the failures. */
  method AppendFailureAlerts(start: seq<Alert>, title: string, failures: seq<string>) returns (alerts: seq<Alert>)
    ensures alerts == start + FailureAlerts(title, failures)
  {
    alerts := start;
    for i := 0 to |failures|
      invariant alerts == start + FailureAlerts(title, failures[..i])
    {
      FailureAlertsStep(title, failures, i);
      alerts := alerts + [FailureAlert(title, failures[i])];
    }
    Whole(failures);
  }

  lemma GapAlertsStep(title: string, gaps: seq<GapIssue>, showDate: int -> string, i: nat)
    requires i < |gaps|
    ensures GapAlerts(title, gaps[..i + 1], showDate) == GapAlerts(title, gaps[..i], showDate) + [GapAlert(title, gaps[i], showDate)]
  {
    assert gaps[..i + 1][..i] == gaps[..i];
  }

  lemma FailureAlertsStep(title: string, failures: seq<string>, i: nat)
    requires i < |failures|
    ensures FailureAlerts(title, failures[..i + 1]) == FailureAlerts(title, failures[..i]) + [FailureAlert(title, failures[i])]
  {
    assert failures[..i + 1][..i] == failures[..i];
  }

  /** How many alerts a summary yields. */
  function AlertCount(s: AuditSummary): nat
  {
    (if |s.missing| > 0 then 1 else 0) + |s.gaps| + |s.failures|
  }

  /** One alert for the missing tickers if any, one per gap, one per failure. */
  lemma AlertsCount(title: string, s: AuditSummary, showDate: int -> string)
    ensures |AlertsFor(title, s, showDate)| == AlertCount(s)
  {
  }

  /** The first alert of a summary with missing tickers is theirs. */
  lemma MissingAlertFirst(title: string, s: AuditSummary, showDate: int -> string)
    requires |s.missing| > 0
    ensures |AlertsFor(title, s, showDate)| > 0 && AlertsFor(title, s, showDate)[0] == MissingAlert(title, s.missing)
  {
    assert AlertsFor(title, s, showDate) ==
           [MissingAlert(title, s.missing)] + (GapAlerts(title, s.gaps, showDate) + FailureAlerts(title, s.failures));
  }

  /** The gap alerts follow the missing alert, one per issue in order. */
  lemma GapAlertAt(title: string, s: AuditSummary, showDate: int -> string, k: nat)
    requires k < |s.gaps|
    ensures var m := if |s.missing| > 0 then 1 else 0;
            m + k < |AlertsFor(title, s, showDate)| &&
            AlertsFor(title, s, showDate)[m + k] == GapAlert(title, s.gaps[k], showDate)
  {
    var x, y, z := MissingAlerts(title, s.missing), GapAlerts(title, s.gaps, showDate), FailureAlerts(title, s.failures);
    PartAt(x, y, z, k);
  }

  /** The failure alerts come last, one per failure in order, carrying
      the failure text. */
  lemma FailureAlertAt(title: string, s: AuditSummary, showDate: int -> string, k: nat)
    requires k < |s.failures|
    ensures var j := (if |s.missing| > 0 then 1 else 0) + |s.gaps| + k;
            j < |AlertsFor(title, s, showDate)| &&
            AlertsFor(title, s, showDate)[j].title == title + FailureTitle &&
            AlertsFor(title, s, showDate)[j].message == s.failures[k]
  {
    var x, y, z := MissingAlerts(title, s.missing), GapAlerts(title, s.gaps, showDate), FailureAlerts(title, s.failures);
    LastPartAt(x, y, z, k);
  }

  lemma PartAt<T>(x: seq<T>, y: seq<T>, z: seq<T>, k: nat)
    requires k < |y|
    ensures (x + y + z)[|x| + k] == y[k]
  {
  }

  lemma LastPartAt<T>(x: seq<T>, y: seq<T>, z: seq<T>, k: nat)
    requires k < |z|
    ensures (x + y + z)[|x| + |y| + k] == z[k]
  {
  }

  /** The missing alert names every missing ticker once, in Python's string
      order. */
  lemma MissingAlertMeaning(title: string, missing: seq<string>)
    ensures MissingAlert(title, missing).title == title + MissingTitle
    ensures exists names :: MissingAlert(title, missing).message == Join(names, ", ") &&
                            SortedBy(names, LexLe) && multiset(names) == multiset(missing)
  {
    LexLeTotalPreorder();
    var names := SortBy(missing, LexLe);
    assert MissingAlert(title, missing).message == Join(names, ", ");
  }

  // ---------------------------------------------------------------------
  // build_alert_report

  /** The alerts of the first summaries, concatenated in input order. */
  function AllAlerts(summaries: seq<(string, AuditSummary)>, showDate: int -> string): seq<Alert>
  {
    if |summaries| == 0 then []
    else
      var last := summaries[|summaries| - 1];
      AllAlerts(summaries[..|summaries| - 1], showDate) + AlertsFor(last.0, last.1, showDate)
  }

  /** `build_alert_report`: all alerts; `ok` when there are none. */
  method BuildAlertReport(summaries: seq<(string, AuditSummary)>, showDate: int -> string) returns (report: AlertReport)
    ensures report.alerts == AllAlerts(summaries, showDate)
    ensures report.ok <==> |report.alerts| == 0
  {
    var alerts: seq<Alert> := [];
    for i := 0 to |summaries|
      invariant alerts == AllAlerts(summaries[..i], showDate)
    {
      var (title, summary) := summaries[i];
      var more := BuildAlertsFromSummary(title, summary, showDate);
      assert summaries[..i + 1][..i] == summaries[..i];
      alerts := alerts + more;
    }
    assert summaries[..|summaries|] == summaries;
    report := AlertReport(alerts, |alerts| == 0);
  }

  /** The report holds each summary's alerts as one block, in input order. */
  lemma {:induction false} ReportBlocks(summaries: seq<(string, AuditSummary)>, showDate: int -> string, i: nat)
    requires i < |summaries|
    ensures var all := AllAlerts(summaries, showDate);
            var start := |AllAlerts(summaries[..i], showDate)|;
            start + AlertCount(summaries[i].1) <= |all| &&
            all[start..start + AlertCount(summaries[i].1)] == AlertsFor(summaries[i].0, summaries[i].1, showDate)
  {
    var pre := AllAlerts(summaries[..i], showDate);
    var blk := AlertsFor(summaries[i].0, summaries[i].1, showDate);
    AlertsCount(summaries[i].0, summaries[i].1, showDate);
    AllAlertsStep(summaries, showDate, i);
    PrefixAlerts(summaries, showDate, i + 1);
    BlockOf(AllAlerts(summaries, showDate), pre, blk);
  }

  lemma AllAlertsStep(summaries: seq<(string, AuditSummary)>, showDate: int -> string, i: nat)
    requires i < |summaries|
    ensures AllAlerts(summaries[..i + 1], showDate) ==
              AllAlerts(summaries[..i], showDate) + AlertsFor(summaries[i].0, summaries[i].1, showDate)
  {
    assert summaries[..i + 1][..i] == summaries[..i];
  }

  lemma BlockOf<T>(all: seq<T>, pre: seq<T>, blk: seq<T>)
    requires |pre| + |blk| <= |all| && all[..|pre| + |blk|] == pre + blk
    ensures all[|pre|..|pre| + |blk|] == blk
  {
    forall k | 0 <= k < |blk|
      ensures all[|pre|..|pre| + |blk|][k] == blk[k]
    {
      assert all[|pre| + k] == all[..|pre| + |blk|][|pre| + k] == (pre + blk)[|pre| + k];
    }
  }

  /** The alerts of a prefix of the summaries are a prefix of the report. */
  lemma {:induction false} PrefixAlerts(summaries: seq<(string, AuditSummary)>, showDate: int -> string, j: nat)
    requires j <= |summaries|
    ensures var pre := AllAlerts(summaries[..j], showDate);
            var all := AllAlerts(summaries, showDate);
            |pre| <= |all| && all[..|pre|] == pre
  {
    if j < |summaries| {
      var init := summaries[..|summaries| - 1];
      PrefixAlerts(init, showDate, j);
      assert init[..j] == summaries[..j];
    } else {
      assert summaries[..j] == summaries;
    }
  }

  /** A summary with no missing ticker, no gap issue and no failure. */
  predicate Quiet(s: AuditSummary)
  {
    s.missing == [] && s.gaps == [] && s.failures == []
  }

  /** The report is ok exactly when no summary has a missing ticker, a gap
      issue or a failure. */
  lemma {:induction false} ReportOk(summaries: seq<(string, AuditSummary)>, showDate: int -> string)
    ensures |AllAlerts(summaries, showDate)| == 0 <==>
              forall i :: 0 <= i < |summaries| ==> Quiet(summaries[i].1)
  {
    if |summaries| > 0 {
      var init := summaries[..|summaries| - 1];
      var last := summaries[|summaries| - 1];
      ReportOk(init, showDate);
      AlertsCount(last.0, last.1, showDate);
      AllQuietStep(summaries, init);
    }
  }

  lemma AllQuietStep(summaries: seq<(string, AuditSummary)>, init: seq<(string, AuditSummary)>)
    requires |summaries| > 0 && init == summaries[..|summaries| - 1]
    ensures (forall i :: 0 <= i < |summaries| ==> Quiet(summaries[i].1)) <==>
              (forall i :: 0 <= i < |init| ==> Quiet(init[i].1)) && Quiet(summaries[|summaries| - 1].1)
  {
    assert forall i :: 0 <= i < |init| ==> init[i] == summaries[i];
  }
}
