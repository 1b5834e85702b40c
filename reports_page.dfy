// The inspector's reports page: the type filter, the four quick statistics
// and the per-report icon and download button. The report list itself is an
// input.

module ReportsPage {
  import opened Common

  /** One report; `size` is missing while it is being generated. */
  datatype Report = Report(
    id: int, title: string, kind: string, date: string,
    status: string, size: Option<string>)

  /** reportTypes. */
  const ReportTypes: seq<string> := ["all", "surveillance", "anomaly", "investigation", "compliance"]

  /** filteredReports: the list itself for 'all', otherwise the reports of
      that type in list order. */
  function FilteredReports(reports: seq<Report>, typeFilter: string): (r: seq<Report>)
    ensures typeFilter == "all" ==> r == reports
    ensures typeFilter != "all" ==> forall x :: x in r <==> x in reports && x.kind == typeFilter
    ensures typeFilter != "all" ==> |r| == Count(reports, (x: Report) => x.kind == typeFilter)
  {
    if typeFilter == "all" then reports else Filter(reports, (x: Report) => x.kind == typeFilter)
  }

  /** The filtered list keeps the order of the reports. */
  lemma FilteredInOrder(reports: seq<Report>, typeFilter: string)
    ensures IsSubsequence(FilteredReports(reports, typeFilter), reports)
  {
    if typeFilter == "all" {
      FilterAll(reports, (x: Report) => true);
      FilterIsSubsequence(reports, (x: Report) => true);
    } else {
      FilterIsSubsequence(reports, (x: Report) => x.kind == typeFilter);
    }
  }

  predicate IsReady(r: Report) { r.status == "ready" }
  predicate IsGenerating(r: Report) { r.status == "generating" }

  /** The month the "This Month" card counts, written into the page. */
  const ThisMonth: string := "2025-02"

  predicate InThisMonth(r: Report) { StartsWith(r.date, ThisMonth) }

  /** The quick statistics. */
  datatype QuickStats = QuickStats(total: nat, ready: nat, generating: nat, thisMonth: nat)

  /** The four cards: all reports, the ready ones, the ones being generated
      and those dated in February 2025, each over the unfiltered list; ready
      and generating never overlap. */
  function StatsOf(reports: seq<Report>): (st: QuickStats)
    ensures st.total == |reports|
    ensures st.ready == Count(reports, IsReady) && st.generating == Count(reports, IsGenerating)
    ensures st.ready + st.generating <= st.total
    ensures st.thisMonth == Count(reports, InThisMonth) && st.thisMonth <= st.total
  {
    CountDisjoint(reports, IsReady, IsGenerating);
    QuickStats(|reports|, Count(reports, IsReady), Count(reports, IsGenerating), Count(reports, InThisMonth))
  }

  /** The month is a fixed prefix, not the current month: a report is
      counted exactly when its date starts with "2025-02", so reports of
      any other month, added whenever, never change the card. */
  lemma ThisMonthIsFixed(reports: seq<Report>, later: seq<Report>)
    requires forall i :: 0 <= i < |later| ==> |later[i].date| >= 7 && later[i].date[..7] != ThisMonth
    ensures forall r: Report :: |r.date| >= 7 ==> (InThisMonth(r) <==> r.date[..7] == ThisMonth)
    ensures StatsOf(reports + later).thisMonth == StatsOf(reports).thisMonth
  {
    forall r: Report | |r.date| >= 7 ensures InThisMonth(r) <==> r.date[..7] == ThisMonth {
      assert |ThisMonth| == 7;
    }
    CountConcat(reports, later, InThisMonth);
    CountPositive(later, InThisMonth);
    forall x | x in later ensures !InThisMonth(x) {
      var i :| 0 <= i < |later| && later[i] == x;
      assert |ThisMonth| == 7;
    }
  }

  /** The icon of a report: its type's icon, FileText for an unknown type. */
  function TypeIcon(kind: string): (icon: string)
    ensures kind !in ReportTypes[1..] ==> icon == "FileText"
    ensures kind == "compliance" <==> icon == "CheckCircle"
    ensures kind == "anomaly" <==> icon == "Clock"
  {
    if kind == "anomaly" then "Clock" else if kind == "compliance" then "CheckCircle" else "FileText"
  }

  /** The Download button is offered exactly for ready reports; every other
      report shows the disabled "Generating..." button. */
  function DownloadOffered(r: Report): (offered: bool)
    ensures offered <==> IsReady(r)
  {
    r.status == "ready"
  }

  /** The number of Download buttons under a filter is at most the ready
      card. */
  lemma DownloadsBoundedByReady(reports: seq<Report>, typeFilter: string)
    ensures Count(FilteredReports(reports, typeFilter), DownloadOffered) <= StatsOf(reports).ready
  {
    if typeFilter == "all" {
      CountSame(reports, DownloadOffered, IsReady);
    } else {
      CountOfFilter(reports, (x: Report) => x.kind == typeFilter, DownloadOffered);
      CountSame(reports, DownloadOffered, IsReady);
    }
  }
}
