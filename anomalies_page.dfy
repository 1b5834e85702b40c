// The inspector's anomaly list: a search over symbol and title combined with
// a severity and a status filter, the header counts over the whole list, the
// colour and label lookups, and the empty state. The anomaly list itself is
// an input.

module AnomaliesPage {
  import opened Common
  import opened Text

  /** One detected anomaly. */
  datatype Anomaly = Anomaly(
    id: int, symbol: string, title: string, description: string,
    kind: string, severity: string, status: string)

  /** severityColors; other severities have no colour. */
  function SeverityColor(severity: string): (c: Option<string>)
    ensures c.Some? <==> severity in SeverityOptions[1..]
  {
    if severity == "critical" then Some("danger")
    else if severity == "high" then Some("warning")
    else if severity == "medium" then Some("primary")
    else if severity == "low" then Some("default")
    else None
  }

  /** statusColors; other statuses have no colour. */
  function StatusColor(status: string): (c: Option<string>)
    ensures c.Some? <==> status in StatusOptions[1..]
  {
    if status == "investigating" then Some("warning")
    else if status == "confirmed" then Some("danger")
    else if status == "reviewing" then Some("primary")
    else if status == "dismissed" then Some("default")
    else None
  }

  /** The type column: the label of a known type, the raw type otherwise. */
  function TypeLabel(kind: string): (shown: string)
    ensures kind !in KnownTypes ==> shown == kind
    ensures kind in KnownTypes ==> shown != kind
  {
    if kind == "volume_spike" then "Volume Spike"
    else if kind == "wash_trading" then "Wash Trading"
    else if kind == "insider_trading" then "Insider Trading"
    else if kind == "price_manipulation" then "Price Manipulation"
    else if kind == "front_running" then "Front Running"
    else kind
  }

  /** The keys of typeLabels. */
  const KnownTypes: seq<string> := ["volume_spike", "wash_trading", "insider_trading", "price_manipulation", "front_running"]

  /** severityOptions and statusOptions. */
  const SeverityOptions: seq<string> := ["all", "critical", "high", "medium", "low"]
  const StatusOptions: seq<string> := ["all", "investigating", "confirmed", "reviewing", "dismissed"]

  /** The row filter: the query in the symbol or the title, ignoring case,
      and each of the two filters 'all' or equal. */
  predicate Shown(a: Anomaly, query: string, severity: string, status: string)
  {
    (IncludesFolded(a.symbol, query) || IncludesFolded(a.title, query)) &&
    (severity == "all" || a.severity == severity) &&
    (status == "all" || a.status == status)
  }

  /** filteredAnomalies: the shown anomalies in list order. */
  function Filtered(anomalies: seq<Anomaly>, query: string, severity: string, status: string): (r: seq<Anomaly>)
    ensures forall a :: a in r <==> a in anomalies && Shown(a, query, severity, status)
    ensures |r| == Count(anomalies, (a: Anomaly) => Shown(a, query, severity, status))
  {
    Filter(anomalies, (a: Anomaly) => Shown(a, query, severity, status))
  }

  /** The empty state is shown exactly when no anomaly passes the filters. */
  lemma EmptyState(anomalies: seq<Anomaly>, query: string, severity: string, status: string)
    ensures |Filtered(anomalies, query, severity, status)| == 0 <==>
      forall i :: 0 <= i < |anomalies| ==> !Shown(anomalies[i], query, severity, status)
  {
    var r := Filtered(anomalies, query, severity, status);
    if |r| > 0 {
      assert r[0] in r;
    }
  }

  /** With every filter at 'all' and no query, every anomaly is shown in its
      original order. */
  lemma NoFilterShowsAll(anomalies: seq<Anomaly>)
    ensures Filtered(anomalies, "", "all", "all") == anomalies
  {
    forall i | 0 <= i < |anomalies| ensures Shown(anomalies[i], "", "all", "all") {
      IncludesEmpty(anomalies[i].symbol);
    }
    FilterAll(anomalies, (a: Anomaly) => Shown(a, "", "all", "all"));
  }

  /** The rows keep the list's order. */
  lemma FilteredInOrder(anomalies: seq<Anomaly>, query: string, severity: string, status: string)
    ensures IsSubsequence(Filtered(anomalies, query, severity, status), anomalies)
  {
    FilterIsSubsequence(anomalies, (a: Anomaly) => Shown(a, query, severity, status));
  }

  predicate IsCritical(a: Anomaly) { a.severity == "critical" }
  predicate IsInvestigating(a: Anomaly) { a.status == "investigating" }

  /** The two header badges, counted over the whole list. */
  function CriticalCount(anomalies: seq<Anomaly>): (n: nat)
    ensures n <= |anomalies|
    ensures n > 0 <==> exists a :: a in anomalies && a.severity == "critical"
  {
    CountPositive(anomalies, IsCritical);
    Count(anomalies, IsCritical)
  }

  function InvestigatingCount(anomalies: seq<Anomaly>): (n: nat)
    ensures n <= |anomalies|
    ensures n > 0 <==> exists a :: a in anomalies && a.status == "investigating"
  {
    CountPositive(anomalies, IsInvestigating);
    Count(anomalies, IsInvestigating)
  }

  /** The badges ignore the filters: whatever the query and the status, the
      rows shown under the 'critical' severity are no more than the critical
      badge, and the rows under 'investigating' no more than that badge. */
  lemma BadgesBoundFilteredRows(anomalies: seq<Anomaly>, query: string, severity: string, status: string)
    ensures |Filtered(anomalies, query, "critical", status)| <= CriticalCount(anomalies)
    ensures |Filtered(anomalies, query, severity, "investigating")| <= InvestigatingCount(anomalies)
  {
    CountImplies(anomalies, (a: Anomaly) => Shown(a, query, "critical", status), IsCritical);
    CountImplies(anomalies, (a: Anomaly) => Shown(a, query, severity, "investigating"), IsInvestigating);
  }
}
