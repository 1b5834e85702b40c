// The anomaly panel shown beside a stock: the translation of the anomaly
// endpoint's answer into a list of alerts, the panel's loading and error
// state around the request, and dismissing an alert. The request itself and
// the clock (the alerts' timestamp) are inputs.

module AnomalyPanel {
  import opened Common

  /** One entry of the answer's `anomalies` list; every field may be
      missing. */
  datatype RawAnomaly = RawAnomaly(
    severity: Option<string>, kind: Option<string>,
    description: Option<string>, message: Option<string>,
    value: Option<real>, threshold: Option<real>)

  /** The endpoint's answer: a list of anomalies, or the single-verdict
      fields. */
  datatype Response = Response(
    anomalies: Option<seq<RawAnomaly>>, isAnomaly: bool,
    severity: Option<string>, anomalyType: Option<string>,
    description: Option<string>, score: Option<real>)

  /** One alert of the panel. */
  datatype Alert = Alert(
    id: int, severity: string, kind: string, message: Option<string>,
    value: Option<real>, threshold: Option<real>, timestamp: string)

  const DefaultSeverity: string := "medium"
  const DefaultType: string := "default"
  const DefaultMessage: string := "Anomalie detectee dans les donnees de trading"
  const LoadError: string := "Erreur lors du chargement des anomalies"

  /** JavaScript's `s || fallback` on an optional string: the empty string
      is falsy. */
  function OrText(s: Option<string>, fallback: string): (r: string)
    ensures s.Some? && s.value != "" ==> r == s.value
    ensures s.None? || s.value == "" ==> r == fallback
    ensures fallback != "" ==> r != ""
  {
    if s.Some? && s.value != "" then s.value else fallback
  }

  /** `a || b` on two optional strings. */
  function EitherText(a: Option<string>, b: Option<string>): (r: Option<string>)
    ensures a.Some? && a.value != "" ==> r == a
    ensures a.None? || a.value == "" ==> r == b
  {
    if a.Some? && a.value != "" then a else b
  }

  /** Whether the answer carries a non-empty anomaly list. */
  predicate HasList(data: Response)
  {
    data.anomalies.Some? && |data.anomalies.value| > 0
  }

  /** The alert for the `i`-th entry of the list. */
  function AlertOf(a: RawAnomaly, i: int, timestamp: string): (alert: Alert)
    ensures alert.id == i && alert.timestamp == timestamp
    ensures alert.severity == OrText(a.severity, DefaultSeverity) && alert.severity != ""
    ensures alert.kind == OrText(a.kind, DefaultType) && alert.kind != ""
    ensures alert.message == EitherText(a.description, a.message)
    ensures alert.value == a.value && alert.threshold == a.threshold
  {
    Alert(i, OrText(a.severity, DefaultSeverity), OrText(a.kind, DefaultType),
      EitherText(a.description, a.message), a.value, a.threshold, timestamp)
  }

  /** The alert for a single-verdict answer. */
  function VerdictAlert(data: Response, timestamp: string): (alert: Alert)
    ensures alert.id == 0 && alert.timestamp == timestamp
    ensures alert.severity == OrText(data.severity, DefaultSeverity)
    ensures alert.kind == OrText(data.anomalyType, DefaultType)
    ensures alert.message == Some(OrText(data.description, DefaultMessage))
    ensures alert.value == data.score && alert.threshold.None?
  {
    Alert(0, OrText(data.severity, DefaultSeverity), OrText(data.anomalyType, DefaultType),
      Some(OrText(data.description, DefaultMessage)), data.score, None, timestamp)
  }

  /** The alerts of an answer: one per entry of a non-empty list, numbered
      by position; otherwise one alert for a positive verdict; otherwise
      none. Every alert's id is its position, and every alert has a
      severity and a type. */
  function AlertsOf(data: Response, timestamp: string): (alerts: seq<Alert>)
    ensures HasList(data) ==> |alerts| == |data.anomalies.value|
    ensures HasList(data) ==> forall i :: 0 <= i < |alerts| ==> alerts[i] == AlertOf(data.anomalies.value[i], i, timestamp)
    ensures !HasList(data) && data.isAnomaly ==> alerts == [VerdictAlert(data, timestamp)]
    ensures !HasList(data) && !data.isAnomaly ==> alerts == []
    ensures forall i :: 0 <= i < |alerts| ==> alerts[i].id == i
    ensures forall i :: 0 <= i < |alerts| ==> alerts[i].severity != "" && alerts[i].kind != ""
  {
    if HasList(data) then
      var raw := data.anomalies.value;
      seq(|raw|, i requires 0 <= i < |raw| => AlertOf(raw[i], i, timestamp))
    else if data.isAnomaly then [VerdictAlert(data, timestamp)]
    else []
  }

  /** dismissAnomaly's update: the alerts without that id, in order. */
  function Dismissed(alerts: seq<Alert>, id: int): (r: seq<Alert>)
    ensures forall a :: a in r <==> a in alerts && a.id != id
    ensures |r| <= |alerts|
  {
    Filter(alerts, (a: Alert) => a.id != id)
  }

  /** Dismissing keeps the remaining alerts in their order. */
  lemma DismissedInOrder(alerts: seq<Alert>, id: int)
    ensures IsSubsequence(Dismissed(alerts, id), alerts)
  {
    FilterIsSubsequence(alerts, (a: Alert) => a.id != id);
  }

  /** Dismissing an id no alert carries changes nothing. */
  lemma DismissAbsent(alerts: seq<Alert>, id: int)
    requires forall i :: 0 <= i < |alerts| ==> alerts[i].id != id
    ensures Dismissed(alerts, id) == alerts
  {
    FilterAll(alerts, (a: Alert) => a.id != id);
  }

  /** A predicate that fails at exactly one position counts all the others. */
  lemma {:induction false} CountAllBut<T>(s: seq<T>, p: T -> bool, k: int)
    requires 0 <= k < |s|
    requires forall i :: 0 <= i < |s| ==> (p(s[i]) <==> i != k)
    ensures Count(s, p) == |s| - 1
  {
    var front := s[..|s| - 1];
    if k == |s| - 1 {
      FilterAll(front, p);
    } else {
      CountAllBut(front, p, k);
    }
  }

  /** On a freshly fetched list, dismissing the alert at a position removes
      exactly that one alert. */
  lemma DismissFetchedRemovesOne(data: Response, timestamp: string, id: int)
    requires 0 <= id < |AlertsOf(data, timestamp)|
    ensures |Dismissed(AlertsOf(data, timestamp), id)| == |AlertsOf(data, timestamp)| - 1
    ensures AlertsOf(data, timestamp)[id] !in Dismissed(AlertsOf(data, timestamp), id)
  {
    CountAllBut(AlertsOf(data, timestamp), (a: Alert) => a.id != id, id);
  }

  /** The panel's state. */
  class AnomalyPanelView {
    var anomalies: seq<Alert>
    var isLoading: bool
    var error: Option<string>

    constructor()
      ensures anomalies == [] && !isLoading && error.None?
    {
      anomalies := [];
      isLoading := false;
      error := None;
    }

    /** The count badge next to the title, shown only when there are
        alerts. */
    function Badge(): (n: Option<nat>)
      reads this
      ensures n.Some? <==> |anomalies| > 0
      ensures n.Some? ==> n.value == |anomalies|
    {
      if |anomalies| > 0 then Some(|anomalies|) else None
    }

    /** fetchAnomalies: nothing without a stock code; otherwise the request's
        answer replaces the alerts, or a failure sets the error message and
        keeps the previous alerts; loading ends either way. */
    method FetchAnomalies(stockCode: Option<string>, response: Result<Response, string>, timestamp: string)
      modifies this
      ensures stockCode.None? || stockCode.value == "" ==>
        anomalies == old(anomalies) && isLoading == old(isLoading) && error == old(error)
      ensures stockCode.Some? && stockCode.value != "" ==> !isLoading
      ensures stockCode.Some? && stockCode.value != "" && response.Ok? ==>
        anomalies == AlertsOf(response.value, timestamp) && error.None?
      ensures stockCode.Some? && stockCode.value != "" && response.Err? ==>
        anomalies == old(anomalies) && error == Some(LoadError)
    {
      if stockCode.None? || stockCode.value == "" {
        return;
      }
      isLoading := true;
      error := None;
      match response {
        case Ok(data) =>
          anomalies := AlertsOf(data, timestamp);
        case Err(_) =>
          error := Some(LoadError);
      }
      isLoading := false;
    }

    /** dismissAnomaly. */
    method Dismiss(id: int)
      modifies this`anomalies
      ensures anomalies == Dismissed(old(anomalies), id)
    {
      anomalies := Filter(anomalies, (a: Alert) => a.id != id);
    }
  }
}
