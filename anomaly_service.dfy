/** The backend anomaly service: it delegates to the market-surveillance
    detector when one could be loaded and otherwise applies two rules of
    its own (volume ratio and price move). */
module AnomalyService {
  import opened Common
  import opened MlAnomaly

  /** The service's state: the detector built at start-up, if any. */
  datatype Service = Service(detector: Option<Detector>)

  function VolumeRatio(cur: CurrentData, hist: HistoricalStats): real
  {
    var volume := cur.volume.GetOr(0.0);
    var avgVolume := hist.volumeMa20.GetOr(volume);
    if avgVolume != 0.0 then volume / avgVolume else 1.0
  }

  function PriceChange(cur: CurrentData, hist: HistoricalStats): real
  {
    var prevClose := hist.prevClose.GetOr(cur.close.GetOr(0.0));
    var close := cur.close.GetOr(prevClose);
    if prevClose != 0.0 then (close - prevClose) / prevClose else 0.0
  }

  /** _fallback_detect. The message values are the volume ratio and the
      move in percent; the fallback's messages carry no direction word. */
  function FallbackDetect(stock: string, cur: CurrentData, hist: HistoricalStats, now: string): (r: DetectionResult)
    ensures r.stock == stock && r.timestamp == now && r.features == map[]
    ensures HasAlert(r.alerts, VolumeSpike) <==> VolumeRatio(cur, hist) > 3.0
    ensures HasAlert(r.alerts, PriceMove) <==> Abs(PriceChange(cur, hist)) > 0.05
    ensures forall i :: 0 <= i < |r.alerts| ==>
      r.alerts[i].severity == SevMedium && r.alerts[i].kind in {VolumeSpike, PriceMove}
    ensures |r.alerts| <= 2
    ensures r.isAnomaly <==> |r.alerts| > 0
    ensures r.severityScore == 0.3 * (|r.alerts| as real)
    ensures r.severity == SeverityFor(r.severityScore)
  {
    var ratio := VolumeRatio(cur, hist);
    var change := PriceChange(cur, hist);
    var volumeAlerts := if ratio > 3.0 then [Alert(VolumeSpike, SevMedium, ratio, false)] else [];
    var priceAlerts := if Abs(change) > 0.05 then [Alert(PriceMove, SevMedium, change * 100.0, false)] else [];
    var alerts := volumeAlerts + priceAlerts;
    var score := 0.3 * (|alerts| as real);
    assert HasAlert(alerts, VolumeSpike) <==> ratio > 3.0 by {
      if ratio > 3.0 { assert alerts[0].kind == VolumeSpike; }
    }
    assert HasAlert(alerts, PriceMove) <==> Abs(change) > 0.05 by {
      if Abs(change) > 0.05 { assert alerts[|volumeAlerts|].kind == PriceMove; }
    }
    DetectionResult(stock, now, |alerts| > 0, SeverityFor(score), score, alerts, map[])
  }

  /** The fallback's score is 0, 0.3 or 0.6, so it reports NONE, MEDIUM or
      HIGH but never LOW, and HIGH exactly when both rules fire. */
  lemma FallbackNeverLow(stock: string, cur: CurrentData, hist: HistoricalStats, now: string)
    ensures var r := FallbackDetect(stock, cur, hist, now);
      && r.severityScore in {0.0, 0.3, 0.6}
      && r.severity != SevLow
      && (r.severity == SevHigh <==> VolumeRatio(cur, hist) > 3.0 && Abs(PriceChange(cur, hist)) > 0.05)
      && (r.severity == SevNone <==> !r.isAnomaly)
  {
  }

  /** With no 20-day average volume, or a zero one, the ratio is 1 and no
      volume spike is raised; with no previous close, the move is 0. */
  lemma MissingStatsAreQuiet(stock: string, cur: CurrentData, hist: HistoricalStats, now: string)
    requires hist.volumeMa20 == None || hist.volumeMa20 == Some(0.0)
    ensures VolumeRatio(cur, hist) == 1.0
    ensures !HasAlert(FallbackDetect(stock, cur, hist, now).alerts, VolumeSpike)
    ensures (hist.prevClose == None || hist.prevClose == Some(0.0)) ==>
      !HasAlert(FallbackDetect(stock, cur, hist, now).alerts, PriceMove)
  {
  }

  /** detect: the loaded detector when there is one, else the fallback. */
  function Detect(svc: Service, stock: string, cur: CurrentData, hist: HistoricalStats,
                  now: string, model: Features -> ModelVerdict): (r: DetectionResult)
    ensures svc.detector.Some? ==> r == MlAnomaly.Detect(svc.detector.value, stock, cur, hist, now, model)
    ensures svc.detector.None? ==> r == FallbackDetect(stock, cur, hist, now)
  {
    match svc.detector
    case Some(d) => MlAnomaly.Detect(d, stock, cur, hist, now, model)
    case None => FallbackDetect(stock, cur, hist, now)
  }

  /** A request item; `historical` may be missing. */
  datatype Item = Item(stockCode: string, current: CurrentData, historical: Option<HistoricalStats>)

  /** detect_batch. With a detector every item must carry "historical"
      (the source indexes it, raising KeyError otherwise); without one a
      missing "historical" reads as {}. */
  function DetectBatch(svc: Service, items: seq<Item>, now: string,
                       model: Features -> ModelVerdict): (r: Result<seq<DetectionResult>, string>)
    ensures svc.detector.None? ==> (r.Ok? && |r.value| == |items| &&
      forall i :: 0 <= i < |items| ==>
        r.value[i] == FallbackDetect(items[i].stockCode, items[i].current, items[i].historical.GetOr(NoHistory), now))
    ensures svc.detector.Some? ==>
      (r.Err? <==> exists i :: 0 <= i < |items| && items[i].historical.None?)
    ensures svc.detector.Some? && r.Ok? ==> (|r.value| == |items| &&
      forall i :: 0 <= i < |items| ==>
        r.value[i] == MlAnomaly.Detect(svc.detector.value, items[i].stockCode, items[i].current,
                                       items[i].historical.value, now, model))
  {
    match svc.detector
    case None =>
      Ok(seq(|items|, i requires 0 <= i < |items| =>
        FallbackDetect(items[i].stockCode, items[i].current, items[i].historical.GetOr(NoHistory), now)))
    case Some(d) =>
      if exists i :: 0 <= i < |items| && items[i].historical.None? then Err("KeyError: 'historical'")
      else
        var formatted := seq(|items|, i requires 0 <= i < |items| =>
          BatchItem(items[i].stockCode, items[i].current, items[i].historical.value));
        Ok(MlAnomaly.DetectBatch(d, formatted, now, model))
  }
}
