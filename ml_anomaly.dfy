/** The market-surveillance anomaly detector: guarded features computed
    from today's bar and the historical statistics, three threshold rules
    (volume spike, price move, gap open) and an optional Isolation Forest
    verdict, summed into a severity score. The trained model is an input:
    `model` stands for "scale the feature vector, then predict". */
module MlAnomaly {
  import opened Common

  datatype Severity = SevNone | SevLow | SevMedium | SevHigh {
    function Name(): string {
      match this
      case SevNone => "NONE"
      case SevLow => "LOW"
      case SevMedium => "MEDIUM"
      case SevHigh => "HIGH"
    }
  }

  datatype AlertKind = VolumeSpike | PriceMove | GapOpen | ModelAnomaly

  /** An alert; `value` is the number its message reports (z-score, ratio,
      move or gap, model score) and `up` the direction word of a price move
      (true for "up"). */
  datatype Alert = Alert(kind: AlertKind, severity: Severity, value: real, up: bool)

  /** Today's bar; every key may be absent. */
  datatype CurrentData = CurrentData(
    volume: Option<real>, close: Option<real>, open: Option<real>,
    high: Option<real>, low: Option<real>, transactions: Option<real>)

  /** The historical statistics; every key may be absent. */
  datatype HistoricalStats = HistoricalStats(
    prevClose: Option<real>, volumeMa20: Option<real>, volumeStd20: Option<real>,
    priceMa20: Option<real>, priceStd20: Option<real>, rangeMa10: Option<real>,
    txMa20: Option<real>)

  const NoHistory := HistoricalStats(None, None, None, None, None, None, None)

  datatype Features = Features(
    volumeZscore: real, volumeRatio: real, priceChange: real, priceChangeAbs: real,
    priceZscore: real, intradayRange: real, rangeRatio: real, gapOpenAbs: real,
    txRatio: real, volPriceRatio: real)
  {
    /** The `features` dictionary of the result. */
    function ToMap(): map<string, real> {
      map["volume_zscore" := volumeZscore, "volume_ratio" := volumeRatio,
          "price_change" := priceChange, "price_change_abs" := priceChangeAbs,
          "price_zscore" := priceZscore, "intraday_range" := intradayRange,
          "range_ratio" := rangeRatio, "gap_open_abs" := gapOpenAbs,
          "tx_ratio" := txRatio, "vol_price_ratio" := volPriceRatio]
    }
  }

  /** What the Isolation Forest says about one feature vector: `predict`
      (-1 for an outlier) and `decision_function`. */
  datatype ModelVerdict = ModelVerdict(prediction: int, score: real)

  /** Which pickles were found on disk when the detector was built. */
  datatype Detector = Detector(modelLoaded: bool, scalerLoaded: bool)

  datatype DetectionResult = DetectionResult(
    stock: string, timestamp: string, isAnomaly: bool, severity: Severity,
    severityScore: real, alerts: seq<Alert>, features: map<string, real>)

  /** The defaults of `_calculate_features`, resolved. */
  datatype Inputs = Inputs(
    volume: real, close: real, open: real, high: real, low: real, prevClose: real,
    volMa: real, volStd: real, priceMa: real, priceStd: real, rangeMa: real, txMa: real,
    transactions: real)

  function ResolveInputs(cur: CurrentData, hist: HistoricalStats): (r: Inputs)
    ensures r.close == cur.close.GetOr(0.0)
    ensures cur.open == None ==> r.open == r.close
    ensures cur.high == None ==> r.high == r.close
    ensures cur.low == None ==> r.low == r.close
    ensures hist.prevClose == None ==> r.prevClose == r.close
    ensures hist.volumeMa20 == None ==> r.volMa == r.volume
    ensures hist.volumeStd20 == None ==> r.volStd == 1.0
    ensures hist.priceStd20 == None ==> r.priceStd == 1.0
  {
    var volume := cur.volume.GetOr(0.0);
    var close := cur.close.GetOr(0.0);
    Inputs(volume, close, cur.open.GetOr(close), cur.high.GetOr(close), cur.low.GetOr(close),
           hist.prevClose.GetOr(close), hist.volumeMa20.GetOr(volume), hist.volumeStd20.GetOr(1.0),
           hist.priceMa20.GetOr(close), hist.priceStd20.GetOr(1.0), hist.rangeMa10.GetOr(0.01),
           hist.txMa20.GetOr(1.0), cur.transactions.GetOr(0.0))
  }

  /** _calculate_features: every division is guarded by its divisor being
      positive. */
  function CalculateFeatures(cur: CurrentData, hist: HistoricalStats): (f: Features)
    ensures var i := ResolveInputs(cur, hist);
      && (i.volStd <= 0.0 ==> f.volumeZscore == 0.0)
      && (i.volMa <= 0.0 ==> f.volumeRatio == 1.0 && f.volPriceRatio == 0.0)
      && (i.priceStd <= 0.0 ==> f.priceZscore == 0.0)
      && (i.prevClose <= 0.0 ==> f.priceChange == 0.0 && f.gapOpenAbs == 0.0)
      && (i.close <= 0.0 ==> f.intradayRange == 0.0)
      && (i.rangeMa <= 0.0 ==> f.rangeRatio == 1.0)
      && (i.txMa <= 0.0 ==> f.txRatio == 1.0)
      && f.priceChangeAbs == Abs(f.priceChange) && f.gapOpenAbs >= 0.0
  {
    var i := ResolveInputs(cur, hist);
    var priceChange := if i.prevClose > 0.0 then (i.close - i.prevClose) / i.prevClose else 0.0;
    var intradayRange := if i.close > 0.0 then (i.high - i.low) / i.close else 0.0;
    var gapOpen := if i.prevClose > 0.0 then (i.open - i.prevClose) / i.prevClose else 0.0;
    Features(
      if i.volStd > 0.0 then (i.volume - i.volMa) / i.volStd else 0.0,
      if i.volMa > 0.0 then i.volume / i.volMa else 1.0,
      priceChange,
      Abs(priceChange),
      if i.priceStd > 0.0 then (i.close - i.priceMa) / i.priceStd else 0.0,
      intradayRange,
      if i.rangeMa > 0.0 then intradayRange / i.rangeMa else 1.0,
      Abs(gapOpen),
      if i.txMa > 0.0 then i.transactions / i.txMa else 1.0,
      if i.volMa > 0.0 then (i.volume / i.volMa) / (Abs(priceChange) + 0.001) else 0.0)
  }

  /** The severity tiers shared by the detector and the rule fallback. */
  function SeverityFor(score: real): (s: Severity)
    ensures s == SevHigh <==> score >= 0.6
    ensures s == SevMedium <==> 0.3 <= score < 0.6
    ensures s == SevLow <==> 0.0 < score < 0.3
    ensures s == SevNone <==> score <= 0.0
  {
    if score >= 0.6 then SevHigh else if score >= 0.3 then SevMedium
    else if score > 0.0 then SevLow else SevNone
  }

  predicate HasAlert(alerts: seq<Alert>, kind: AlertKind)
  {
    exists i :: 0 <= i < |alerts| && alerts[i].kind == kind
  }

  function VolumeRule(f: Features): seq<Alert>
  {
    if f.volumeZscore > 3.0
    then [Alert(VolumeSpike, if f.volumeZscore > 5.0 then SevHigh else SevMedium, f.volumeZscore, false)]
    else []
  }

  function PriceRule(f: Features): seq<Alert>
  {
    if f.priceChangeAbs > 0.05
    then [Alert(PriceMove, if f.priceChangeAbs > 0.10 then SevHigh else SevMedium, f.priceChangeAbs, f.priceChange > 0.0)]
    else []
  }

  function GapRule(f: Features): seq<Alert>
  {
    if f.gapOpenAbs > 0.03 then [Alert(GapOpen, SevMedium, f.gapOpenAbs, false)] else []
  }

  function ModelRule(d: Detector, f: Features, model: Features -> ModelVerdict): seq<Alert>
  {
    if d.modelLoaded && d.scalerLoaded && model(f).prediction == -1
    then [Alert(ModelAnomaly, SevMedium, model(f).score, false)]
    else []
  }

  /** What each alert adds to the severity score. */
  function Weight(kind: AlertKind): real
  {
    match kind
    case VolumeSpike => 0.3
    case PriceMove => 0.3
    case GapOpen => 0.1
    case ModelAnomaly => 0.2
  }

  function Score(alerts: seq<Alert>): real
  {
    if |alerts| == 0 then 0.0
    else Score(alerts[..|alerts| - 1]) + Weight(alerts[|alerts| - 1].kind)
  }

  /** detect. */
  function Detect(d: Detector, stock: string, cur: CurrentData, hist: HistoricalStats,
                  now: string, model: Features -> ModelVerdict): (r: DetectionResult)
    ensures var f := CalculateFeatures(cur, hist);
      && r.stock == stock && r.timestamp == now && r.features == f.ToMap()
      && r.alerts == VolumeRule(f) + PriceRule(f) + GapRule(f) + ModelRule(d, f, model)
      && r.severityScore == Score(r.alerts)
      && r.severity == SeverityFor(r.severityScore)
      && (r.isAnomaly <==> |r.alerts| > 0)
  {
    var f := CalculateFeatures(cur, hist);
    var alerts := VolumeRule(f) + PriceRule(f) + GapRule(f) + ModelRule(d, f, model);
    var score := Score(alerts);
    DetectionResult(stock, now, |alerts| > 0, SeverityFor(score), score, alerts, f.ToMap())
  }

  lemma {:induction false} ScoreConcat(a: seq<Alert>, b: seq<Alert>)
    ensures Score(a + b) == Score(a) + Score(b)
  {
    if |b| == 0 {
      assert a + b == a;
    } else {
      var b' := b[..|b| - 1];
      assert (a + b)[..|a + b| - 1] == a + b';
      assert (a + b)[|a + b| - 1] == b[|b| - 1];
      ScoreConcat(a, b');
    }
  }

  /** A rule contributes no alert or one alert of its own kind. */
  predicate RuleShape(rule: seq<Alert>, kind: AlertKind)
  {
    |rule| <= 1 && forall i :: 0 <= i < |rule| ==> rule[i].kind == kind
  }

  lemma RuleScore(rule: seq<Alert>, kind: AlertKind)
    requires RuleShape(rule, kind)
    ensures Score(rule) == if |rule| == 1 then Weight(kind) else 0.0
  {
    if |rule| == 1 { assert rule[..0] == []; }
  }

  lemma HasAlertConcat(a: seq<Alert>, b: seq<Alert>, kind: AlertKind)
    ensures HasAlert(a + b, kind) <==> HasAlert(a, kind) || HasAlert(b, kind)
  {
    if HasAlert(a, kind) {
      var i :| 0 <= i < |a| && a[i].kind == kind;
      assert (a + b)[i] == a[i];
    }
    if HasAlert(b, kind) {
      var i :| 0 <= i < |b| && b[i].kind == kind;
      assert (a + b)[|a| + i] == b[i];
    }
    if HasAlert(a + b, kind) {
      var i :| 0 <= i < |a + b| && (a + b)[i].kind == kind;
      if i < |a| { assert a[i] == (a + b)[i]; } else { assert b[i - |a|] == (a + b)[i]; }
    }
  }

  lemma RuleHas(rule: seq<Alert>, kind: AlertKind, other: AlertKind)
    requires RuleShape(rule, kind)
    ensures HasAlert(rule, other) <==> |rule| == 1 && other == kind
  {
    if |rule| == 1 && other == kind { assert rule[0].kind == kind; }
  }

  /** Four rules of distinct kinds: each kind is present exactly when its
      rule fired. */
  lemma FourRulesPresence(v: seq<Alert>, p: seq<Alert>, g: seq<Alert>, m: seq<Alert>, k: AlertKind)
    requires RuleShape(v, VolumeSpike) && RuleShape(p, PriceMove)
    requires RuleShape(g, GapOpen) && RuleShape(m, ModelAnomaly)
    ensures HasAlert(v + p + g + m, k) <==>
      (|v| == 1 && k == VolumeSpike) || (|p| == 1 && k == PriceMove) ||
      (|g| == 1 && k == GapOpen) || (|m| == 1 && k == ModelAnomaly)
  {
    HasAlertConcat(v + p + g, m, k);
    HasAlertConcat(v + p, g, k);
    HasAlertConcat(v, p, k);
    RuleHas(v, VolumeSpike, k);
    RuleHas(p, PriceMove, k);
    RuleHas(g, GapOpen, k);
    RuleHas(m, ModelAnomaly, k);
  }

  /** ... and the score is the sum of the fired rules' weights. */
  lemma FourRulesScore(v: seq<Alert>, p: seq<Alert>, g: seq<Alert>, m: seq<Alert>)
    requires RuleShape(v, VolumeSpike) && RuleShape(p, PriceMove)
    requires RuleShape(g, GapOpen) && RuleShape(m, ModelAnomaly)
    ensures Score(v + p + g + m) ==
      (if |v| == 1 then 0.3 else 0.0) + (if |p| == 1 then 0.3 else 0.0) +
      (if |g| == 1 then 0.1 else 0.0) + (if |m| == 1 then 0.2 else 0.0)
  {
    ScoreConcat(v, p);
    ScoreConcat(v + p, g);
    ScoreConcat(v + p + g, m);
    RuleScore(v, VolumeSpike);
    RuleScore(p, PriceMove);
    RuleScore(g, GapOpen);
    RuleScore(m, ModelAnomaly);
  }

  /** The alerts the four rules raise, in rule order. */
  function Alerts(d: Detector, f: Features, model: Features -> ModelVerdict): seq<Alert>
  {
    VolumeRule(f) + PriceRule(f) + GapRule(f) + ModelRule(d, f, model)
  }

  /** Four rules of distinct kinds, each firing exactly under its own
      condition: each kind is present exactly under its condition, the score
      lies in [0, 0.9] and is positive exactly when some rule fired. */
  lemma FourRulesFacts(v: seq<Alert>, p: seq<Alert>, g: seq<Alert>, m: seq<Alert>, cv: bool, cp: bool, cg: bool, cm: bool)
    requires RuleShape(v, VolumeSpike) && RuleShape(p, PriceMove)
    requires RuleShape(g, GapOpen) && RuleShape(m, ModelAnomaly)
    requires (|v| == 1 <==> cv) && (|p| == 1 <==> cp) && (|g| == 1 <==> cg) && (|m| == 1 <==> cm)
    ensures HasAlert(v + p + g + m, VolumeSpike) <==> cv
    ensures HasAlert(v + p + g + m, PriceMove) <==> cp
    ensures HasAlert(v + p + g + m, GapOpen) <==> cg
    ensures HasAlert(v + p + g + m, ModelAnomaly) <==> cm
    ensures 0.0 <= Score(v + p + g + m) <= 0.9
    ensures |v + p + g + m| > 0 <==> Score(v + p + g + m) > 0.0
  {
    FourRulesScore(v, p, g, m);
    FourRulesPresence(v, p, g, m, VolumeSpike);
    FourRulesPresence(v, p, g, m, PriceMove);
    FourRulesPresence(v, p, g, m, GapOpen);
    FourRulesPresence(v, p, g, m, ModelAnomaly);
    assert |v + p + g + m| == |v| + |p| + |g| + |m|;
  }

  /** Each rule raises its alert exactly when its threshold is crossed
      (the model's only when both pickles are loaded and it predicts -1),
      and the score adds 0.3, 0.3, 0.1 and 0.2 per rule, so it never
      exceeds 0.9 and is positive exactly when there is an alert. */
  lemma RulesFire(d: Detector, f: Features, model: Features -> ModelVerdict)
    ensures HasAlert(Alerts(d, f, model), VolumeSpike) <==> f.volumeZscore > 3.0
    ensures HasAlert(Alerts(d, f, model), PriceMove) <==> f.priceChangeAbs > 0.05
    ensures HasAlert(Alerts(d, f, model), GapOpen) <==> f.gapOpenAbs > 0.03
    ensures HasAlert(Alerts(d, f, model), ModelAnomaly) <==> d.modelLoaded && d.scalerLoaded && model(f).prediction == -1
    ensures 0.0 <= Score(Alerts(d, f, model)) <= 0.9
    ensures |Alerts(d, f, model)| > 0 <==> Score(Alerts(d, f, model)) > 0.0
  {
    var v, p, g, m := VolumeRule(f), PriceRule(f), GapRule(f), ModelRule(d, f, model);
    assert RuleShape(v, VolumeSpike) && RuleShape(p, PriceMove);
    assert RuleShape(g, GapOpen) && RuleShape(m, ModelAnomaly);
    FourRulesFacts(v, p, g, m, f.volumeZscore > 3.0, f.priceChangeAbs > 0.05, f.gapOpenAbs > 0.03,
                   d.modelLoaded && d.scalerLoaded && model(f).prediction == -1);
  }

  /** The same facts about a whole detection. */
  lemma DetectRules(d: Detector, stock: string, cur: CurrentData, hist: HistoricalStats,
                    now: string, model: Features -> ModelVerdict)
    ensures var f := CalculateFeatures(cur, hist);
      var r := Detect(d, stock, cur, hist, now, model);
      && (HasAlert(r.alerts, VolumeSpike) <==> f.volumeZscore > 3.0)
      && (HasAlert(r.alerts, PriceMove) <==> f.priceChangeAbs > 0.05)
      && (HasAlert(r.alerts, GapOpen) <==> f.gapOpenAbs > 0.03)
      && (HasAlert(r.alerts, ModelAnomaly) <==> d.modelLoaded && d.scalerLoaded && model(f).prediction == -1)
      && 0.0 <= r.severityScore <= 0.9
      && (r.isAnomaly <==> r.severityScore > 0.0)
      && (r.severity != SevNone <==> r.isAnomaly)
  {
    RulesFire(d, CalculateFeatures(cur, hist), model);
  }

  /** The per-alert severities and the direction word. */
  lemma AlertSeverities(f: Features)
    ensures forall a :: a in VolumeRule(f) ==> (a.severity == SevHigh <==> f.volumeZscore > 5.0)
    ensures forall a :: a in PriceRule(f) ==>
      (a.severity == SevHigh <==> f.priceChangeAbs > 0.10) && (a.up <==> f.priceChange > 0.0)
    ensures forall a :: a in GapRule(f) ==> a.severity == SevMedium
  {
  }

  /** Without both the model and the scaler, the verdict is never consulted. */
  lemma ModelIgnoredUnlessLoaded(d: Detector, stock: string, cur: CurrentData, hist: HistoricalStats,
                                 now: string, m1: Features -> ModelVerdict, m2: Features -> ModelVerdict)
    requires !(d.modelLoaded && d.scalerLoaded)
    ensures Detect(d, stock, cur, hist, now, m1) == Detect(d, stock, cur, hist, now, m2)
  {
  }

  datatype BatchItem = BatchItem(stockName: string, current: CurrentData, historical: HistoricalStats)

  /** detect_batch: one result per item, in input order. */
  function DetectBatch(d: Detector, items: seq<BatchItem>, now: string,
                       model: Features -> ModelVerdict): (r: seq<DetectionResult>)
    ensures |r| == |items|
    ensures forall i :: 0 <= i < |items| ==>
      r[i] == Detect(d, items[i].stockName, items[i].current, items[i].historical, now, model)
  {
    seq(|items|, i requires 0 <= i < |items| =>
      Detect(d, items[i].stockName, items[i].current, items[i].historical, now, model))
  }
}
