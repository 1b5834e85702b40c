/** The investor risk profiler: behaviour metrics are derived from the
    investor's trades, alerts and simulator trades, scored against the
    aggressive and conservative thresholds, and turned into a profile with
    a confidence and four recommendations. */
module InvestorProfile {
  import opened Common

  datatype RiskProfile = Conservative | Moderate | Aggressive {
    /** The enum's string value. */
    function Name(): string {
      match this
      case Conservative => "conservative"
      case Moderate => "moderate"
      case Aggressive => "aggressive"
    }
  }

  /** A trade record. An absent `timestamp` reads as 0; an absent
      `hold_duration` or `pnl_pct` is falsy, exactly like 0, so both are
      represented by 0.0. */
  datatype Trade = Trade(timestamp: real, holdDuration: real, pnlPct: real)

  /** A simulator trade; the caller has applied the source defaults
      (`position_size_pct` 10, `volatility` 0). */
  datatype SimTrade = SimTrade(positionSizePct: real, volatility: real)

  datatype BehaviorMetrics = BehaviorMetrics(
    tradeFrequency: real,
    avgHoldDurationDays: real,
    lossTolerancePct: real,
    volatilityPreference: real,
    alertSensitivity: real,
    simulationRiskTaking: real)

  datatype TradeAnalysis = TradeAnalysis(frequency: real, avgHold: real, avgLossTolerance: real)

  /** `analyze_alerts` returns a different dictionary shape for no alerts. */
  datatype AlertAnalysis =
    | NoAlerts
    | AlertStats(sensitivity: real, priceAlertRatio: real, anomalyFocus: real)
  {
    function Sensitivity(): real {
      if NoAlerts? then 0.5 else sensitivity
    }
  }

  datatype SimAnalysis = SimAnalysis(riskTaking: real, avgPositionSize: real)

  datatype ProfileScore = ProfileScore(profile: RiskProfile, confidence: real, aggressive: real, conservative: real)

  datatype InvestorProfileResult = InvestorProfileResult(
    score: ProfileScore, metrics: BehaviorMetrics, recommendations: seq<string>)

  // ---------------------------------------------------------------- trades

  /** The truthy hold durations, in trade order. */
  function HoldDurations(trades: seq<Trade>): seq<real>
  {
    if |trades| == 0 then []
    else HoldDurations(trades[..|trades| - 1]) +
         (if trades[|trades| - 1].holdDuration != 0.0 then [trades[|trades| - 1].holdDuration] else [])
  }

  /** |pnl_pct| of the losing trades, in trade order. */
  function LossTolerances(trades: seq<Trade>): seq<real>
  {
    if |trades| == 0 then []
    else LossTolerances(trades[..|trades| - 1]) +
         (if trades[|trades| - 1].pnlPct < 0.0 then [-trades[|trades| - 1].pnlPct] else [])
  }

  function DaysActive(trades: seq<Trade>): real
    requires |trades| >= 2
  {
    Max((trades[|trades| - 1].timestamp - trades[0].timestamp) / 86400.0, 1.0)
  }

  /** What `analyze_trades` computes. */
  function TradeAnalysisOf(trades: seq<Trade>): TradeAnalysis
  {
    if |trades| == 0 then TradeAnalysis(0.0, 0.0, 10.0)
    else if |trades| < 2 then TradeAnalysis(1.0, 14.0, 10.0)
    else
      var holds := HoldDurations(trades);
      var losses := LossTolerances(trades);
      TradeAnalysis(
        (|trades| as real) / DaysActive(trades) * 7.0,
        if |holds| > 0 then Mean(holds) else 14.0,
        if |losses| > 0 then Mean(losses) else 10.0)
  }

  /** analyze_trades: the loop over the trades collects the hold durations
      and loss tolerances, then averages them. */
  method AnalyzeTrades(trades: seq<Trade>) returns (r: TradeAnalysis)
    ensures r == TradeAnalysisOf(trades)
  {
    if |trades| == 0 {
      return TradeAnalysis(0.0, 0.0, 10.0);
    }
    var totalTrades := |trades|;
    if totalTrades < 2 {
      return TradeAnalysis(1.0, 14.0, 10.0);
    }
    var firstTrade := trades[0].timestamp;
    var lastTrade := trades[|trades| - 1].timestamp;
    var daysActive := Max((lastTrade - firstTrade) / 86400.0, 1.0);
    var frequency := (totalTrades as real) / daysActive * 7.0;

    var holdDurations: seq<real> := [];
    var lossTolerances: seq<real> := [];
    var i := 0;
    while i < |trades|
      invariant 0 <= i <= |trades|
      invariant holdDurations == HoldDurations(trades[..i])
      invariant lossTolerances == LossTolerances(trades[..i])
    {
      assert trades[..i + 1][..i] == trades[..i];
      var trade := trades[i];
      if trade.holdDuration != 0.0 {
        holdDurations := holdDurations + [trade.holdDuration];
      }
      if trade.pnlPct < 0.0 {
        lossTolerances := lossTolerances + [-trade.pnlPct];
      }
      i := i + 1;
    }
    assert trades[..i] == trades;
    var avgHold := if |holdDurations| > 0 then Sum(holdDurations) / (|holdDurations| as real) else 14.0;
    var avgLoss := if |lossTolerances| > 0 then Sum(lossTolerances) / (|lossTolerances| as real) else 10.0;
    r := TradeAnalysis(frequency, avgHold, avgLoss);
  }

  /** No trades gives (0, 0, 10); a single trade gives (1, 14, 10). */
  lemma FewTrades(trades: seq<Trade>)
    requires |trades| < 2
    ensures |trades| == 0 ==> TradeAnalysisOf(trades) == TradeAnalysis(0.0, 0.0, 10.0)
    ensures |trades| == 1 ==> TradeAnalysisOf(trades) == TradeAnalysis(1.0, 14.0, 10.0)
  {
  }

  /** The day divisor is never below 1, so the weekly frequency is positive
      and at most seven times the number of trades. */
  lemma FrequencyBounds(trades: seq<Trade>)
    requires |trades| >= 2
    ensures DaysActive(trades) >= 1.0
    ensures 0.0 < TradeAnalysisOf(trades).frequency <= 7.0 * (|trades| as real)
  {
    var n := |trades| as real;
    var d := DaysActive(trades);
    assert n / d <= n by {
      assert n / d * d == n;
    }
  }

  lemma {:induction false} HoldDurationsTruthy(trades: seq<Trade>)
    ensures forall i :: 0 <= i < |HoldDurations(trades)| ==> HoldDurations(trades)[i] != 0.0
    ensures |HoldDurations(trades)| == 0 <==> forall j :: 0 <= j < |trades| ==> trades[j].holdDuration == 0.0
  {
    if |trades| > 0 {
      var pre := trades[..|trades| - 1];
      HoldDurationsTruthy(pre);
      assert forall j :: 0 <= j < |pre| ==> pre[j] == trades[j];
    }
  }

  lemma {:induction false} LossTolerancesPositive(trades: seq<Trade>)
    ensures forall i :: 0 <= i < |LossTolerances(trades)| ==> LossTolerances(trades)[i] > 0.0
    ensures |LossTolerances(trades)| == 0 <==> forall j :: 0 <= j < |trades| ==> trades[j].pnlPct >= 0.0
  {
    if |trades| > 0 {
      var pre := trades[..|trades| - 1];
      LossTolerancesPositive(pre);
      assert forall j :: 0 <= j < |pre| ==> pre[j] == trades[j];
    }
  }

  /** avg_hold falls back to 14 exactly when no trade has a truthy hold
      duration; loss tolerance falls back to 10 exactly when no trade lost,
      and otherwise it is the (positive) mean of the losses. */
  lemma AveragesDefaults(trades: seq<Trade>)
    requires |trades| >= 2
    ensures (forall j :: 0 <= j < |trades| ==> trades[j].holdDuration == 0.0) ==>
              TradeAnalysisOf(trades).avgHold == 14.0
    ensures (forall j :: 0 <= j < |trades| ==> trades[j].pnlPct >= 0.0) ==>
              TradeAnalysisOf(trades).avgLossTolerance == 10.0
    ensures (exists j :: 0 <= j < |trades| && trades[j].pnlPct < 0.0) ==>
              TradeAnalysisOf(trades).avgLossTolerance == Mean(LossTolerances(trades)) > 0.0
  {
    HoldDurationsTruthy(trades);
    LossTolerancesPositive(trades);
    var holds := HoldDurations(trades);
    var losses := LossTolerances(trades);
    var t := TradeAnalysisOf(trades);
    assert t.avgHold == if |holds| > 0 then Mean(holds) else 14.0;
    assert t.avgLossTolerance == if |losses| > 0 then Mean(losses) else 10.0;
    if |losses| > 0 {
      SumPositive(losses);
      DivPositive(Sum(losses), |losses| as real);
    }
  }

  // ---------------------------------------------------------------- alerts

  datatype Alert = Alert(kind: string)

  function AlertSensitivity(total: nat): real
  {
    if total > 10 then 0.8 else if total > 5 then 0.6 else if total < 2 then 0.3 else 0.5
  }

  /** analyze_alerts. */
  function AnalyzeAlerts(alerts: seq<Alert>): (r: AlertAnalysis)
    ensures |alerts| == 0 <==> r.NoAlerts?
    ensures r.AlertStats? ==> 0.0 <= r.priceAlertRatio <= 1.0 && 0.0 <= r.anomalyFocus <= 1.0
    ensures r.AlertStats? ==> r.sensitivity == AlertSensitivity(|alerts|)
  {
    if |alerts| == 0 then NoAlerts
    else
      var total := |alerts| as real;
      var prices := Count(alerts, (a: Alert) => a.kind == "price") as real;
      var anomalies := Count(alerts, (a: Alert) => a.kind == "anomaly") as real;
      RatioBounds(prices, total);
      RatioBounds(anomalies, total);
      AlertStats(AlertSensitivity(|alerts|), prices / total, anomalies / total)
  }

  /** The sensitivity tiers: 0.5 with no alerts, 0.8 with more than ten,
      0.6 with six to ten, 0.3 with exactly one, 0.5 otherwise. */
  lemma SensitivityTiers(alerts: seq<Alert>)
    ensures var s := AnalyzeAlerts(alerts).Sensitivity();
      && (|alerts| == 0 ==> s == 0.5)
      && (|alerts| > 10 ==> s == 0.8)
      && (6 <= |alerts| <= 10 ==> s == 0.6)
      && (|alerts| == 1 ==> s == 0.3)
      && (2 <= |alerts| <= 5 ==> s == 0.5)
  {
  }

  // ----------------------------------------------------------- simulations

  function RiskTaking(avgPosition: real, riskRatio: real): real
  {
    if avgPosition > 20.0 && riskRatio > 0.5 then 0.8
    else if avgPosition < 10.0 && riskRatio < 0.3 then 0.2
    else 0.3 + avgPosition / 100.0 + riskRatio * 0.3
  }

  function PositionSizes(sims: seq<SimTrade>): (r: seq<real>)
    ensures |r| == |sims| && forall i :: 0 <= i < |sims| ==> r[i] == sims[i].positionSizePct
  {
    seq(|sims|, i requires 0 <= i < |sims| => sims[i].positionSizePct)
  }

  /** analyze_simulations. */
  function AnalyzeSimulations(sims: seq<SimTrade>): (r: SimAnalysis)
    ensures |sims| == 0 ==> r == SimAnalysis(0.5, 0.1)
    ensures r.riskTaking <= 1.0
    ensures |sims| > 0 ==> r.avgPositionSize == Mean(PositionSizes(sims)) / 100.0
  {
    if |sims| == 0 then SimAnalysis(0.5, 0.1)
    else
      var avgPosition := Mean(PositionSizes(sims));
      SimAnalysis(Min(RiskTaking(avgPosition, VolatileRatio(sims)), 1.0), avgPosition / 100.0)
  }

  predicate IsVolatilePick(t: SimTrade) { t.volatility > 0.3 }

  /** The share of simulator trades on volatile stocks. */
  function VolatileRatio(sims: seq<SimTrade>): (r: real)
    requires |sims| > 0
    ensures 0.0 <= r <= 1.0
  {
    var k := Count(sims, IsVolatilePick);
    RatioBounds(k as real, |sims| as real);
    (k as real) / (|sims| as real)
  }

  /** risk_taking takes one of three forms, always capped at 1. */
  lemma RiskTakingForms(sims: seq<SimTrade>)
    requires |sims| > 0
    ensures var avg := Mean(PositionSizes(sims));
      var ratio := VolatileRatio(sims);
      var rt := AnalyzeSimulations(sims).riskTaking;
      && (avg > 20.0 && ratio > 0.5 ==> rt == 0.8)
      && (avg < 10.0 && ratio < 0.3 ==> rt == 0.2)
      && (!(avg > 20.0 && ratio > 0.5) && !(avg < 10.0 && ratio < 0.3) ==>
            rt == Min(0.3 + avg / 100.0 + 0.3 * ratio, 1.0))
  {
  }

  // --------------------------------------------------------------- scoring

  /** The part of the aggressive score earned from the four criteria. */
  function AggressiveCriteria(m: BehaviorMetrics): real
  {
    (if m.tradeFrequency >= 5.0 then 0.25 else 0.0) +
    (if m.avgHoldDurationDays <= 7.0 then 0.2 else 0.0) +
    (if m.lossTolerancePct >= 15.0 then 0.2 else 0.0) +
    (if m.volatilityPreference >= 0.6 then 0.15 else 0.0)
  }

  function ConservativeCriteria(m: BehaviorMetrics): real
  {
    (if m.tradeFrequency <= 2.0 then 0.25 else 0.0) +
    (if m.avgHoldDurationDays >= 30.0 then 0.2 else 0.0) +
    (if m.lossTolerancePct <= 5.0 then 0.2 else 0.0) +
    (if m.volatilityPreference <= 0.3 then 0.15 else 0.0)
  }

  /** The profile choice from the two scores. */
  function ChooseProfile(agg: real, cons: real): (r: ProfileScore)
    ensures r.aggressive == agg && r.conservative == cons
    ensures r.profile == Aggressive <==> agg > cons + 0.2
    ensures r.profile == Conservative <==> cons > agg + 0.2
    ensures r.profile == Moderate <==> (agg <= cons + 0.2 && cons <= agg + 0.2)
    ensures r.profile == Moderate ==> 0.6 <= r.confidence <= 0.8
    ensures r.profile != Moderate ==> r.confidence <= 1.0
  {
    if agg > cons + 0.2 then ProfileScore(Aggressive, Min(agg + 0.3, 1.0), agg, cons)
    else if cons > agg + 0.2 then ProfileScore(Conservative, Min(cons + 0.3, 1.0), agg, cons)
    else ProfileScore(Moderate, 0.6 + Abs(agg - cons), agg, cons)
  }

  /** calculate_profile: the two scores are accumulated criterion by
      criterion, then the profile is chosen. */
  method CalculateProfile(m: BehaviorMetrics) returns (r: ProfileScore)
    ensures r == ChooseProfile(AggressiveCriteria(m) + m.simulationRiskTaking * 0.2, ConservativeCriteria(m))
  {
    var aggressiveScore := 0.0;
    var conservativeScore := 0.0;
    if m.tradeFrequency >= 5.0 {
      aggressiveScore := aggressiveScore + 0.25;
    } else if m.tradeFrequency <= 2.0 {
      conservativeScore := conservativeScore + 0.25;
    }
    if m.avgHoldDurationDays <= 7.0 {
      aggressiveScore := aggressiveScore + 0.2;
    } else if m.avgHoldDurationDays >= 30.0 {
      conservativeScore := conservativeScore + 0.2;
    }
    if m.lossTolerancePct >= 15.0 {
      aggressiveScore := aggressiveScore + 0.2;
    } else if m.lossTolerancePct <= 5.0 {
      conservativeScore := conservativeScore + 0.2;
    }
    if m.volatilityPreference >= 0.6 {
      aggressiveScore := aggressiveScore + 0.15;
    } else if m.volatilityPreference <= 0.3 {
      conservativeScore := conservativeScore + 0.15;
    }
    aggressiveScore := aggressiveScore + m.simulationRiskTaking * 0.2;
    if aggressiveScore > conservativeScore + 0.2 {
      r := ProfileScore(Aggressive, Min(aggressiveScore + 0.3, 1.0), aggressiveScore, conservativeScore);
    } else if conservativeScore > aggressiveScore + 0.2 {
      r := ProfileScore(Conservative, Min(conservativeScore + 0.3, 1.0), aggressiveScore, conservativeScore);
    } else {
      r := ProfileScore(Moderate, 0.6 + Abs(aggressiveScore - conservativeScore), aggressiveScore, conservativeScore);
    }
  }

  /** Each criterion adds to at most one score: the two criteria sums
      together never exceed the 0.8 that all four criteria are worth. */
  lemma CriteriaExclusive(m: BehaviorMetrics)
    ensures 0.0 <= AggressiveCriteria(m) <= 0.8
    ensures 0.0 <= ConservativeCriteria(m) <= 0.8
    ensures AggressiveCriteria(m) + ConservativeCriteria(m) <= 0.8
    ensures m.tradeFrequency >= 5.0 ==> ConservativeCriteria(m) <= 0.55
    ensures AggressiveCriteria(m) == 0.8 ==> ConservativeCriteria(m) == 0.0
  {
  }

  // ------------------------------------------------------- recommendations

  const ConservativeAdvice: seq<string> := [
    "Focus sur les valeurs bancaires stables (BIAT, BNA)",
    "Privilegier les actions a dividendes reguliers",
    "Limiter l'exposition aux petites capitalisations",
    "Utiliser des ordres stop-loss serres"]
  const ModerateAdvice: seq<string> := [
    "Diversifier entre secteurs defensifs et cycliques",
    "Equilibrer entre croissance et revenus",
    "Surveiller les opportunites sur les mid-caps",
    "Ajuster la strategie selon les conditions du marche"]
  const AggressiveAdvice: seq<string> := [
    "Explorer les opportunites de trading court terme",
    "Surveiller les anomalies pour des entrees rapides",
    "Considerer les secteurs a forte croissance",
    "Utiliser le simulateur pour tester des strategies audacieuses"]

  /** _get_recommendations: four lines per profile; an unknown profile name
      gets the moderate list. */
  function Recommendations(profile: string): (r: seq<string>)
    ensures |r| == 4
    ensures profile == "conservative" ==> r == ConservativeAdvice
    ensures profile == "aggressive" ==> r == AggressiveAdvice
    ensures profile != "conservative" && profile != "aggressive" ==> r == ModerateAdvice
  {
    if profile == "conservative" then ConservativeAdvice
    else if profile == "aggressive" then AggressiveAdvice
    else ModerateAdvice
  }

  // --------------------------------------------------------------- profile

  function MetricsOf(trades: seq<Trade>, alerts: seq<Alert>, sims: seq<SimTrade>): BehaviorMetrics
  {
    var t := TradeAnalysisOf(trades);
    var s := AnalyzeSimulations(sims);
    BehaviorMetrics(t.frequency, t.avgHold, t.avgLossTolerance,
                    s.avgPositionSize * 3.0, AnalyzeAlerts(alerts).Sensitivity(), s.riskTaking)
  }

  /** get_profile (absent lists are passed as empty sequences). */
  method GetProfile(trades: seq<Trade>, alerts: seq<Alert>, sims: seq<SimTrade>)
    returns (r: InvestorProfileResult)
    ensures var m := MetricsOf(trades, alerts, sims);
      && r.metrics == m
      && r.score == ChooseProfile(AggressiveCriteria(m) + m.simulationRiskTaking * 0.2, ConservativeCriteria(m))
      && r.recommendations == Recommendations(r.score.profile.Name())
  {
    var tradeAnalysis := AnalyzeTrades(trades);
    var alertAnalysis := AnalyzeAlerts(alerts);
    var simAnalysis := AnalyzeSimulations(sims);
    var metrics := BehaviorMetrics(
      tradeAnalysis.frequency, tradeAnalysis.avgHold, tradeAnalysis.avgLossTolerance,
      simAnalysis.avgPositionSize * 3.0, alertAnalysis.Sensitivity(), simAnalysis.riskTaking);
    var score := CalculateProfile(metrics);
    r := InvestorProfileResult(score, metrics, Recommendations(score.profile.Name()));
  }

  /** The alerts feed the reported sensitivity metric but never the chosen
      profile or its confidence. */
  lemma AlertsDoNotAffectProfile(trades: seq<Trade>, a1: seq<Alert>, a2: seq<Alert>, sims: seq<SimTrade>)
    ensures var m1 := MetricsOf(trades, a1, sims);
      var m2 := MetricsOf(trades, a2, sims);
      ChooseProfile(AggressiveCriteria(m1) + m1.simulationRiskTaking * 0.2, ConservativeCriteria(m1)) ==
      ChooseProfile(AggressiveCriteria(m2) + m2.simulationRiskTaking * 0.2, ConservativeCriteria(m2))
  {
    var m1 := MetricsOf(trades, a1, sims);
    var m2 := MetricsOf(trades, a2, sims);
    assert m1.(alertSensitivity := 0.0) == m2.(alertSensitivity := 0.0);
    assert AggressiveCriteria(m1) == AggressiveCriteria(m2);
    assert ConservativeCriteria(m1) == ConservativeCriteria(m2);
  }

  /** A brand-new investor (no history at all) is profiled from the
      defaults: frequency 0, hold 0, loss tolerance 10, volatility
      preference 3 × 0.1 and risk taking 0.5. In exact arithmetic the
      preference is 0.3, so the aggressive score is 0.2 + 0.1, the
      conservative score 0.25 + 0.15, and the investor is moderate with
      confidence 0.6 + 0.1. */
  lemma EmptyHistoryIsModerate()
    ensures var m := MetricsOf([], [], []);
      var p := ChooseProfile(AggressiveCriteria(m) + m.simulationRiskTaking * 0.2, ConservativeCriteria(m));
      p.profile == Moderate && p.aggressive == 0.3 && p.conservative == 0.4 && p.confidence == 0.7
  {
  }
}
