/** The decision agent: it combines the price prediction, the news
    sentiment and the anomaly severity into a BUY/SELL/HOLD call with a
    confidence and a list of reasons. */
module Decision {
  import opened Common

  datatype Action = Buy | Sell | Hold

  /** The reason lines; the numbers are printed with two decimals in the
      source, which the model leaves abstract. */
  datatype Reason = PredictionSignal(score: real) | SentimentSignal(score: real) | HighAnomalyRisk

  datatype Recommendation = Recommendation(action: Action, confidence: real, reasons: seq<Reason>)

  /** The inputs as the function reads them: the `predicted_return_pct` of
      each prediction entry (already defaulted to 0.0), the prediction's
      `recommendation.action` if any, the sentiment `score` (default 0.0)
      and the anomaly `severity` if any. */
  datatype Signals = Signals(
    predictedReturns: seq<real>,
    technicalAction: Option<string>,
    sentimentScore: real,
    anomalySeverity: Option<string>)

  function PriceScore(rets: seq<real>): (r: real)
    ensures |rets| == 0 ==> r == 0.0
    ensures |rets| > 0 ==> r == Mean(rets) / 100.0
  {
    if |rets| > 0 then Sum(rets) / (|rets| as real) / 100.0 else 0.0
  }

  function TechnicalScore(action: Option<string>): (r: real)
    ensures r == 0.2 <==> action == Some("BUY")
    ensures r == -0.2 <==> action == Some("SELL")
    ensures r == 0.0 <==> action != Some("BUY") && action != Some("SELL")
  {
    if action == Some("BUY") then 0.2 else if action == Some("SELL") then -0.2 else 0.0
  }

  function AnomalyPenalty(severity: Option<string>): (r: real)
    ensures r == -0.2 <==> severity == Some("HIGH")
    ensures r == 0.0 <==> severity != Some("HIGH")
  {
    if severity == Some("HIGH") then -0.2 else 0.0
  }

  function Combined(s: Signals): real
  {
    0.4 * PriceScore(s.predictedReturns) + 0.3 * s.sentimentScore
    + 0.2 * TechnicalScore(s.technicalAction) + 0.1 * AnomalyPenalty(s.anomalySeverity)
  }

  function ActionFor(combined: real): (a: Action)
    ensures a == Buy <==> combined > 0.05
    ensures a == Sell <==> combined < -0.05
    ensures a == Hold <==> -0.05 <= combined <= 0.05
  {
    if combined > 0.05 then Buy else if combined < -0.05 then Sell else Hold
  }

  /** get_recommendation. */
  function GetRecommendation(s: Signals): (r: Recommendation)
    ensures r.action == ActionFor(Combined(s))
    ensures r.confidence == Min(Abs(Combined(s)) * 5.0, 1.0)
    ensures 0.0 <= r.confidence <= 1.0
    ensures r.action != Hold ==> r.confidence > 0.25
    ensures |r.reasons| == (if s.anomalySeverity == Some("HIGH") then 3 else 2)
    ensures r.reasons[..2] == [PredictionSignal(PriceScore(s.predictedReturns)), SentimentSignal(s.sentimentScore)]
    ensures HighAnomalyRisk in r.reasons <==> s.anomalySeverity == Some("HIGH")
  {
    var priceScore := PriceScore(s.predictedReturns);
    var penalty := AnomalyPenalty(s.anomalySeverity);
    var combined := 0.4 * priceScore + 0.3 * s.sentimentScore
                    + 0.2 * TechnicalScore(s.technicalAction) + 0.1 * penalty;
    var reasons := [PredictionSignal(priceScore), SentimentSignal(s.sentimentScore)]
                   + (if penalty < 0.0 then [HighAnomalyRisk] else []);
    Recommendation(ActionFor(combined), Min(Abs(combined) * 5.0, 1.0), reasons)
  }

  /** With the technical, sentiment and anomaly signals fixed, a larger
      mean predicted return never turns a BUY into something weaker. */
  lemma BuyMonotoneInPrediction(s: Signals, t: Signals)
    requires s.technicalAction == t.technicalAction && s.sentimentScore == t.sentimentScore
    requires s.anomalySeverity == t.anomalySeverity
    requires PriceScore(s.predictedReturns) <= PriceScore(t.predictedReturns)
    ensures GetRecommendation(s).action == Buy ==> GetRecommendation(t).action == Buy
    ensures GetRecommendation(t).action == Sell ==> GetRecommendation(s).action == Sell
  {
  }

  /** Neutral signals throughout give HOLD with zero confidence; a HIGH
      anomaly alone (penalty -0.02) is not enough to turn that into SELL. */
  lemma NeutralIsHold(s: Signals)
    requires |s.predictedReturns| == 0 && s.sentimentScore == 0.0 && s.technicalAction == None
    ensures GetRecommendation(s).action == Hold
    ensures s.anomalySeverity != Some("HIGH") ==> GetRecommendation(s).confidence == 0.0
  {
  }
}
