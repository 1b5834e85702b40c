/** The backend's prediction service: it hands a long enough history to
    the gradient-boosted predictor and otherwise, or when that fails,
    extrapolates the recent mean daily return linearly over five days. */
module PredictionService {
  import opened Common
  import M = MlPrediction

  /** pandas' `pct_change().dropna()`: the change of each row against the
      previous one. */
  function PctChanges(w: seq<real>): (r: seq<real>)
    requires forall i :: 0 <= i < |w| - 1 ==> w[i] != 0.0
    ensures |w| <= 1 ==> |r| == 0
    ensures |w| > 1 ==> |r| == |w| - 1
    ensures forall i :: 0 <= i < |r| ==> r[i] == (w[i + 1] - w[i]) / w[i]
  {
    if |w| <= 1 then [] else seq(|w| - 1, i requires 0 <= i < |w| - 1 => (w[i + 1] - w[i]) / w[i])
  }

  /** A previous close of zero would make pandas produce an infinite change;
      the model covers histories whose last 20 rows have none. */
  predicate NonZeroWindow(closes: seq<real>)
  {
    forall i :: 0 <= i < |Last(closes, 20)| - 1 ==> Last(closes, 20)[i] != 0.0
  }

  /** The mean daily return over the last 20 rows, 0 with at most one row. */
  function AvgReturn(closes: seq<real>): real
    requires NonZeroWindow(closes)
  {
    var w := Last(closes, 20);
    if |w| > 1 then Mean(PctChanges(w)) else 0.0
  }

  /** The last close, or 10.0 for an empty history. */
  function CurrentPrice(closes: seq<real>): (p: real)
    ensures |closes| == 0 ==> p == 10.0
    ensures |closes| > 0 ==> p == closes[|closes| - 1]
  {
    if |closes| == 0 then 10.0 else closes[|closes| - 1]
  }

  /** The entry `day_<d>` of the fallback forecast. */
  function FallbackDay(d: nat, avg: real, current: real, clock: M.Clock): (f: M.DayForecast)
    ensures f.horizon == d && f.date == clock.dateAfter(d)
    ensures f.price == current * (1.0 + avg * (d as real))
    ensures f.returnPct == avg * 100.0 * (d as real)
    ensures f.direction == M.Up <==> avg >= 0.0
    ensures 0.3 <= f.confidence <= 0.7
  {
    M.DayForecast(d, clock.dateAfter(d), current * (1.0 + avg * (d as real)), avg * 100.0 * (d as real),
                  if avg >= 0.0 then M.Up else M.Down, Min(Abs(avg) * 10.0 + 0.3, 0.7))
  }

  /** The first `n` days of the fallback forecast. */
  function FallbackDays(n: nat, avg: real, current: real, clock: M.Clock): (r: seq<M.DayForecast>)
    ensures |r| == n
    ensures forall i :: 0 <= i < n ==> r[i] == FallbackDay(i + 1, avg, current, clock)
  {
    if n == 0 then [] else FallbackDays(n - 1, avg, current, clock) + [FallbackDay(n, avg, current, clock)]
  }

  /** The fallback recommendation: BUY above a 1% mean daily return, SELL
      below −1%, else HOLD, with a confidence capped at 0.7 and three fixed
      reasons. */
  function FallbackRecommendation(avg: real): (r: M.Recommendation)
    ensures r.action == M.Buy <==> avg > 0.01
    ensures r.action == M.Sell <==> avg < -0.01
    ensures r.action == M.Hold <==> -0.01 <= avg <= 0.01
    ensures 0.3 <= r.confidence <= 0.7
    ensures r.avgReturnPct == avg * 100.0
    ensures r.reasons == [M.RecentTrend, M.MovingAverageMomentum, M.ModelNotLoaded]
  {
    var action := if avg > 0.01 then M.Buy else if avg < -0.01 then M.Sell else M.Hold;
    M.Recommendation(action, Min(Abs(avg) * 15.0 + 0.3, 0.7), avg * 100.0,
                     [M.RecentTrend, M.MovingAverageMomentum, M.ModelNotLoaded])
  }

  /** What _fallback_prediction returns. */
  predicate IsFallback(r: M.PredictionResult, stock: string, closes: seq<real>, clock: M.Clock)
    requires NonZeroWindow(closes)
  {
    var avg := AvgReturn(closes);
    var current := CurrentPrice(closes);
    r.Forecast? && r.stock == stock && r.currentPrice == current && r.timestamp == clock.now
    && r.model == Some("fallback")
    && |r.predictions| == 5
    && (forall i :: 0 <= i < 5 ==> r.predictions[i] == FallbackDay(i + 1, avg, current, clock))
    && r.recommendation == FallbackRecommendation(avg)
  }

  /** PredictionService._fallback_prediction. */
  method FallbackPrediction(stock: string, closes: seq<real>, clock: M.Clock) returns (r: M.PredictionResult)
    requires NonZeroWindow(closes)
    ensures IsFallback(r, stock, closes, clock)
  {
    var current := CurrentPrice(closes);
    var avg := AvgReturn(closes);
    var predictions: seq<M.DayForecast> := [];
    var day := 1;
    while day < 6
      invariant 1 <= day <= 6
      invariant predictions == FallbackDays(day - 1, avg, current, clock)
    {
      predictions := predictions + [FallbackDay(day, avg, current, clock)];
      day := day + 1;
    }
    r := M.Forecast(stock, current, clock.now, Some("fallback"), predictions, FallbackRecommendation(avg));
  }

  /** PredictionService.predict. `modelResult` is what the predictor
      returned for this history, or None when no predictor is loaded or the
      call raised. */
  method Predict(stock: string, closes: seq<real>, modelResult: Option<M.PredictionResult>, clock: M.Clock)
    returns (r: M.PredictionResult)
    requires NonZeroWindow(closes)
    ensures |closes| < 60 ==> IsFallback(r, stock, closes, clock)
    ensures |closes| >= 60 && modelResult.Some? && modelResult.value.Forecast? ==>
      r == modelResult.value.(model := Some("xgboost"))
    ensures |closes| >= 60 && (modelResult.None? || modelResult.value.Failure?) ==> IsFallback(r, stock, closes, clock)
  {
    if |closes| == 0 || |closes| < 60 {
      r := FallbackPrediction(stock, closes, clock);
      return;
    }
    if modelResult.Some? {
      var result := modelResult.value;
      // an error result carries empty predictions, so only a forecast is kept
      if result.Forecast? {
        return result.(model := Some("xgboost"));
      }
    }
    r := FallbackPrediction(stock, closes, clock);
  }

  /** Each fallback day's direction agrees with the sign of its return. */
  lemma FallbackDirection(d: nat, avg: real, current: real, clock: M.Clock)
    requires d >= 1
    ensures FallbackDay(d, avg, current, clock).direction == M.Up <==> FallbackDay(d, avg, current, clock).returnPct >= 0.0
  {
    SignOfProduct(avg, 100.0 * (d as real));
    assert avg * 100.0 * (d as real) == avg * (100.0 * (d as real));
  }

  /** The fallback forecast is a straight line through the current price:
      day d moves d times as far from it as day 1, in price and in return. */
  lemma FallbackIsLinear(d: nat, avg: real, current: real, clock: M.Clock)
    ensures FallbackDay(d, avg, current, clock).price - current
            == (d as real) * (FallbackDay(1, avg, current, clock).price - current)
    ensures FallbackDay(d, avg, current, clock).returnPct == (d as real) * FallbackDay(1, avg, current, clock).returnPct
  {
    var k := d as real;
    calc {
      current * (1.0 + avg * k) - current;
      current * avg * k;
      k * (current * (1.0 + avg * 1.0) - current);
    }
  }

  /** With a positive trend and price, later days forecast higher prices. */
  lemma FallbackRising(i: nat, j: nat, avg: real, current: real, clock: M.Clock)
    requires i < j && avg > 0.0 && current > 0.0
    ensures FallbackDay(i, avg, current, clock).price < FallbackDay(j, avg, current, clock).price
    ensures FallbackDay(j, avg, current, clock).direction == M.Up
  {
    var di := i as real;
    var dj := j as real;
    assert avg * di < avg * dj;
    assert current * (1.0 + avg * di) < current * (1.0 + avg * dj);
  }

  /** A steadily rising, positive history has a positive trend, so its
      fallback forecast is UP on every day with rising prices. */
  lemma RisingHistoryTrend(closes: seq<real>)
    requires |closes| >= 2
    requires forall i :: 0 <= i < |closes| ==> closes[i] > 0.0
    requires forall i, j :: 0 <= i < j < |closes| ==> closes[i] < closes[j]
    ensures NonZeroWindow(closes)
    ensures AvgReturn(closes) > 0.0 && CurrentPrice(closes) > 0.0
  {
    RisingWindow(closes, Last(closes, 20));
    RisingChangesPositive(Last(closes, 20));
  }

  /** The window of a rising positive history is rising and positive. */
  lemma RisingWindow(closes: seq<real>, w: seq<real>)
    requires w == Last(closes, 20) && |closes| >= 2
    requires forall i :: 0 <= i < |closes| ==> closes[i] > 0.0
    requires forall i, j :: 0 <= i < j < |closes| ==> closes[i] < closes[j]
    ensures |w| >= 2
    ensures forall i :: 0 <= i < |w| ==> w[i] > 0.0
    ensures forall i, j :: 0 <= i < j < |w| ==> w[i] < w[j]
  {
    var off := |closes| - |w|;
    assert w == closes[off..];
  }

  lemma RisingChangesPositive(w: seq<real>)
    requires |w| >= 2
    requires forall i :: 0 <= i < |w| ==> w[i] > 0.0
    requires forall i, j :: 0 <= i < j < |w| ==> w[i] < w[j]
    ensures Mean(PctChanges(w)) > 0.0
  {
    var ch := PctChanges(w);
    RisingChangePositive(w);
    SumPositive(ch);
    assert Mean(ch) == Sum(ch) / (|ch| as real);
    DivPositive(Sum(ch), |ch| as real);
  }

  lemma RisingChangePositive(w: seq<real>)
    requires |w| >= 2
    requires forall i :: 0 <= i < |w| ==> w[i] > 0.0
    requires forall i, j :: 0 <= i < j < |w| ==> w[i] < w[j]
    ensures |PctChanges(w)| > 0
    ensures forall i :: 0 <= i < |PctChanges(w)| ==> PctChanges(w)[i] > 0.0
  {
    var ch := PctChanges(w);
    forall i | 0 <= i < |ch| ensures ch[i] > 0.0 {
      var prev, next := w[i], w[i + 1];
      assert 0.0 < prev < next;
      assert ch[i] == (next - prev) / prev;
      DivPositive(next - prev, prev);
    }
  }

  /** A flat history has a zero trend and is held. */
  lemma FlatHistoryHolds(closes: seq<real>, c: real)
    requires c != 0.0
    requires forall i :: 0 <= i < |closes| ==> closes[i] == c
    ensures NonZeroWindow(closes)
    ensures AvgReturn(closes) == 0.0
    ensures FallbackRecommendation(AvgReturn(closes)).action == M.Hold
  {
    var w := Last(closes, 20);
    var off := |closes| - |w|;
    assert forall i :: 0 <= i < |w| ==> w[i] == closes[off + i];
    if |w| > 1 {
      FlatChangesZero(w, c);
    }
  }

  lemma FlatChangesZero(w: seq<real>, c: real)
    requires |w| >= 2 && c != 0.0
    requires forall i :: 0 <= i < |w| ==> w[i] == c
    ensures Mean(PctChanges(w)) == 0.0
  {
    var ch := PctChanges(w);
    forall i | 0 <= i < |ch| ensures ch[i] == 0.0 {
      assert w[i] == c && w[i + 1] == c;
      assert ch[i] == 0.0 / c;
    }
    SumBounds(ch, 0.0, 0.0);
    var n := |ch| as real;
    assert n * 0.0 == 0.0;
    assert Sum(ch) == 0.0;
    assert Mean(ch) == 0.0 / n;
  }
}
