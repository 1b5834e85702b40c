/** The price predictor's post-model logic: assembling the feature vector,
    turning the per-horizon predicted returns into forecasts, the overall
    recommendation and its reasons. The gradient-boosted models themselves
    are inputs. */
module MlPrediction {
  import opened Common

  /** A float feature value; NaN compares false with everything. */
  datatype Num = Finite(value: real) | NaN | PosInf | NegInf

  /** `x < c` on floats. */
  predicate Below(x: Num, c: real)
  {
    (x.Finite? && x.value < c) || x.NegInf?
  }

  /** `x > c` on floats. */
  predicate Above(x: Num, c: real)
  {
    (x.Finite? && x.value > c) || x.PosInf?
  }

  datatype Direction = Up | Down
  datatype Action = Buy | Sell | Hold

  /** One `day_<h>` entry. */
  datatype DayForecast = DayForecast(
    horizon: nat,
    date: string,
    price: real,
    returnPct: real,
    direction: Direction,
    confidence: real)

  /** The reason lines; their wording and number formatting are left
      abstract. */
  datatype Reason =
    | TrendUp(avgPct: real) | TrendDown(avgPct: real)
    | Oversold | Overbought
    | BullishMomentum | BearishMomentum
    | HighVolume | LowVolume
    | RecentTrend | MovingAverageMomentum | ModelNotLoaded

  datatype Recommendation = Recommendation(action: Action, confidence: real, avgReturnPct: real, reasons: seq<Reason>)

  /** A prediction dictionary: a forecast, or an error with empty predictions. */
  datatype PredictionResult =
    | Forecast(
        stock: string,
        currentPrice: real,
        timestamp: string,
        model: Option<string>,
        predictions: seq<DayForecast>,
        recommendation: Recommendation)
    | Failure(stock: string, error: string)

  /** The loaded predictor: the horizons that have a model, each model as a
      function from the (scaled) feature vector to a predicted return, the
      optional scaler and the configured feature columns. */
  datatype Predictor = Predictor(
    loaded: set<nat>,
    booster: nat -> seq<real> -> real,
    scaler: Option<seq<real> -> seq<real>>,
    featureColumns: seq<string>)

  /** The clock: `now` in ISO format and the formatted date h days ahead. */
  datatype Clock = Clock(now: string, dateAfter: nat -> string)

  const Horizons: seq<nat> := [1, 2, 3, 4, 5]

  /** Models are only ever loaded for the horizons 1..5. */
  predicate ValidPredictor(p: Predictor)
  {
    forall h :: h in p.loaded ==> 1 <= h <= 5
  }

  /** The feature vector in column order: a missing feature is 0 and so is
      any NaN or infinite value. */
  function FeatureVector(features: map<string, Num>, columns: seq<string>): (x: seq<real>)
    ensures |x| == |columns|
    ensures forall i :: 0 <= i < |columns| ==>
      x[i] == (if columns[i] in features && features[columns[i]].Finite? then features[columns[i]].value else 0.0)
  {
    if |columns| == 0 then []
    else
      var c := columns[|columns| - 1];
      FeatureVector(features, columns[..|columns| - 1])
        + [if c in features && features[c].Finite? then features[c].value else 0.0]
  }

  /** The forecast for horizon `h` from predicted return `r`. */
  function DayFor(h: nat, r: real, current: real, clock: Clock): (d: DayForecast)
    ensures d.horizon == h && d.date == clock.dateAfter(h)
    ensures d.direction == Up <==> r > 0.0
    ensures 0.0 <= d.confidence <= 1.0
    ensures d.returnPct == r * 100.0
  {
    DayForecast(h, clock.dateAfter(h), current * (1.0 + r), r * 100.0,
                if r > 0.0 then Up else Down, Min(Abs(r) * 20.0, 1.0))
  }

  /** Forecasts for the horizons of `hs` that have a model, in order. */
  function ForecastsFor(hs: seq<nat>, p: Predictor, x: seq<real>, current: real, clock: Clock): (f: seq<DayForecast>)
    ensures |f| <= |hs|
    ensures forall i :: 0 <= i < |f| ==> f[i].horizon in hs && f[i].horizon in p.loaded
  {
    if |hs| == 0 then []
    else
      var h := hs[|hs| - 1];
      ForecastsFor(hs[..|hs| - 1], p, x, current, clock)
        + (if h in p.loaded then [DayFor(h, p.booster(h)(x), current, clock)] else [])
  }

  function ReturnPcts(f: seq<DayForecast>): (r: seq<real>)
    ensures |r| == |f| && forall i :: 0 <= i < |f| ==> r[i] == f[i].returnPct
  {
    seq(|f|, i requires 0 <= i < |f| => f[i].returnPct)
  }

  /** The overall recommendation from the per-horizon return percentages:
      BUY above a 1.5% mean, SELL below −1.5%, else HOLD with confidence
      falling linearly to 0 at ±1.5%; HOLD at 0.5 with no forecasts. */
  function Recommend(pcts: seq<real>): (r: (Action, real, real))
    ensures |pcts| == 0 ==> r == (Hold, 0.5, 0.0)
    ensures |pcts| > 0 ==> r.2 == Mean(pcts)
    ensures r.0 == Buy <==> |pcts| > 0 && Mean(pcts) > 1.5
    ensures r.0 == Sell <==> |pcts| > 0 && Mean(pcts) < -1.5
    ensures 0.0 <= r.1 <= 1.0
    ensures r.0 == Buy ==> r.1 == Min(Mean(pcts) / 5.0, 1.0)
    ensures r.0 == Sell ==> r.1 == Min(Abs(Mean(pcts)) / 5.0, 1.0)
    ensures |pcts| > 0 && r.0 == Hold ==> r.1 == 1.0 - Abs(Mean(pcts)) / 1.5
  {
    if |pcts| > 0 then
      var avg := Mean(pcts);
      if avg > 1.5 then (Buy, Min(avg / 5.0, 1.0), avg)
      else if avg < -1.5 then (Sell, Min(Abs(avg) / 5.0, 1.0), avg)
      else
        assert Abs(avg) / 1.5 <= 1.0;
        (Hold, 1.0 - Abs(avg) / 1.5, avg)
    else (Hold, 0.5, 0.0)
  }

  /** A feature looked up with a default (`features.get(name, default)`). */
  function FeatureOr(features: map<string, Num>, name: string, default: real): Num
  {
    if name in features then features[name] else Finite(default)
  }

  /** _generate_reasons: one trend line, then at most one RSI, one MACD and
      one volume line. */
  function GenerateReasons(features: map<string, Num>, predictions: seq<DayForecast>): (r: seq<Reason>)
    ensures 1 <= |r| <= 4
    ensures r[0] == (if Mean(ReturnPcts(predictions)) > 0.0 then TrendUp(Mean(ReturnPcts(predictions)))
                     else TrendDown(Mean(ReturnPcts(predictions))))
    ensures Oversold in r <==> Below(FeatureOr(features, "rsi_14", 50.0), 30.0)
    ensures Overbought in r <==> !Below(FeatureOr(features, "rsi_14", 50.0), 30.0) && Above(FeatureOr(features, "rsi_14", 50.0), 70.0)
    ensures BullishMomentum in r <==> Above(FeatureOr(features, "macd_hist", 0.0), 0.0)
    ensures BearishMomentum in r <==> !Above(FeatureOr(features, "macd_hist", 0.0), 0.0) && Below(FeatureOr(features, "macd_hist", 0.0), 0.0)
    ensures HighVolume in r <==> Above(FeatureOr(features, "volume_ratio", 1.0), 2.0)
    ensures LowVolume in r <==> !Above(FeatureOr(features, "volume_ratio", 1.0), 2.0) && Below(FeatureOr(features, "volume_ratio", 1.0), 0.5)
  {
    var avg := Mean(ReturnPcts(predictions));
    var trend := if avg > 0.0 then [TrendUp(avg)] else [TrendDown(avg)];
    var rsi := FeatureOr(features, "rsi_14", 50.0);
    var rsiLine := if Below(rsi, 30.0) then [Oversold] else if Above(rsi, 70.0) then [Overbought] else [];
    var macd := FeatureOr(features, "macd_hist", 0.0);
    var macdLine := if Above(macd, 0.0) then [BullishMomentum] else if Below(macd, 0.0) then [BearishMomentum] else [];
    var volume := FeatureOr(features, "volume_ratio", 1.0);
    var volumeLine := if Above(volume, 2.0) then [HighVolume] else if Below(volume, 0.5) then [LowVolume] else [];
    trend + rsiLine + macdLine + volumeLine
  }

  /** What predict returns. `close` and `currentPrice` are the `close` and
      `current_price` entries of the feature dictionary. */
  function PredictSpec(stock: string, features: map<string, Num>, close: Option<real>, currentPrice: Option<real>,
                       p: Predictor, clock: Clock): PredictionResult
  {
    if p.loaded == {} then Failure(stock, "No models loaded")
    else if close.None? && currentPrice.None? then Failure(stock, "'close' or 'current_price' must be in features")
    else
      var current := if close.Some? then close.value else currentPrice.value;
      var x := FeatureVector(features, p.featureColumns);
      var scaled := if p.scaler.Some? then p.scaler.value(x) else x;
      var predictions := ForecastsFor(Horizons, p, scaled, current, clock);
      var rec := Recommend(ReturnPcts(predictions));
      Forecast(stock, current, clock.now, None, predictions,
               Recommendation(rec.0, rec.1, rec.2, GenerateReasons(features, predictions)))
  }

  /** BVMTPricePredictor.predict. */
  method Predict(stock: string, features: map<string, Num>, close: Option<real>, currentPrice: Option<real>,
                 p: Predictor, clock: Clock) returns (r: PredictionResult)
    ensures r == PredictSpec(stock, features, close, currentPrice, p, clock)
  {
    if p.loaded == {} {
      return Failure(stock, "No models loaded");
    }
    var current: real;
    if close.Some? {
      current := close.value;
    } else if currentPrice.Some? {
      current := currentPrice.value;
    } else {
      return Failure(stock, "'close' or 'current_price' must be in features");
    }
    var x := FeatureVector(features, p.featureColumns);
    var scaled := if p.scaler.Some? then p.scaler.value(x) else x;
    var predictions := Forecasts(p, scaled, current, clock);
    var rec := Recommend(ReturnPcts(predictions));
    r := Forecast(stock, current, clock.now, None, predictions,
                  Recommendation(rec.0, rec.1, rec.2, GenerateReasons(features, predictions)));
  }

  /** The per-horizon loop of predict. */
  method Forecasts(p: Predictor, scaled: seq<real>, current: real, clock: Clock) returns (predictions: seq<DayForecast>)
    ensures predictions == ForecastsFor(Horizons, p, scaled, current, clock)
  {
    predictions := [];
    var k := 0;
    while k < |Horizons|
      invariant 0 <= k <= |Horizons|
      invariant predictions == ForecastsFor(Horizons[..k], p, scaled, current, clock)
    {
      var h := Horizons[k];
      assert Horizons[..k + 1][..k] == Horizons[..k];
      if h in p.loaded {
        var predReturn := p.booster(h)(scaled);
        predictions := predictions + [DayFor(h, predReturn, current, clock)];
      }
      k := k + 1;
    }
    assert Horizons[..|Horizons|] == Horizons;
  }

  /** The forecasts come in strictly increasing horizon order. */
  lemma {:induction false} ForecastsSorted(hs: seq<nat>, p: Predictor, x: seq<real>, current: real, clock: Clock)
    requires forall i, j :: 0 <= i < j < |hs| ==> hs[i] < hs[j]
    ensures forall i, j :: 0 <= i < j < |ForecastsFor(hs, p, x, current, clock)| ==>
      ForecastsFor(hs, p, x, current, clock)[i].horizon < ForecastsFor(hs, p, x, current, clock)[j].horizon
  {
    if |hs| > 0 {
      var h := hs[|hs| - 1];
      var front := hs[..|hs| - 1];
      ForecastsSorted(front, p, x, current, clock);
      var f0 := ForecastsFor(front, p, x, current, clock);
      forall i | 0 <= i < |f0| ensures f0[i].horizon < h {
        var j :| 0 <= j < |front| && front[j] == f0[i].horizon;
        assert front[j] == hs[j];
      }
      if h in p.loaded {
        var d := DayFor(h, p.booster(h)(x), current, clock);
        var f := ForecastsFor(hs, p, x, current, clock);
        assert f == f0 + [d];
        forall i, j | 0 <= i < j < |f| ensures f[i].horizon < f[j].horizon {
          if j < |f0| {
            assert f[i] == f0[i] && f[j] == f0[j];
          } else {
            assert f[i] == f0[i] && f[j] == d;
          }
        }
      }
    }
  }

  /** Every loaded horizon of `hs` has a forecast. */
  lemma {:induction false} ForecastsCover(hs: seq<nat>, p: Predictor, x: seq<real>, current: real, clock: Clock, g: nat)
    requires g in hs && g in p.loaded
    ensures exists i :: (0 <= i < |ForecastsFor(hs, p, x, current, clock)| &&
                         ForecastsFor(hs, p, x, current, clock)[i].horizon == g)
  {
    var h := hs[|hs| - 1];
    var front := hs[..|hs| - 1];
    var f0 := ForecastsFor(front, p, x, current, clock);
    var f := ForecastsFor(hs, p, x, current, clock);
    if g == h {
      var d := DayFor(h, p.booster(h)(x), current, clock);
      assert f == f0 + [d];
      assert f[|f| - 1] == d;
      assert d.horizon == g;
    } else {
      assert g in front by {
        var k :| 0 <= k < |hs| && hs[k] == g;
        assert k < |hs| - 1;
        assert front[k] == g;
      }
      ForecastsCover(front, p, x, current, clock, g);
      var i :| 0 <= i < |f0| && f0[i].horizon == g;
      assert f[i] == f0[i];
    }
  }

  /** With models loaded and a current price, there is one forecast per
      loaded horizon, each UP exactly when its return is positive, with
      confidence in [0, 1]; the recommendation confidence is in [0, 1]. */
  lemma HorizonsIncreasing()
    ensures forall i, j :: 0 <= i < j < |Horizons| ==> Horizons[i] < Horizons[j]
  {
    assert forall i :: 0 <= i < |Horizons| ==> Horizons[i] == i + 1;
  }

  lemma PredictShape(stock: string, features: map<string, Num>, close: Option<real>, currentPrice: Option<real>,
                     p: Predictor, clock: Clock)
    requires ValidPredictor(p) && p.loaded != {}
    requires close.Some? || currentPrice.Some?
    ensures var r := PredictSpec(stock, features, close, currentPrice, p, clock);
      r.Forecast? && |r.predictions| == |p.loaded| && |r.predictions| > 0 &&
      (forall i :: 0 <= i < |r.predictions| ==>
        (r.predictions[i].direction == Up <==> r.predictions[i].returnPct > 0.0) &&
        0.0 <= r.predictions[i].confidence <= 1.0) &&
      0.0 <= r.recommendation.confidence <= 1.0 &&
      1 <= |r.recommendation.reasons| <= 4
  {
    var r := PredictSpec(stock, features, close, currentPrice, p, clock);
    var current := if close.Some? then close.value else currentPrice.value;
    var x := FeatureVector(features, p.featureColumns);
    var scaled := if p.scaler.Some? then p.scaler.value(x) else x;
    ForecastShape(p, scaled, current, clock);
    assert r.predictions == ForecastsFor(Horizons, p, scaled, current, clock);
  }

  /** One forecast per loaded horizon, each with a direction that agrees
      with its return and a confidence in [0, 1]. */
  lemma ForecastShape(p: Predictor, x: seq<real>, current: real, clock: Clock)
    requires ValidPredictor(p) && p.loaded != {}
    ensures var f := ForecastsFor(Horizons, p, x, current, clock);
      |f| == |p.loaded| && |f| > 0 &&
      forall i :: 0 <= i < |f| ==>
        (f[i].direction == Up <==> f[i].returnPct > 0.0) && 0.0 <= f[i].confidence <= 1.0
  {
    var f := ForecastsFor(Horizons, p, x, current, clock);
    HorizonsIncreasing();
    ForecastsSorted(Horizons, p, x, current, clock);
    forall g | g in Horizons && g in p.loaded ensures exists i :: 0 <= i < |f| && f[i].horizon == g {
      ForecastsCover(Horizons, p, x, current, clock, g);
    }
    ForecastCount(p, f);
    forall i | 0 <= i < |f|
      ensures (f[i].direction == Up <==> f[i].returnPct > 0.0) && 0.0 <= f[i].confidence <= 1.0
    {
      ForecastFacts(Horizons, p, x, current, clock, i);
    }
  }

  lemma {:induction false} ForecastFacts(hs: seq<nat>, p: Predictor, x: seq<real>, current: real, clock: Clock, i: nat)
    requires i < |ForecastsFor(hs, p, x, current, clock)|
    ensures ForecastsFor(hs, p, x, current, clock)[i].direction == Up <==>
      ForecastsFor(hs, p, x, current, clock)[i].returnPct > 0.0
    ensures 0.0 <= ForecastsFor(hs, p, x, current, clock)[i].confidence <= 1.0
  {
    var front := hs[..|hs| - 1];
    var f0 := ForecastsFor(front, p, x, current, clock);
    if i < |f0| {
      ForecastFacts(front, p, x, current, clock, i);
      assert ForecastsFor(hs, p, x, current, clock)[i] == f0[i];
    }
  }

  lemma ForecastCount(p: Predictor, f: seq<DayForecast>)
    requires ValidPredictor(p)
    requires forall i, j :: 0 <= i < j < |f| ==> f[i].horizon < f[j].horizon
    requires forall h :: h in Horizons && h in p.loaded <==> exists i :: 0 <= i < |f| && f[i].horizon == h
    ensures |f| == |p.loaded|
  {
    var hs := set i | 0 <= i < |f| :: f[i].horizon;
    assert hs == p.loaded by {
      forall h | h in p.loaded ensures h in hs {
        assert h in Horizons;
      }
    }
    HorizonSetSize(f);
  }

  lemma HorizonSetSize(f: seq<DayForecast>)
    requires forall i, j :: 0 <= i < j < |f| ==> f[i].horizon < f[j].horizon
    ensures |set i | 0 <= i < |f| :: f[i].horizon| == |f|
  {
    var key := (d: DayForecast) => d.horizon;
    IncreasingKeysSetSize(f, key);
    var hs := set i | 0 <= i < |f| :: f[i].horizon;
    var ks := KeySet(f, key);
    assert hs == ks by {
      forall h | h in ks ensures h in hs {
        var i :| 0 <= i < |f| && key(f[i]) == h;
        assert f[i].horizon == h;
      }
    }
  }

}
