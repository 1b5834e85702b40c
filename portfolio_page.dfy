// The portfolio page's risk metrics: return on investment, Sharpe ratio
// and maximum drawdown, computed from the holdings' gain percentages. A
// gain percentage that is not a number (`None`, a holding bought at 0)
// turns every statistic built on it into NaN; the square root is a
// parameter.

module PortfolioPage {
  import opened Common
  import opened UseApi

  /** The three figures the page shows; `None` stands for NaN or an
      infinite drawdown. */
  datatype Metrics = Metrics(roi: real, sharpeRatio: real, maxDrawdown: Option<real>)

  /** The monthly risk-free rate, 7 % a year. */
  const RiskFreeRate: real := 0.07 / 12.0

  /** roi: the gain over the invested amount in percent, 0 when nothing is
      invested. */
  function Roi(summary: PortfolioSummary): (r: real)
  {
    if summary.investedValue > 0.0
    then (summary.totalValue - summary.investedValue) / summary.investedValue * 100.0
    else 0.0
  }

  /** The sign of the roi says whether the portfolio is worth more or less
      than was invested. */
  lemma RoiSign(summary: PortfolioSummary)
    ensures Roi(summary) > 0.0 <==> summary.investedValue > 0.0 && summary.totalValue > summary.investedValue
    ensures Roi(summary) < 0.0 <==> summary.investedValue > 0.0 && summary.totalValue < summary.investedValue
  {
    var i := summary.investedValue;
    var t := summary.totalValue;
    if i > 0.0 {
      if t > i {
        DivPositive(t - i, i);
      } else if t < i {
        DivPositive(i - t, i);
        assert (t - i) / i == -((i - t) / i);
      }
    }
  }

  /** returns: each holding's gain percentage as a fraction, or `None` when
      one of them is not a number. */
  function Returns(hs: seq<HoldingView>): (r: Option<seq<real>>)
    ensures r.Some? <==> forall i :: 0 <= i < |hs| ==> hs[i].gainPercent.Some?
    ensures r.Some? ==> |r.value| == |hs| && forall i :: 0 <= i < |hs| ==> r.value[i] == hs[i].gainPercent.value / 100.0
  {
    if forall i :: 0 <= i < |hs| ==> hs[i].gainPercent.Some?
    then Some(seq(|hs|, i requires 0 <= i < |hs| => hs[i].gainPercent.value / 100.0))
    else None
  }

  /** The squared deviations from `m`. */
  function SquaredDeviations(rs: seq<real>, m: real): (r: seq<real>)
    ensures |r| == |rs|
    ensures forall i :: 0 <= i < |rs| ==> r[i] == (rs[i] - m) * (rs[i] - m)
  {
    seq(|rs|, i requires 0 <= i < |rs| => (rs[i] - m) * (rs[i] - m))
  }

  /** variance: the population variance, 0 for no returns. */
  function Variance(rs: seq<real>): real
  {
    if |rs| > 0 then Sum(SquaredDeviations(rs, Mean(rs))) / (|rs| as real) else 0.0
  }

  /** The variance is never negative. */
  lemma VarianceNonNegative(rs: seq<real>)
    ensures Variance(rs) >= 0.0
  {
    if |rs| > 0 {
      var d := SquaredDeviations(rs, Mean(rs));
      forall i | 0 <= i < |d| ensures d[i] >= 0.0 {
        var x := rs[i] - Mean(rs);
        assert d[i] == x * x;
      }
      SumNonNegative(d);
      DivNonNegative(Sum(d), |rs| as real);
    }
  }

  /** Returns that are all the same have no variance. */
  lemma ConstantReturnsNoVariance(rs: seq<real>, c: real)
    requires forall i :: 0 <= i < |rs| ==> rs[i] == c
    ensures Variance(rs) == 0.0
  {
    if |rs| > 0 {
      MeanBounds(rs, c, c);
      var d := SquaredDeviations(rs, Mean(rs));
      SumBounds(d, 0.0, 0.0);
    }
  }

  /** sharpeRatio: the excess of the average return over the risk-free
      rate, per unit of deviation; 0 without deviation. */
  function SharpeRatio(avg: real, stdDev: real): (r: real)
    ensures r > 0.0 <==> stdDev > 0.0 && avg > RiskFreeRate
    ensures r < 0.0 <==> stdDev > 0.0 && avg < RiskFreeRate
  {
    if stdDev > 0.0 then
      var r := (avg - RiskFreeRate) / stdDev;
      assert avg > RiskFreeRate ==> r > 0.0 by {
        if avg > RiskFreeRate { DivPositive(avg - RiskFreeRate, stdDev); }
      }
      assert avg < RiskFreeRate ==> r < 0.0 by {
        if avg < RiskFreeRate {
          DivPositive(RiskFreeRate - avg, stdDev);
          assert r == -((RiskFreeRate - avg) / stdDev);
        }
      }
      r
    else 0.0
  }

  /** The label under the ratio. */
  function SharpeLabel(sharpe: real): (text: string)
    ensures text == "Excellent" <==> sharpe > 1.0
    ensures text == "Good" <==> 0.5 < sharpe <= 1.0
    ensures text == "Moderate" <==> sharpe <= 0.5
  {
    if sharpe > 1.0 then "Excellent" else if sharpe > 0.5 then "Good" else "Moderate"
  }

  /** The maximum drawdown is shown in the danger colour above 20 %; NaN
      compares false and keeps the warning colour. */
  function DrawdownDanger(maxDrawdown: Option<real>): (danger: bool)
    ensures danger <==> maxDrawdown.Some? && maxDrawdown.value > 20.0
  {
    match maxDrawdown
    case None => false
    case Some(d) => d > 20.0
  }

  /** The running peak of `1 + r` over the returns up to `i`. */
  function Peak(rs: seq<real>, i: nat): (p: real)
    requires i < |rs|
    ensures forall j :: 0 <= j <= i ==> p >= 1.0 + rs[j]
    ensures exists j :: 0 <= j <= i && p == 1.0 + rs[j]
  {
    if i == 0 then 1.0 + rs[0] else Max(Peak(rs, i - 1), 1.0 + rs[i])
  }

  /** The i-th drawdown: how far `1 + r` lies below the running peak, as a
      fraction of the peak; `None` when the peak is 0. */
  function Drawdown(rs: seq<real>, i: nat): (d: Option<real>)
    requires i < |rs|
    ensures d.Some? <==> Peak(rs, i) != 0.0
  {
    JsDiv(Peak(rs, i) - (1.0 + rs[i]), Peak(rs, i))
  }

  /** Under a positive peak the drawdown is at least 0, and below 1 when
      `1 + r` is positive. */
  lemma DrawdownBounds(rs: seq<real>, i: nat)
    requires i < |rs| && Peak(rs, i) > 0.0
    ensures Drawdown(rs, i).Some? && Drawdown(rs, i).value >= 0.0
    ensures 1.0 + rs[i] > 0.0 ==> Drawdown(rs, i).value < 1.0
  {
    DrawdownFraction(Peak(rs, i), 1.0 + rs[i]);
  }

  /** The fall from a positive peak `p` to `c`, as a fraction of `p`, is not
      negative, and below 1 when `c` is positive. */
  lemma DrawdownFraction(p: real, c: real)
    requires p > 0.0 && p >= c
    ensures JsDiv(p - c, p).Some? && JsDiv(p - c, p).value >= 0.0
    ensures c > 0.0 ==> JsDiv(p - c, p).value < 1.0
  {
    var v := JsDiv(p - c, p).value;
    assert (1.0 - v) * p == c;
  }

  function Drawdowns(rs: seq<real>): (ds: seq<Option<real>>)
    ensures |ds| == |rs| && forall i :: 0 <= i < |rs| ==> ds[i] == Drawdown(rs, i)
  {
    seq(|rs|, i requires 0 <= i < |rs| => Drawdown(rs, i))
  }

  /** `Math.max(...xs, 0)`. */
  function MaxWithZero(xs: seq<real>): (m: real)
    ensures m >= 0.0 && forall i :: 0 <= i < |xs| ==> m >= xs[i]
    ensures m == 0.0 || exists i :: 0 <= i < |xs| && m == xs[i]
  {
    if |xs| == 0 then 0.0 else Max(MaxWithZero(xs[..|xs| - 1]), xs[|xs| - 1])
  }

  /** maxDrawdown: the largest drawdown, at least 0, in percent; NaN when a
      drawdown is not a finite number. */
  function MaxDrawdown(ds: seq<Option<real>>): (m: Option<real>)
    ensures m.Some? <==> forall i :: 0 <= i < |ds| ==> ds[i].Some?
    ensures m.Some? ==> m.value >= 0.0 && forall i :: 0 <= i < |ds| ==> m.value >= ds[i].value * 100.0
    ensures m.Some? ==> m.value == 0.0 || exists i :: 0 <= i < |ds| && m.value == ds[i].value * 100.0
  {
    if forall i :: 0 <= i < |ds| ==> ds[i].Some?
    then
      var vs := seq(|ds|, i requires 0 <= i < |ds| => ds[i].value);
      assert forall i :: 0 <= i < |ds| ==> vs[i] == ds[i].value;
      Some(MaxWithZero(vs) * 100.0)
    else None
  }

  /** calculateMetrics. */
  function CalculateMetrics(hs: seq<HoldingView>, summary: PortfolioSummary, sqrt: real -> real): (m: Metrics)
    ensures m.roi == Roi(summary)
    ensures Returns(hs).None? ==> m.sharpeRatio == 0.0 && m.maxDrawdown.None?
  {
    match Returns(hs)
    case None => Metrics(Roi(summary), 0.0, None)
    case Some(rs) => Metrics(Roi(summary), SharpeRatio(Mean(rs), sqrt(Variance(rs))), MaxDrawdown(Drawdowns(rs)))
  }

  /** The page's metrics: all 0 with no holdings or no summary. */
  function PageMetrics(hs: seq<HoldingView>, summary: Option<PortfolioSummary>, sqrt: real -> real): (m: Metrics)
    ensures |hs| == 0 || summary.None? ==> m == Metrics(0.0, 0.0, Some(0.0))
  {
    if |hs| == 0 || summary.None? then Metrics(0.0, 0.0, Some(0.0)) else CalculateMetrics(hs, summary.value, sqrt)
  }

  /** When no holding has lost everything (each gain percentage is a number
      above −100), the maximum drawdown is a number in [0, 100). */
  lemma MaxDrawdownBounded(hs: seq<HoldingView>, summary: PortfolioSummary, sqrt: real -> real)
    requires forall i :: 0 <= i < |hs| ==> hs[i].gainPercent.Some? && hs[i].gainPercent.value > -100.0
    ensures CalculateMetrics(hs, summary, sqrt).maxDrawdown.Some?
    ensures 0.0 <= CalculateMetrics(hs, summary, sqrt).maxDrawdown.value < 100.0
  {
    var rs := Returns(hs).value;
    var ds := Drawdowns(rs);
    forall i | 0 <= i < |rs| ensures ds[i].Some? && 0.0 <= ds[i].value < 1.0 {
      assert 1.0 + rs[i] > 0.0;
      assert Peak(rs, i) >= 1.0 + rs[i];
      DrawdownBounds(rs, i);
    }
  }

  /** With identical returns and a square root that maps 0 to 0, the Sharpe
      ratio is 0. */
  lemma ConstantReturnsNoSharpe(hs: seq<HoldingView>, summary: PortfolioSummary, sqrt: real -> real, g: real)
    requires forall i :: 0 <= i < |hs| ==> hs[i].gainPercent == Some(g)
    requires sqrt(0.0) == 0.0
    ensures CalculateMetrics(hs, summary, sqrt).sharpeRatio == 0.0
  {
    ConstantReturnsNoVariance(Returns(hs).value, g / 100.0);
  }
}
