// The frontend's data hooks: each keeps a few state cells (data, loading,
// error, a "using mock data" flag) and fills them from one request. A
// request's outcome is an input: the backend's response or the message of
// the rejection. JavaScript's `||` on a possibly-null number is modelled
// on `Option<real>` (null and 0 are both falsy); a division whose divisor
// is 0 gives `None` (JavaScript's NaN or Infinity).

module UseApi {
  import opened Common
  import opened StockData
  import StockRoutes
  import MarketRoutes
  import PortfolioRoutes

  /** `x || 0`. */
  function OrZero(x: Option<real>): (r: real)
    ensures x.Some? ==> r == x.value
    ensures x.None? ==> r == 0.0
  {
    if x.Some? then x.value else 0.0
  }

  /** `x || fallback`. */
  function OrElse(x: Option<real>, fallback: real): (r: real)
    ensures x.Some? && x.value != 0.0 ==> r == x.value
    ensures x.None? || x.value == 0.0 ==> r == fallback
  {
    if x.Some? && x.value != 0.0 then x.value else fallback
  }

  /** `a / b` as a finite number, or `None` when `b` is 0. */
  function JsDiv(a: real, b: real): (r: Option<real>)
    ensures r.Some? <==> b != 0.0
    ensures r.Some? ==> r.value * b == a
  {
    if b == 0.0 then None else Some(a / b)
  }

  // ---------------------------------------------------------------------
  // useApi

  /** The error a failed call stores: the rejection's message, or a default
      when it has none. */
  function ErrorMessage(message: string): (r: string)
    ensures message != "" ==> r == message
    ensures message == "" ==> r == "An error occurred"
  {
    if message != "" then message else "An error occurred"
  }

  /** useApi: the last result, the loading flag and the last error. */
  class ApiCall<T> {
    var data: Option<T>
    var loading: bool
    var error: Option<string>

    constructor(immediate: bool)
      ensures data == None && loading == immediate && error == None
    {
      data := None;
      loading := immediate;
      error := None;
    }

    /** execute: resolves with the fetched value and stores it, or stores
        the error message and rejects again; loading ends false either way. */
    method Execute(outcome: Result<T, string>) returns (r: Result<T, string>)
      modifies this
      ensures r == outcome && !loading
      ensures outcome.Ok? ==> data == Some(outcome.value) && error == None
      ensures outcome.Err? ==> data == old(data) && error == Some(ErrorMessage(outcome.error))
    {
      loading := true;
      error := None;
      match outcome {
        case Ok(result) =>
          data := Some(result);
          r := Ok(result);
        case Err(message) =>
          error := Some(ErrorMessage(message));
          r := Err(message);
      }
      loading := false;
    }

    /** The mount effect: an immediate hook executes once and swallows the
        rejection; a lazy one does nothing. */
    method Mount(immediate: bool, outcome: Result<T, string>)
      modifies this
      ensures !immediate ==> data == old(data) && loading == old(loading) && error == old(error)
      ensures immediate ==> !loading
      ensures immediate && outcome.Ok? ==> data == Some(outcome.value) && error == None
      ensures immediate && outcome.Err? ==> data == old(data) && error == Some(ErrorMessage(outcome.error))
    {
      if immediate {
        var _ := Execute(outcome);
      }
    }
  }

  // ---------------------------------------------------------------------
  // useStocks

  /** One listed stock as the pages show it: the code as symbol, the sector
      "BVMT", a missing price as 0, the change in money from the price and
      the percentage, and no volume or capitalisation. */
  function StockViewOf(q: StockRoutes.Quote): (v: StockView)
  {
    var price := OrZero(q.latestPrice);
    StockView(q.code, q.name, "BVMT", price, price * q.changePct / 100.0, q.changePct, 0.0, 0.0, q.lastDate)
  }

  /** The money change has the sign of the percentage change for a stock
      with a positive price, and a stock without a price shows 0 and no
      change. */
  lemma StockViewSigns(q: StockRoutes.Quote)
    ensures q.latestPrice.Some? && q.latestPrice.value > 0.0 ==>
      (StockViewOf(q).change > 0.0 <==> q.changePct > 0.0) &&
      (StockViewOf(q).change < 0.0 <==> q.changePct < 0.0)
    ensures q.latestPrice.None? ==> StockViewOf(q).price == 0.0 && StockViewOf(q).change == 0.0
    ensures StockViewOf(q).symbol == q.code && StockViewOf(q).sector == "BVMT"
    ensures StockViewOf(q).change * 100.0 == StockViewOf(q).price * StockViewOf(q).changePercent
  {
    var p := OrZero(q.latestPrice);
    if p > 0.0 {
      if q.changePct > 0.0 {
        assert p * q.changePct > 0.0;
      } else if q.changePct < 0.0 {
        assert p * (-q.changePct) > 0.0;
      }
    }
  }

  /** The mapped list. */
  function StockViews(qs: seq<StockRoutes.Quote>): (r: seq<StockView>)
    ensures |r| == |qs|
    ensures forall i :: 0 <= i < |qs| ==> r[i] == StockViewOf(qs[i])
  {
    seq(|qs|, i requires 0 <= i < |qs| => StockViewOf(qs[i]))
  }

  /** useStocks: the mock list until a non-empty listing arrives. */
  class StocksHook {
    var stocks: seq<StockView>
    var loading: bool
    var error: Option<string>
    var usingMock: bool

    constructor()
      ensures stocks == Stocks && loading && error == None && !usingMock
    {
      stocks := Stocks;
      loading := true;
      error := None;
      usingMock := false;
    }

    /** fetchStocks: a non-empty listing replaces the list; an empty one
        installs the mock list and raises the flag; a failure keeps the list,
        stores the message and raises the flag. */
    method Fetched(response: Result<seq<StockRoutes.Quote>, string>)
      modifies this
      ensures !loading
      ensures response.Ok? ==> stocks == (if |response.value| > 0 then StockViews(response.value) else Stocks)
      ensures response.Ok? ==> usingMock == (|response.value| == 0) && error == old(error)
      ensures response.Err? ==> stocks == old(stocks) && error == Some(response.error) && usingMock
    {
      match response {
        case Ok(apiStocks) =>
          var transformed := StockViews(apiStocks);
          stocks := if |transformed| > 0 then transformed else Stocks;
          usingMock := |transformed| == 0;
        case Err(message) =>
          error := Some(message);
          usingMock := true;
      }
      loading := false;
    }
  }

  // ---------------------------------------------------------------------
  // useMarketOverview

  /** The market summary built from the backend's overview: TUNINDEX with
      ten times the percentage as its change, a TUNINDEX20 line derived from
      it by fixed factors, and zero volume, trades and capitalisation. */
  function SummaryOf(o: MarketRoutes.Overview): (s: MarketSummary)
    ensures s.tunindex.value == o.value && s.tunindex.changePercent == o.changePct
    ensures s.topGainers == Some(o.topGainers) && s.topLosers == Some(o.topLosers)
    ensures s.volume == 0.0 && s.trades == 0.0 && s.marketCap == 0.0
  {
    MarketSummary(
      IndexView(o.value, o.changePct * 10.0, o.changePct),
      IndexView(o.value * 0.45, o.changePct * 5.0, o.changePct * 0.95),
      0.0, 0.0, 0.0, Some(o.topGainers), Some(o.topLosers))
  }

  /** Over the backend's overview of some prices, the TUNINDEX line's change
      is exactly the index's distance from its 9000 base, and the TUNINDEX20
      line moves half as much in money and 0.95 times as much in percent. */
  lemma SummaryOfOverview(prices: seq<MarketRoutes.Entry>)
    requires |prices| > 0
    ensures var s := SummaryOf(MarketRoutes.MarketOverview(prices));
      s.tunindex.value == 9000.0 + s.tunindex.change &&
      s.tunindex20.change * 2.0 == s.tunindex.change &&
      s.tunindex20.changePercent == 0.95 * s.tunindex.changePercent &&
      s.tunindex20.value == 0.45 * s.tunindex.value
  {
  }

  /** useMarketOverview: the mock summary until an overview arrives. */
  class MarketHook {
    var data: MarketSummary
    var loading: bool
    var usingMock: bool

    constructor()
      ensures data == MockMarketSummary && loading && !usingMock
    {
      data := MockMarketSummary;
      loading := true;
      usingMock := false;
    }

    method Fetched(response: Result<MarketRoutes.Overview, string>)
      modifies this
      ensures !loading
      ensures response.Ok? ==> data == SummaryOf(response.value) && usingMock == old(usingMock)
      ensures response.Err? ==> data == old(data) && usingMock
    {
      match response {
        case Ok(overview) =>
          data := SummaryOf(overview);
        case Err(_) =>
          usingMock := true;
      }
      loading := false;
    }
  }

  // ---------------------------------------------------------------------
  // useStockPrediction

  /** useStockPrediction. */
  class PredictionHook<P> {
    var prediction: Option<P>
    var loading: bool
    var error: Option<string>

    constructor()
      ensures prediction == None && loading && error == None
    {
      prediction := None;
      loading := true;
      error := None;
    }

    /** The effect for a code: a missing or empty code makes no request and
        leaves everything as it is, loading included; otherwise the
        prediction or the error is stored and loading ends. */
    method Load(code: Option<string>, response: Result<P, string>)
      modifies this
      ensures (code.None? || code.value == "") ==>
        prediction == old(prediction) && loading == old(loading) && error == old(error)
      ensures code.Some? && code.value != "" ==> !loading
      ensures code.Some? && code.value != "" && response.Ok? ==> prediction == Some(response.value) && error == old(error)
      ensures code.Some? && code.value != "" && response.Err? ==> prediction == old(prediction) && error == Some(response.error)
    {
      if code.None? || code.value == "" {
        return;
      }
      match response {
        case Ok(data) =>
          prediction := Some(data);
        case Err(message) =>
          error := Some(message);
      }
      loading := false;
    }
  }

  // ---------------------------------------------------------------------
  // usePortfolio

  /** A holding as the portfolio page shows it. */
  datatype HoldingView = HoldingView(
    symbol: string, name: string, shares: real, avgCost: real,
    currentPrice: real, value: real, gain: real, gainPercent: Option<real>)

  /** The portfolio summary. */
  datatype PortfolioSummary = PortfolioSummary(
    totalValue: real, investedValue: real, todayChange: real, todayChangePercent: real,
    totalReturns: real, returnPercent: Option<real>)

  /** PORTFOLIO, the mock summary. */
  const MockPortfolio: PortfolioSummary := PortfolioSummary(285437.50, 245000.00, 1245.30, 0.44, 40437.50, Some(16.51))

  /** HOLDINGS, the mock holdings. */
  const MockHoldings: seq<HoldingView> := [
    HoldingView("BIAT", "Banque Internationale Arabe de Tunisie", 500.0, 105.20, 118.50, 59250.00, 6650.00, Some(12.64)),
    HoldingView("SFBT", "SFBT", 1200.0, 18.50, 21.40, 25680.00, 3480.00, Some(15.68)),
    HoldingView("STAR", "STAR Assurances", 200.0, 142.00, 156.00, 31200.00, 2800.00, Some(9.86)),
    HoldingView("UIB", "Union Internationale de Banques", 800.0, 19.80, 22.30, 17840.00, 2000.00, Some(12.63)),
    HoldingView("POULINA", "Poulina Group Holding", 2000.0, 11.50, 13.25, 26500.00, 3500.00, Some(15.22)),
    HoldingView("ATB", "Arab Tunisian Bank", 5000.0, 3.90, 4.25, 21250.00, 1750.00, Some(8.97)),
    HoldingView("BH", "Banque de l'Habitat", 1500.0, 16.20, 15.60, 23400.00, -900.00, Some(-3.70)),
    HoldingView("ADWYA", "Adwya", 3000.0, 5.80, 6.40, 19200.00, 1800.00, Some(10.34))
  ]

  /** The holding mapping as written: the price falls back to the average
      cost, but the gain subtracts the average cost from the raw
      `current_price`, which JavaScript reads as 0 when it is null. */
  function HoldingViewAsWritten(h: PortfolioRoutes.Holding): (v: HoldingView)
    ensures v.currentPrice == OrElse(h.currentPrice, h.position.avgBuyPrice)
    ensures v.gain == (OrZero(h.currentPrice) - h.position.avgBuyPrice) * (h.position.quantity as real)
  {
    var p := h.position;
    var q := p.quantity as real;
    var raw := OrZero(h.currentPrice);
    var gainPercent := JsDiv(raw - p.avgBuyPrice, p.avgBuyPrice);
    HoldingView(p.stockCode, p.stockCode, q, p.avgBuyPrice,
                OrElse(h.currentPrice, p.avgBuyPrice),
                OrElse(h.currentValue, q * p.avgBuyPrice),
                (raw - p.avgBuyPrice) * q,
                if gainPercent.Some? then Some(gainPercent.value * 100.0) else None)
  }

  /** The holding mapping with the gain taken from the price shown: a
      holding without a price gains nothing. */
  function HoldingViewOf(h: PortfolioRoutes.Holding): (v: HoldingView)
    ensures v.symbol == h.position.stockCode && v.name == h.position.stockCode
    ensures v.shares == h.position.quantity as real && v.avgCost == h.position.avgBuyPrice
    ensures v.currentPrice == OrElse(h.currentPrice, h.position.avgBuyPrice)
    ensures v.value == OrElse(h.currentValue, (h.position.quantity as real) * h.position.avgBuyPrice)
    ensures v.gain == (v.currentPrice - v.avgCost) * v.shares
    ensures v.gainPercent.Some? <==> v.avgCost != 0.0
  {
    var p := h.position;
    var q := p.quantity as real;
    var price := OrElse(h.currentPrice, p.avgBuyPrice);
    var gainPercent := JsDiv(price - p.avgBuyPrice, p.avgBuyPrice);
    HoldingView(p.stockCode, p.stockCode, q, p.avgBuyPrice, price,
                OrElse(h.currentValue, q * p.avgBuyPrice),
                (price - p.avgBuyPrice) * q,
                if gainPercent.Some? then Some(gainPercent.value * 100.0) else None)
  }

  /** A position of 10 shares bought at 20 with no latest close: as written
      it shows a loss of 200 (−100 %) while its value is its cost; with the
      gain taken from the price shown it shows no gain. */
  lemma NullPriceShowsTotalLoss()
    ensures var h := PortfolioRoutes.Holding(PortfolioRoutes.Position(1, "u", "BIAT", 10, 20.0, 0), None, None);
      HoldingViewAsWritten(h).gain == -200.0 && HoldingViewAsWritten(h).gainPercent == Some(-100.0) &&
      HoldingViewAsWritten(h).value == 200.0 && HoldingViewAsWritten(h).currentPrice == 20.0 &&
      HoldingViewOf(h).gain == 0.0 && HoldingViewOf(h).gainPercent == Some(0.0)
  {
  }

  /** The listing row the backend sends: valued at quantity × price exactly
      when it has a non-zero price. */
  predicate ValuedAsListed(h: PortfolioRoutes.Holding)
  {
    h.currentValue == (if h.currentPrice.Some? && h.currentPrice.value != 0.0
                       then Some(h.currentPrice.value * (h.position.quantity as real)) else None)
  }

  /** On a row the backend listed, the gain shown is the value minus the
      cost. */
  lemma GainIsValueMinusCost(h: PortfolioRoutes.Holding)
    requires ValuedAsListed(h)
    ensures HoldingViewOf(h).gain == HoldingViewOf(h).value - HoldingViewOf(h).shares * HoldingViewOf(h).avgCost
  {
    var q := h.position.quantity as real;
    var a := h.position.avgBuyPrice;
    if h.currentPrice.Some? && h.currentPrice.value != 0.0 {
      var c := h.currentPrice.value;
      if c * q == 0.0 {
        assert q == 0.0;
      }
    }
  }

  /** The mapped holdings. */
  function HoldingViews(hs: seq<PortfolioRoutes.Holding>): (r: seq<HoldingView>)
    ensures |r| == |hs|
    ensures forall i :: 0 <= i < |hs| ==> r[i] == HoldingViewOf(hs[i])
  {
    seq(|hs|, i requires 0 <= i < |hs| => HoldingViewOf(hs[i]))
  }

  function Values(vs: seq<HoldingView>): (r: seq<real>)
    ensures |r| == |vs| && forall i :: 0 <= i < |vs| ==> r[i] == vs[i].value
  {
    seq(|vs|, i requires 0 <= i < |vs| => vs[i].value)
  }

  /** What a holding cost: shares × average cost. */
  function Cost(v: HoldingView): real
  {
    v.shares * v.avgCost
  }

  function Costs(vs: seq<HoldingView>): (r: seq<real>)
    ensures |r| == |vs| && forall i :: 0 <= i < |vs| ==> r[i] == Cost(vs[i])
  {
    seq(|vs|, i requires 0 <= i < |vs| => Cost(vs[i]))
  }

  function Gains(vs: seq<HoldingView>): (r: seq<real>)
    ensures |r| == |vs| && forall i :: 0 <= i < |vs| ==> r[i] == vs[i].gain
  {
    seq(|vs|, i requires 0 <= i < |vs| => vs[i].gain)
  }

  /** The summary of some holdings: total value and invested amount as sums,
      the returns as their difference, and the day's change as a fixed 1 %. */
  function SummaryOfHoldings(vs: seq<HoldingView>): (s: PortfolioSummary)
    ensures s.totalValue == Sum(Values(vs)) && s.investedValue == Sum(Costs(vs))
    ensures s.totalReturns == s.totalValue - s.investedValue
    ensures s.todayChange == 0.01 * s.totalValue && s.todayChangePercent == 1.0
    ensures s.returnPercent.Some? <==> s.investedValue != 0.0
  {
    var total := Sum(Values(vs));
    var invested := Sum(Costs(vs));
    var ratio := JsDiv(total - invested, invested);
    PortfolioSummary(total, invested, total * 0.01, 1.0, total - invested,
                     if ratio.Some? then Some(ratio.value * 100.0) else None)
  }

  /** When every holding's gain is its value minus its cost, the gains add
      up to the summary's returns. */
  lemma {:induction false} GainsSumToReturns(vs: seq<HoldingView>)
    requires forall i :: 0 <= i < |vs| ==> vs[i].gain == vs[i].value - Cost(vs[i])
    ensures Sum(Gains(vs)) == Sum(Values(vs)) - Sum(Costs(vs))
  {
    if |vs| > 0 {
      var front := vs[..|vs| - 1];
      GainsSumToReturns(front);
      assert Gains(vs) == Gains(front) + [vs[|vs| - 1].gain];
      assert Values(vs) == Values(front) + [vs[|vs| - 1].value];
      assert Costs(vs) == Costs(front) + [Cost(vs[|vs| - 1])];
      SumAppend(Gains(front), vs[|vs| - 1].gain);
      SumAppend(Values(front), vs[|vs| - 1].value);
      SumAppend(Costs(front), Cost(vs[|vs| - 1]));
    }
  }

  /** Over the rows the backend lists, the holdings' gains add up to the
      summary's total returns. */
  lemma ListedGainsSumToReturns(hs: seq<PortfolioRoutes.Holding>)
    requires forall i :: 0 <= i < |hs| ==> ValuedAsListed(hs[i])
    ensures Sum(Gains(HoldingViews(hs))) == SummaryOfHoldings(HoldingViews(hs)).totalReturns
  {
    var vs := HoldingViews(hs);
    forall i | 0 <= i < |vs| ensures vs[i].gain == vs[i].value - Cost(vs[i]) {
      GainIsValueMinusCost(hs[i]);
    }
    GainsSumToReturns(vs);
  }

  /** usePortfolio: the mock portfolio until a non-empty list of positions
      arrives. */
  class PortfolioHook {
    var summary: PortfolioSummary
    var holdings: seq<HoldingView>
    var loading: bool
    var usingMock: bool

    constructor()
      ensures summary == MockPortfolio && holdings == MockHoldings && loading && !usingMock
    {
      summary := MockPortfolio;
      holdings := MockHoldings;
      loading := true;
      usingMock := false;
    }

    /** fetchPortfolio: positions replace the mock portfolio; an empty list
        or a failure keeps it and raises the flag; loading always ends. */
    method Fetched(response: Result<seq<PortfolioRoutes.Holding>, string>)
      modifies this
      ensures !loading
      ensures response.Ok? && |response.value| > 0 ==>
        holdings == HoldingViews(response.value) && summary == SummaryOfHoldings(holdings) && usingMock == old(usingMock)
      ensures !(response.Ok? && |response.value| > 0) ==>
        holdings == old(holdings) && summary == old(summary) && usingMock
    {
      if response.Ok? && |response.value| > 0 {
        var views := HoldingViews(response.value);
        holdings := views;
        summary := SummaryOfHoldings(views);
      } else {
        usingMock := true;
      }
      loading := false;
    }
  }

  // ---------------------------------------------------------------------
  // useAlerts

  /** useAlerts: the fetched alerts, or none when the request fails. */
  class AlertsHook<A> {
    var alerts: seq<A>
    var loading: bool

    constructor()
      ensures alerts == [] && loading
    {
      alerts := [];
      loading := true;
    }

    method Fetched(response: Result<seq<A>, string>)
      modifies this
      ensures !loading
      ensures alerts == (if response.Ok? then response.value else [])
    {
      alerts := if response.Ok? then response.value else [];
      loading := false;
    }
  }
}
