// The frontend's demonstration data: the mock stock list and market
// summary, and the generators of random sparklines, price histories and
// candlestick series. Math.random's draws are an input sequence of reals
// in [0, 1); dates are given by a function from "days before now" to an
// ISO date.

module StockData {
  import opened Common

  /** A stock as the pages show it. */
  datatype StockView = StockView(
    symbol: string, name: string, sector: string,
    price: real, change: real, changePercent: real,
    volume: real, marketCap: real, lastDate: Option<string>)

  /** STOCKS. */
  const Stocks: seq<StockView> := [
    StockView("BIAT", "Banque Internationale Arabe de Tunisie", "Banking", 118.50, 2.34, 2.01, 45230.0, 2847000000.0, None),
    StockView("BNA", "Banque Nationale Agricole", "Banking", 12.80, -0.15, -1.16, 23100.0, 512000000.0, None),
    StockView("SFBT", "Société de Fabrication des Boissons de Tunisie", "Consumer", 21.40, 0.85, 4.13, 67800.0, 1284000000.0, None),
    StockView("ATB", "Arab Tunisian Bank", "Banking", 4.25, 0.12, 2.91, 89450.0, 340000000.0, None),
    StockView("BH", "Banque de l'Habitat", "Banking", 15.60, -0.28, -1.76, 34200.0, 624000000.0, None),
    StockView("UIB", "Union Internationale de Banques", "Banking", 22.30, 1.05, 4.94, 52100.0, 892000000.0, None),
    StockView("STAR", "Société Tunisienne d'Assurances et de Réassurances", "Insurance", 156.00, 3.20, 2.09, 12400.0, 1560000000.0, None),
    StockView("TJARI", "Tunisie Leasing & Factoring", "Financial Services", 8.90, 0.22, 2.53, 28700.0, 178000000.0, None),
    StockView("SOTUVER", "Société Tunisienne de Verreries", "Industrial", 7.15, -0.08, -1.11, 15600.0, 143000000.0, None),
    StockView("POULINA", "Poulina Group Holding", "Conglomerate", 13.25, 0.45, 3.51, 78900.0, 795000000.0, None),
    StockView("ADWYA", "Adwya", "Healthcare", 6.40, 0.18, 2.89, 41200.0, 192000000.0, None),
    StockView("SAH", "SAH Lilas", "Consumer", 18.70, -0.32, -1.68, 25800.0, 561000000.0, None)
  ]

  /** An index line of the market summary. */
  datatype IndexView = IndexView(value: real, change: real, changePercent: real)

  /** The market summary; the mock has no mover lists. */
  datatype MarketSummary = MarketSummary(
    tunindex: IndexView, tunindex20: IndexView,
    volume: real, trades: real, marketCap: real,
    topGainers: Option<seq<string>>, topLosers: Option<seq<string>>)

  /** MARKET_SUMMARY. */
  const MockMarketSummary: MarketSummary := MarketSummary(
    IndexView(9245.67, 45.23, 0.49), IndexView(4123.45, 18.76, 0.46),
    4523000.0, 2847.0, 28470000000.0, None, None)

  /** Draws of Math.random: every one in [0, 1). */
  predicate Draws(rand: seq<real>)
  {
    forall i :: 0 <= i < |rand| ==> 0.0 <= rand[i] < 1.0
  }

  /** `Math.floor(r * 100000) + 10000`, the random volume of a day. */
  function RandomVolume(r: real): (v: int)
    requires 0.0 <= r < 1.0
    ensures 10000 <= v <= 109999
  {
    (r * 100000.0).Floor + 10000
  }

  // ---------------------------------------------------------------------
  // generateSparklineData

  /** The drift of a sparkline: up, down or flat. */
  function TrendBias(trend: string): (b: real)
    ensures trend == "up" ==> b == 0.1
    ensures trend == "down" ==> b == -0.1
    ensures trend != "up" && trend != "down" ==> b == 0.0
  {
    if trend == "up" then 0.1 else if trend == "down" then -0.1 else 0.0
  }

  /** The sparkline value after `n` steps from 50, each step moved by
      `(r − 0.5 + bias)·10` and clamped to [10, 90]. */
  function SparkValue(trend: string, rand: seq<real>, n: nat): (v: real)
    requires n <= |rand|
    ensures n > 0 ==> 10.0 <= v <= 90.0
  {
    if n == 0 then 50.0
    else
      var change := (rand[n - 1] - 0.5 + TrendBias(trend)) * 10.0;
      Max(10.0, Min(90.0, SparkValue(trend, rand, n - 1) + change))
  }

  /** generateSparklineData: `length` values, the i-th being the value after
      i + 1 steps, each in [10, 90]. */
  method GenerateSparklineData(length: nat, trend: string, rand: seq<real>) returns (data: seq<real>)
    requires |rand| >= length && Draws(rand)
    ensures |data| == length
    ensures forall i :: 0 <= i < length ==> data[i] == SparkValue(trend, rand, i + 1)
    ensures forall i :: 0 <= i < length ==> 10.0 <= data[i] <= 90.0
  {
    data := [];
    var value := 50.0;
    for i := 0 to length
      invariant |data| == i && value == SparkValue(trend, rand, i)
      invariant forall k :: 0 <= k < i ==> data[k] == SparkValue(trend, rand, k + 1)
    {
      var trendBias := TrendBias(trend);
      var change := (rand[i] - 0.5 + trendBias) * 10.0;
      value := Max(10.0, Min(90.0, value + change));
      data := data + [value];
    }
  }

  // ---------------------------------------------------------------------
  // generatePriceHistory

  /** One day of a price history. */
  datatype PricePoint = PricePoint(date: string, price: real, volume: int)

  /** The running price after `n` days: it starts at 0.9·base, moves by
      `(r − 0.45)·0.03·base` a day (the first draw of the day) and never
      goes below 0.7·base. */
  function HistoryPrice(base: real, rand: seq<real>, n: nat): (p: real)
    requires 2 * n <= |rand|
    ensures n > 0 ==> p >= 0.7 * base
  {
    if n == 0 then 0.9 * base
    else
      var change := (rand[2 * (n - 1)] - 0.45) * (base * 0.03);
      Max(HistoryPrice(base, rand, n - 1) + change, base * 0.7)
  }

  /** The k-th point of a history: the running price after k + 1 days and
      the volume drawn from the day's second draw. */
  function HistoryPoint(base: real, rand: seq<real>, k: nat, date: string): (p: PricePoint)
    requires 2 * (k + 1) <= |rand| && Draws(rand)
    ensures p.price == HistoryPrice(base, rand, k + 1) && p.price >= 0.7 * base
    ensures 10000 <= p.volume <= 109999
  {
    PricePoint(date, HistoryPrice(base, rand, k + 1), RandomVolume(rand[2 * k + 1]))
  }

  /** generatePriceHistory: days + 1 points, oldest first, dated `days`
      down to 0 days before now; each price is the running price, never
      below 0.7·base, and each volume is drawn from the second draw of its
      day. */
  method GeneratePriceHistory(base: real, days: nat, dateBefore: nat -> string, rand: seq<real>)
    returns (history: seq<PricePoint>)
    requires |rand| >= 2 * (days + 1) && Draws(rand)
    ensures |history| == days + 1
    ensures forall k :: 0 <= k <= days ==> history[k] == HistoryPoint(base, rand, k, dateBefore(days - k))
    ensures forall k :: 0 <= k <= days ==> history[k].price >= 0.7 * base
    ensures forall k :: 0 <= k <= days ==> 10000 <= history[k].volume <= 109999
  {
    history := [];
    var price := base * 0.9;
    var i := days;
    while i >= 0
      invariant -1 <= i <= days
      invariant |history| == days - i
      invariant price == HistoryPrice(base, rand, days - i)
      invariant forall k :: 0 <= k < days - i ==> history[k] == HistoryPoint(base, rand, k, dateBefore(days - k))
      decreases i + 1
    {
      var point;
      point, price := NextPricePoint(base, rand, days - i, dateBefore(i), price);
      history := history + [point];
      i := i - 1;
    }
  }

  /** One day of generatePriceHistory: the running price moves by the day's
      first draw and the volume comes from its second. */
  method NextPricePoint(base: real, rand: seq<real>, n: nat, date: string, price: real)
    returns (point: PricePoint, next: real)
    requires 2 * (n + 1) <= |rand| && Draws(rand) && price == HistoryPrice(base, rand, n)
    ensures point == HistoryPoint(base, rand, n, date)
    ensures next == point.price == HistoryPrice(base, rand, n + 1)
  {
    var change := (rand[2 * n] - 0.45) * (base * 0.03);
    next := Max(price + change, base * 0.7);
    var volume := RandomVolume(rand[2 * n + 1]);
    point := PricePoint(date, next, volume);
  }

  // ---------------------------------------------------------------------
  // generateOHLCData

  /** One candle. */
  datatype Candle = Candle(date: string, open: real, high: real, low: real, close: real, price: real, volume: int)

  /** The close after `n` days: it starts at 0.9·base and moves by
      `(r − 0.45)·0.025·base` a day (the first of the day's five draws). */
  function CloseAfter(base: real, rand: seq<real>, n: nat): real
    requires 5 * n <= |rand|
  {
    if n == 0 then 0.9 * base
    else CloseAfter(base, rand, n - 1) + (rand[5 * (n - 1)] - 0.45) * (base * 0.025)
  }

  /** The k-th candle, built from the previous close: the open moves by the
      second draw, the high and low widen the open–close range by the third
      and fourth, and the volume is the fifth. */
  function CandleAt(base: real, rand: seq<real>, k: nat, date: string, lastClose: real): (c: Candle)
    requires 5 * (k + 1) <= |rand| && Draws(rand)
    ensures c.close == lastClose + (rand[5 * k] - 0.45) * (base * 0.025) && c.price == c.close
    ensures base >= 0.0 ==> c.high >= Max(c.open, c.close) && c.low <= Min(c.open, c.close)
  {
    var volatility := base * 0.025;
    var open := lastClose + (rand[5 * k + 1] - 0.5) * volatility * 0.3;
    var close := lastClose + (rand[5 * k] - 0.45) * volatility;
    var high := Max(open, close) + rand[5 * k + 2] * volatility * 0.5;
    var low := Min(open, close) - rand[5 * k + 3] * volatility * 0.5;
    Candle(date, open, high, low, close, close, RandomVolume(rand[5 * k + 4]))
  }

  /** The k-th candle of a series: the one built from the close after k days. */
  function CandleOf(base: real, rand: seq<real>, k: nat, date: string): (c: Candle)
    requires 5 * (k + 1) <= |rand| && Draws(rand)
    ensures c.close == CloseAfter(base, rand, k + 1) && c.price == c.close
    ensures base >= 0.0 ==> c.high >= Max(c.open, c.close) && c.low <= Min(c.open, c.close)
  {
    CandleAt(base, rand, k, date, CloseAfter(base, rand, k))
  }

  /** generateOHLCData: days + 1 candles, oldest first; each candle's price
      is its close and each day starts from the previous close. */
  method GenerateOHLCData(base: real, days: nat, dateBefore: nat -> string, rand: seq<real>)
    returns (history: seq<Candle>)
    requires |rand| >= 5 * (days + 1) && Draws(rand)
    ensures |history| == days + 1
    ensures forall k :: 0 <= k <= days ==> history[k] == CandleOf(base, rand, k, dateBefore(days - k))
  {
    history := [];
    var lastClose := base * 0.9;
    var i := days;
    while i >= 0
      invariant -1 <= i <= days
      invariant |history| == days - i
      invariant lastClose == CloseAfter(base, rand, days - i)
      invariant forall k :: 0 <= k < days - i ==> history[k] == CandleOf(base, rand, k, dateBefore(days - k))
      decreases i + 1
    {
      var candle;
      candle, lastClose := NextCandle(base, rand, days - i, dateBefore(i), lastClose);
      history := history + [candle];
      i := i - 1;
    }
  }

  /** One day of generateOHLCData: the candle built from the previous close,
      and the close the next day starts from. */
  method NextCandle(base: real, rand: seq<real>, n: nat, date: string, lastClose: real)
    returns (candle: Candle, close: real)
    requires 5 * (n + 1) <= |rand| && Draws(rand)
    ensures candle == CandleAt(base, rand, n, date, lastClose)
    ensures close == candle.close == lastClose + (rand[5 * n] - 0.45) * (base * 0.025)
  {
    var volatility := base * 0.025;
    var dailyChange := (rand[5 * n] - 0.45) * volatility;
    var open := lastClose + (rand[5 * n + 1] - 0.5) * volatility * 0.3;
    close := lastClose + dailyChange;
    var high := Max(open, close) + rand[5 * n + 2] * volatility * 0.5;
    var low := Min(open, close) - rand[5 * n + 3] * volatility * 0.5;
    var volume := RandomVolume(rand[5 * n + 4]);
    candle := Candle(date, open, high, low, close, close, volume);
  }

  /** With a non-negative base every candle's high is at least its open and
      close, its low at most both, and consecutive closes differ by the day's
      move. */
  lemma CandleSeries(base: real, days: nat, dateBefore: nat -> string, rand: seq<real>, k: nat)
    requires |rand| >= 5 * (days + 1) && Draws(rand) && base >= 0.0 && k < days
    ensures var c := CandleOf(base, rand, k, dateBefore(days - k));
            var d := CandleOf(base, rand, k + 1, dateBefore(days - k - 1));
            c.high >= Max(c.open, c.close) && c.low <= Min(c.open, c.close) &&
            d.close == c.close + (rand[5 * (k + 1)] - 0.45) * (base * 0.025)
  {
  }
}
