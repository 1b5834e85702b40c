// The trading simulator page: a cash balance of 100 000 TND, a map from
// stock code to quantity held and the list of trades, newest first, over a
// fixed list of demonstration stocks whose prices never change. Each
// trade's date and the chart's random draws are inputs.

module Simulator {
  import opened Common
  import StockData

  const InitialBalance: real := 100000.0

  /** One of the demonstration stocks. */
  datatype DemoStock = DemoStock(code: string, name: string, price: real, change: real)

  /** DEMO_STOCKS. */
  const DemoStocks: seq<DemoStock> := [
    DemoStock("BIAT", "Banque Internationale Arabe de Tunisie", 112.50, 1.2),
    DemoStock("SFBT", "Societe de Fabrication des Boissons", 22.80, -0.5),
    DemoStock("TLNET", "Telnet Holding", 8.45, 2.3),
    DemoStock("PGH", "Poulina Group Holding", 14.20, 0.8),
    DemoStock("UBCI", "Union Bancaire Commerce Industrie", 32.00, -1.1)
  ]

  /** No two demonstration stocks share a code, and every price is
      positive. */
  lemma DemoStocksWellFormed()
    ensures forall i, j :: 0 <= i < j < |DemoStocks| ==> DemoStocks[i].code != DemoStocks[j].code
    ensures forall i :: 0 <= i < |DemoStocks| ==> DemoStocks[i].price > 0.0
  {
  }

  predicate IsDemoCode(code: string)
  {
    exists i :: 0 <= i < |DemoStocks| && DemoStocks[i].code == code
  }

  /** `portfolio[code] || 0`. */
  function Held(holdings: map<string, int>, code: string): (n: int)
    ensures code in holdings ==> n == holdings[code]
    ensures code !in holdings ==> n == 0
  {
    if code in holdings then holdings[code] else 0
  }

  /** `q` lots of `p`, by repeated addition: `p·q` (LineIsProduct) without a
      product the solver has to reason about. */
  function Line(p: real, q: int): real
    decreases if q >= 0 then q else -q
  {
    if q == 0 then 0.0 else if q > 0 then Line(p, q - 1) + p else Line(p, q + 1) - p
  }

  lemma {:induction false} LineIsProduct(p: real, q: int)
    ensures Line(p, q) == p * (q as real)
    decreases if q >= 0 then q else -q
  {
    if q > 0 {
      LineIsProduct(p, q - 1);
      assert p * (q as real) == p * ((q - 1) as real) + p;
    } else if q < 0 {
      LineIsProduct(p, q + 1);
      assert p * (q as real) == p * ((q + 1) as real) - p;
    }
  }

  /** Any number of lots of nothing is nothing. */
  lemma {:induction false} LineOfZero(q: int)
    ensures Line(0.0, q) == 0.0
    decreases if q >= 0 then q else -q
  {
    if q > 0 {
      LineOfZero(q - 1);
    } else if q < 0 {
      LineOfZero(q + 1);
    }
  }

  /** One more lot adds `p`, whatever the sign of `q`. */
  lemma LineSucc(p: real, q: int)
    ensures Line(p, q + 1) == Line(p, q) + p
  {
  }

  /** Lots add up. */
  lemma {:induction false} LineAdd(p: real, a: int, d: int)
    ensures Line(p, a + d) == Line(p, a) + Line(p, d)
    decreases if d >= 0 then d else -d
  {
    if d > 0 {
      LineAdd(p, a, d - 1);
      LineSucc(p, a + d - 1);
      LineSucc(p, d - 1);
    } else if d < 0 {
      LineAdd(p, a, d + 1);
      LineSucc(p, a + d);
      LineSucc(p, d);
    }
  }

  /** Lots of a sum of prices are the sum of the lots. */
  lemma {:induction false} LineSplit(r: real, p: real, d: int)
    ensures Line(r + p, d) == Line(r, d) + Line(p, d)
    decreases if d >= 0 then d else -d
  {
    if d > 0 {
      LineSplit(r, p, d - 1);
    } else if d < 0 {
      LineSplit(r, p, d + 1);
    }
  }

  /** The value of the holdings priced by a list of stocks: each stock
      contributes its price times the quantity held. */
  function ValueOver(stocks: seq<DemoStock>, holdings: map<string, int>): real
  {
    if |stocks| == 0 then 0.0
    else
      var last := stocks[|stocks| - 1];
      ValueOver(stocks[..|stocks| - 1], holdings) + Line(last.price, Held(holdings, last.code))
  }

  /** The summed price of the stocks listed under a code. */
  function PriceOf(stocks: seq<DemoStock>, code: string): real
  {
    if |stocks| == 0 then 0.0
    else
      var last := stocks[|stocks| - 1];
      PriceOf(stocks[..|stocks| - 1], code) + (if last.code == code then last.price else 0.0)
  }

  /** portfolioValue: each held entry priced by the demonstration stock with
      its code. The entries of the map are summed here stock by stock; the
      two orders give the same sum because the codes are distinct and an
      entry without a demonstration stock adds 0. */
  function PortfolioValue(holdings: map<string, int>): real
  {
    ValueOver(DemoStocks, holdings)
  }

  /** Nothing held is worth nothing. */
  lemma {:induction false} ValueOfNothing(stocks: seq<DemoStock>)
    ensures ValueOver(stocks, map[]) == 0.0
  {
    if |stocks| > 0 {
      ValueOfNothing(stocks[..|stocks| - 1]);
    }
  }

  /** Changing the quantity held under one code by `d` changes the value by
      `d` times that code's price, whatever else is held. */
  lemma {:induction false} ValueShift(stocks: seq<DemoStock>, h: map<string, int>, h': map<string, int>, code: string, d: int)
    requires forall x :: x != code ==> Held(h', x) == Held(h, x)
    requires Held(h', code) == Held(h, code) + d
    ensures ValueOver(stocks, h') == ValueOver(stocks, h) + Line(PriceOf(stocks, code), d)
  {
    if |stocks| > 0 {
      var front := stocks[..|stocks| - 1];
      var last := stocks[|stocks| - 1];
      ValueShift(front, h, h', code, d);
      if last.code == code {
        LineAdd(last.price, Held(h, code), d);
        LineSplit(PriceOf(front, code), last.price, d);
      } else {
        assert Held(h', last.code) == Held(h, last.code);
      }
    } else {
      LineOfZero(d);
    }
  }

  /** Under distinct codes, the price listed under a stock's code is that
      stock's price. */
  lemma {:induction false} PriceOfDistinct(stocks: seq<DemoStock>, i: nat)
    requires i < |stocks|
    requires forall a, b :: 0 <= a < b < |stocks| ==> stocks[a].code != stocks[b].code
    ensures PriceOf(stocks, stocks[i].code) == stocks[i].price
  {
    var front := stocks[..|stocks| - 1];
    if i < |stocks| - 1 {
      PriceOfDistinct(front, i);
      assert stocks[|stocks| - 1].code != stocks[i].code;
    } else {
      PriceOfAbsent(front, stocks[i].code);
    }
  }

  lemma {:induction false} PriceOfAbsent(stocks: seq<DemoStock>, code: string)
    requires forall a :: 0 <= a < |stocks| ==> stocks[a].code != code
    ensures PriceOf(stocks, code) == 0.0
  {
    if |stocks| > 0 {
      PriceOfAbsent(stocks[..|stocks| - 1], code);
    }
  }

  /** The amount `q` shares of a stock cost or bring: `price·q`. */
  function Amount(s: DemoStock, q: int): real
  {
    s.price * (q as real)
  }

  /** Adding `q` shares of a demonstration stock to the holdings adds
      `q·price` to their value; this is what keeps the total worth of a trade
      unchanged, in one direction or the other. */
  lemma TradeConservesValue(i: nat, h: map<string, int>, h': map<string, int>, q: int)
    requires i < |DemoStocks|
    requires forall x :: x != DemoStocks[i].code ==> Held(h', x) == Held(h, x)
    requires Held(h', DemoStocks[i].code) == Held(h, DemoStocks[i].code) + q
    ensures PortfolioValue(h') == PortfolioValue(h) + Amount(DemoStocks[i], q)
  {
    DemoStocksWellFormed();
    ValueShift(DemoStocks, h, h', DemoStocks[i].code, q);
    PriceOfDistinct(DemoStocks, i);
    LineIsProduct(DemoStocks[i].price, q);
  }

  /** The quantity input: `Math.max(1, parseInt(value) || 1)`, where an
      unparsable input is `None`. */
  function ClampQuantity(parsed: Option<int>): (q: int)
    ensures q >= 1
    ensures parsed.Some? && parsed.value >= 1 ==> q == parsed.value
    ensures parsed.None? || parsed.value < 1 ==> q == 1
  {
    MaxInt(1, if parsed.Some? && parsed.value != 0 then parsed.value else 1)
  }

  /** The holdings after selling `q` of a code held `q` times or more: the
      entry shrinks by `q`, and is removed when nothing is left. */
  function Sold(h: map<string, int>, code: string, q: int): (r: map<string, int>)
    requires code in h
    ensures forall x :: x != code ==> Held(r, x) == Held(h, x)
    ensures q <= h[code] ==> Held(r, code) == h[code] - q
    ensures forall x :: x in r ==> x in h && (x != code ==> r[x] == h[x])
    ensures code in r ==> r[code] == h[code] - q && r[code] > 0
  {
    var newQty := h[code] - q;
    if newQty <= 0 then h - {code} else h[code := newQty]
  }

  datatype TradeKind = Buy | Sell

  /** A trade of the history. */
  datatype Trade = Trade(kind: TradeKind, code: string, quantity: int, price: real, total: real, date: string)

  /** The simulator's state. */
  class Simulation {
    var balance: real
    var holdings: map<string, int>
    var trades: seq<Trade>
    var selected: nat
    var quantity: int

    /** The balance is never negative, the selection is a demonstration
        stock, the quantity at least 1, and every entry of the map is a
        positive quantity of a demonstration stock. */
    predicate Valid()
      reads this
    {
      balance >= 0.0 && selected < |DemoStocks| && quantity >= 1 &&
      forall c :: c in holdings ==> holdings[c] > 0 && IsDemoCode(c)
    }

    /** totalValue: the balance plus the holdings at the demonstration
        prices. */
    function Worth(): real
      reads this
    {
      balance + PortfolioValue(holdings)
    }

    /** profit, against the initial balance. */
    function Profit(): (p: real)
      reads this
      ensures p == Worth() - InitialBalance
    {
      Worth() - InitialBalance
    }

    constructor()
      ensures Valid()
      ensures balance == InitialBalance && holdings == map[] && trades == []
      ensures selected == 0 && quantity == 10
      ensures Worth() == InitialBalance && Profit() == 0.0
    {
      balance := InitialBalance;
      holdings := map[];
      trades := [];
      selected := 0;
      quantity := 10;
      ValueOfNothing(DemoStocks);
    }

    /** Picking a stock of the list. */
    method Select(i: nat)
      requires Valid() && i < |DemoStocks|
      modifies this`selected
      ensures Valid() && selected == i
    {
      selected := i;
    }

    /** The quantity input's change handler. */
    method SetQuantity(parsed: Option<int>)
      requires Valid()
      modifies this`quantity
      ensures Valid() && quantity == ClampQuantity(parsed)
    {
      quantity := ClampQuantity(parsed);
    }

    /** handleBuy: refused, with nothing changed, when the cost exceeds the
        balance; otherwise the cost leaves the balance, the quantity joins
        the holding and the trade goes first in the history. The total worth
        is unchanged either way. */
    method HandleBuy(date: string) returns (ok: bool)
      requires Valid()
      modifies this`balance, this`holdings, this`trades
      ensures Valid()
      ensures ok <==> Amount(DemoStocks[selected], quantity) <= old(balance)
      ensures !ok ==> balance == old(balance) && holdings == old(holdings) && trades == old(trades)
      ensures ok ==> balance == old(balance) - Amount(DemoStocks[selected], quantity)
      ensures ok ==> holdings == old(holdings)[DemoStocks[selected].code := Held(old(holdings), DemoStocks[selected].code) + quantity]
      ensures ok ==> trades == [Trade(Buy, DemoStocks[selected].code, quantity, DemoStocks[selected].price,
                                      Amount(DemoStocks[selected], quantity), date)] + old(trades)
      ensures Worth() == old(Worth())
    {
      var stock := DemoStocks[selected];
      var cost := Amount(stock, quantity);
      if cost > balance {
        return false;
      }
      var before := holdings;
      balance := balance - cost;
      holdings := holdings[stock.code := Held(holdings, stock.code) + quantity];
      trades := [Trade(Buy, stock.code, quantity, stock.price, cost, date)] + trades;
      TradeConservesValue(selected, before, holdings, quantity);
      return true;
    }

    /** handleSell: refused, with nothing changed, when more is sold than is
        held; otherwise the revenue joins the balance, the holding shrinks
        and is removed when nothing is left, and the trade goes first in the
        history. The total worth is unchanged either way. */
    method HandleSell(date: string) returns (ok: bool)
      requires Valid()
      modifies this`balance, this`holdings, this`trades
      ensures Valid()
      ensures ok <==> quantity <= Held(old(holdings), DemoStocks[selected].code)
      ensures !ok ==> balance == old(balance) && holdings == old(holdings) && trades == old(trades)
      ensures ok ==> balance == old(balance) + Amount(DemoStocks[selected], quantity)
      ensures ok && quantity == Held(old(holdings), DemoStocks[selected].code) ==>
        holdings == old(holdings) - {DemoStocks[selected].code}
      ensures ok && quantity < Held(old(holdings), DemoStocks[selected].code) ==>
        holdings == old(holdings)[DemoStocks[selected].code := Held(old(holdings), DemoStocks[selected].code) - quantity]
      ensures ok ==> trades == [Trade(Sell, DemoStocks[selected].code, quantity, DemoStocks[selected].price,
                                      Amount(DemoStocks[selected], quantity), date)] + old(trades)
      ensures Worth() == old(Worth())
    {
      var stock := DemoStocks[selected];
      var held := Held(holdings, stock.code);
      if quantity > held {
        return false;
      }
      var before := holdings;
      var revenue := Amount(stock, quantity);
      balance := balance + revenue;
      holdings := Sold(holdings, stock.code, quantity);
      trades := [Trade(Sell, stock.code, quantity, stock.price, revenue, date)] + trades;
      TradeConservesValue(selected, holdings, before, quantity);
      return true;
    }

    /** handleReset: a confirmed reset restores the initial balance and
        empties the holdings and the history. */
    method HandleReset(confirmed: bool)
      requires Valid()
      modifies this`balance, this`holdings, this`trades
      ensures Valid()
      ensures confirmed ==> balance == InitialBalance && holdings == map[] && trades == [] && Worth() == InitialBalance
      ensures !confirmed ==> balance == old(balance) && holdings == old(holdings) && trades == old(trades)
    {
      if confirmed {
        balance := InitialBalance;
        holdings := map[];
        trades := [];
        ValueOfNothing(DemoStocks);
      }
    }
  }

  // ---------------------------------------------------------------------
  // The demonstration chart

  /** A day of the demonstration chart. */
  datatype ChartCandle = ChartCandle(date: string, open: real, high: real, low: real, close: real, volume: int)

  /** One day's move of the chart price: `(r − 0.5)·0.02` of itself, never
      below 0.7·base. */
  function ChartStep(current: real, r: real, base: real): (p: real)
    ensures p >= 0.7 * base
  {
    Max(current + (r - 0.5) * 0.02 * current, base * 0.7)
  }

  /** The chart's price after `n` days: it starts at 0.9·base and takes a
      step a day on the first of the day's four draws. */
  function ChartPrice(base: real, rand: seq<real>, n: nat): (p: real)
    requires 4 * n <= |rand|
    ensures base >= 0.0 ==> p >= 0.0
    ensures n > 0 ==> p >= 0.7 * base
  {
    if n == 0 then 0.9 * base
    else ChartStep(ChartPrice(base, rand, n - 1), rand[4 * (n - 1)], base)
  }

  /** `x·(1 + r·0.01)`: at least `x` for a non-negative `x`. */
  function Stretched(x: real, r: real): (y: real)
    requires 0.0 <= r < 1.0
    ensures x >= 0.0 ==> y >= x
  {
    assert x >= 0.0 ==> x * r >= 0.0;
    x * (1.0 + r * 0.01)
  }

  /** `x·(1 − r·0.01)`: between 0 and `x` for a non-negative `x`. */
  function Shrunk(x: real, r: real): (y: real)
    requires 0.0 <= r < 1.0
    ensures x >= 0.0 ==> 0.0 <= y <= x
  {
    assert x >= 0.0 ==> x * r >= 0.0 && x * r <= x;
    x * (1.0 - r * 0.01)
  }

  /** `Math.floor(r * 50000) + 10000`. */
  function ChartVolume(r: real): (v: int)
    requires 0.0 <= r < 1.0
    ensures 10000 <= v <= 59999
  {
    (r * 50000.0).Floor + 10000
  }

  /** The k-th day: it opens at the previous price and closes at the new
      one; the high and low stretch the range by up to 1 % (the second and
      third draws) and the volume comes from the fourth. */
  function ChartCandleOf(base: real, rand: seq<real>, k: nat, date: string): (c: ChartCandle)
    requires 4 * (k + 1) <= |rand| && StockData.Draws(rand)
    ensures c.open == ChartPrice(base, rand, k) && c.close == ChartPrice(base, rand, k + 1)
    ensures base >= 0.0 ==> c.high >= Max(c.open, c.close) && 0.0 <= c.low <= Min(c.open, c.close)
    ensures 10000 <= c.volume <= 59999
  {
    var open := ChartPrice(base, rand, k);
    var close := ChartPrice(base, rand, k + 1);
    ChartCandle(date, open, Stretched(Max(open, close), rand[4 * k + 1]),
                Shrunk(Min(open, close), rand[4 * k + 2]), close, ChartVolume(rand[4 * k + 3]))
  }

  /** The chart effect: 31 days, oldest first, dated 30 down to 0 days
      before now, each opening where the previous one closed. */
  method GenerateChartData(base: real, dateBefore: nat -> string, rand: seq<real>) returns (data: seq<ChartCandle>)
    requires |rand| >= 4 * 31 && StockData.Draws(rand)
    ensures |data| == 31
    ensures forall k :: 0 <= k < 31 ==> data[k] == ChartCandleOf(base, rand, k, dateBefore(30 - k))
  {
    data := [];
    var currentPrice := base * 0.9;
    var i := 30;
    while i >= 0
      invariant -1 <= i <= 30
      invariant |data| == 30 - i
      invariant currentPrice == ChartPrice(base, rand, 30 - i)
      invariant forall k :: 0 <= k < 30 - i ==> data[k] == ChartCandleOf(base, rand, k, dateBefore(30 - k))
      decreases i + 1
    {
      var n := 30 - i;
      var open := currentPrice;
      currentPrice := ChartStep(currentPrice, rand[4 * n], base);
      var close := currentPrice;
      var high := Stretched(Max(open, close), rand[4 * n + 1]);
      var low := Shrunk(Min(open, close), rand[4 * n + 2]);
      var volume := ChartVolume(rand[4 * n + 3]);
      assert ChartCandle(dateBefore(i), open, high, low, close, volume) == ChartCandleOf(base, rand, n, dateBefore(30 - n));
      data := data + [ChartCandle(dateBefore(i), open, high, low, close, volume)];
      i := i - 1;
    }
  }

  /** Consecutive days of the chart join up: each opens at the previous
      close. */
  lemma ChartJoins(base: real, dateBefore: nat -> string, rand: seq<real>, k: nat)
    requires |rand| >= 4 * 31 && StockData.Draws(rand) && k < 30
    ensures ChartCandleOf(base, rand, k + 1, dateBefore(29 - k)).open == ChartCandleOf(base, rand, k, dateBefore(30 - k)).close
  {
  }
}
