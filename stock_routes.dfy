/** The stock endpoints: the quote of each listed stock (latest price and
    day change), the lookup that answers 404 for an unknown code, and the
    rolling statistics the anomaly check is fed with. Query results are
    inputs, already in ascending date order. */
module StockRoutes {
  import opened Common
  import MlAnomaly

  datatype Stock = Stock(id: Option<nat>, code: string, name: string, groupe: string)

  datatype PriceRow = PriceRow(
    date: string, open: real, high: real, low: real, close: real,
    volume: real, transactions: Option<real>)

  datatype HttpError = HttpError(status: nat, detail: string)

  /** What list_stocks and stock_detail report for one stock. */
  datatype Quote = Quote(
    code: string, name: string, groupe: string,
    latestPrice: Option<real>, changePct: real, lastDate: Option<string>)

  /** The first stock with the code, or 404. */
  function GetStock(stocks: seq<Stock>, code: string): (r: Result<Stock, HttpError>)
    ensures r.Ok? <==> exists i :: 0 <= i < |stocks| && stocks[i].code == code
    ensures r.Ok? ==> r.value.code == code && r.value in stocks
    ensures r.Ok? ==> exists i :: (0 <= i < |stocks| && stocks[i] == r.value &&
                                   forall j :: 0 <= j < i ==> stocks[j].code != code)
    ensures r.Err? ==> r.error == HttpError(404, "Stock not found")
  {
    if |stocks| == 0 then Err(HttpError(404, "Stock not found"))
    else if stocks[0].code == code then Ok(stocks[0])
    else
      var r := GetStock(stocks[1..], code);
      assert forall i :: 1 <= i < |stocks| ==> stocks[i] == stocks[1..][i - 1];
      assert r.Ok? ==> exists i :: (0 <= i < |stocks| && stocks[i] == r.value &&
                                    forall j :: 0 <= j < i ==> stocks[j].code != code) by {
        if r.Ok? {
          var k :| 0 <= k < |stocks[1..]| && stocks[1..][k] == r.value &&
                   forall j :: 0 <= j < k ==> stocks[1..][j].code != code;
          assert stocks[k + 1] == r.value;
          assert forall j :: 0 <= j < k + 1 ==> stocks[j].code != code by {
            forall j | 0 <= j < k + 1 ensures stocks[j].code != code {
              if j > 0 {
                assert stocks[j] == stocks[1..][j - 1];
              }
            }
          }
        }
      }
      r
  }

  /** The id the price rows are looked up by (0 for a stock without one). */
  function StockId(s: Stock): nat
  {
    s.id.GetOr(0)
  }

  /** _latest_price: the last two rows, oldest first. */
  function LatestPrice(rows: seq<PriceRow>): (r: seq<PriceRow>)
    ensures |r| == MinInt(|rows|, 2) && r == rows[|rows| - |r|..]
  {
    Last(rows, 2)
  }

  /** The change of `current` against `previous` in percent, 0 when there
      is no previous close or it is zero. */
  function ChangePct(current: real, previous: Option<real>): real
  {
    if previous.Some? && previous.value != 0.0 then (current - previous.value) / previous.value * 100.0 else 0.0
  }

  /** The quote as list_stocks and stock_detail compute it: `current` is the
      first of the two latest rows, which is the second-newest one whenever
      there are two. */
  function QuoteAsWritten(s: Stock, rows: seq<PriceRow>): (q: Quote)
    ensures q.code == s.code && q.name == s.name && q.groupe == s.groupe
    ensures |rows| == 0 ==> q.latestPrice == None && q.lastDate == None && q.changePct == 0.0
    ensures |rows| == 1 ==> q.latestPrice == Some(rows[0].close) && q.changePct == 0.0
    ensures |rows| >= 2 ==> q.latestPrice == Some(rows[|rows| - 2].close) && q.lastDate == Some(rows[|rows| - 2].date)
    ensures |rows| >= 2 ==> q.changePct == ChangePct(rows[|rows| - 2].close, Some(rows[|rows| - 1].close))
  {
    var latest := LatestPrice(rows);
    if |latest| == 0 then Quote(s.code, s.name, s.groupe, None, 0.0, None)
    else
      var current := latest[0];
      var previous := if |latest| > 1 then Some(latest[1].close) else None;
      Quote(s.code, s.name, s.groupe, Some(current.close), ChangePct(current.close, previous), Some(current.date))
  }

  /** The quote the endpoints evidently mean: the newest close, and its
      change against the close before it. */
  function IntendedQuote(s: Stock, rows: seq<PriceRow>): (q: Quote)
    ensures q.code == s.code && q.name == s.name && q.groupe == s.groupe
    ensures |rows| == 0 ==> q.latestPrice == None && q.lastDate == None && q.changePct == 0.0
    ensures |rows| >= 1 ==> q.latestPrice == Some(rows[|rows| - 1].close) && q.lastDate == Some(rows[|rows| - 1].date)
    ensures |rows| <= 1 ==> q.changePct == 0.0
  {
    var latest := LatestPrice(rows);
    if |latest| == 0 then Quote(s.code, s.name, s.groupe, None, 0.0, None)
    else
      var current := latest[|latest| - 1];
      var previous := if |latest| > 1 then Some(latest[0].close) else None;
      Quote(s.code, s.name, s.groupe, Some(current.close), ChangePct(current.close, previous), Some(current.date))
  }

  /** The intended quote rises exactly when the newest close is above the
      one before it (for a positive previous close). */
  lemma QuoteChangeSign(s: Stock, rows: seq<PriceRow>)
    requires |rows| >= 2 && rows[|rows| - 2].close > 0.0
    ensures IntendedQuote(s, rows).changePct > 0.0 <==> rows[|rows| - 1].close > rows[|rows| - 2].close
    ensures IntendedQuote(s, rows).changePct < 0.0 <==> rows[|rows| - 1].close < rows[|rows| - 2].close
  {
    var prev := rows[|rows| - 2].close;
    var cur := rows[|rows| - 1].close;
    assert IntendedQuote(s, rows).changePct == (cur - prev) / prev * 100.0;
    ChangeSign(cur - prev, prev);
  }

  lemma ChangeSign(d: real, prev: real)
    requires prev > 0.0
    ensures d / prev * 100.0 > 0.0 <==> d > 0.0
    ensures d / prev * 100.0 < 0.0 <==> d < 0.0
  {
    if d > 0.0 {
      DivPositive(d, prev);
    } else if d < 0.0 {
      DivPositive(-d, prev);
      assert d / prev == -((-d) / prev);
    } else {
      assert d / prev == 0.0;
    }
  }

  /** As written, a stock whose close went from 10 to 11 is quoted at 10
      with a fall of about 9%. */
  lemma QuoteAsWrittenIsStale(s: Stock)
    ensures var rows := [PriceRow("2025-01-01", 10.0, 10.0, 10.0, 10.0, 0.0, None),
                         PriceRow("2025-01-02", 11.0, 11.0, 11.0, 11.0, 0.0, None)];
      QuoteAsWritten(s, rows).latestPrice == Some(10.0) && QuoteAsWritten(s, rows).changePct < 0.0
      && IntendedQuote(s, rows).latestPrice == Some(11.0) && IntendedQuote(s, rows).changePct > 0.0
  {
    var rows := [PriceRow("2025-01-01", 10.0, 10.0, 10.0, 10.0, 0.0, None),
                 PriceRow("2025-01-02", 11.0, 11.0, 11.0, 11.0, 0.0, None)];
    assert QuoteAsWritten(s, rows).changePct == (10.0 - 11.0) / 11.0 * 100.0;
    assert IntendedQuote(s, rows).changePct == (11.0 - 10.0) / 10.0 * 100.0;
  }

  /** list_stocks: one quote per stock, in order, each from that stock's
      rows. */
  method ListStocks(stocks: seq<Stock>, rowsOf: nat -> seq<PriceRow>) returns (results: seq<Quote>)
    ensures |results| == |stocks|
    ensures forall i :: 0 <= i < |stocks| ==> results[i] == QuoteAsWritten(stocks[i], rowsOf(StockId(stocks[i])))
  {
    results := [];
    for i := 0 to |stocks|
      invariant |results| == i
      invariant forall k :: 0 <= k < i ==> results[k] == QuoteAsWritten(stocks[k], rowsOf(StockId(stocks[k])))
    {
      results := results + [QuoteAsWritten(stocks[i], rowsOf(StockId(stocks[i])))];
    }
  }

  /** stock_detail: the quote of the stock with that code, or 404. */
  function StockDetail(stocks: seq<Stock>, code: string, rowsOf: nat -> seq<PriceRow>): (r: Result<Quote, HttpError>)
    ensures r.Err? <==> forall i :: 0 <= i < |stocks| ==> stocks[i].code != code
    ensures r.Err? ==> r.error.status == 404
    ensures r.Ok? ==> r.value.code == code
  {
    match GetStock(stocks, code)
    case Err(e) => Err(e)
    case Ok(s) => Ok(QuoteAsWritten(s, rowsOf(StockId(s))))
  }

  /** The helper `mean`: 0 for an empty list. */
  function ListMean(xs: seq<real>): (m: real)
    ensures |xs| == 0 ==> m == 0.0
    ensures |xs| > 0 ==> m * (|xs| as real) == Sum(xs)
  {
    if |xs| == 0 then 0.0 else Sum(xs) / (|xs| as real)
  }

  function SquaredDeviations(xs: seq<real>, avg: real): (r: seq<real>)
    ensures |r| == |xs|
    ensures forall i :: 0 <= i < |xs| ==> r[i] == (xs[i] - avg) * (xs[i] - avg)
  {
    seq(|xs|, i requires 0 <= i < |xs| => (xs[i] - avg) * (xs[i] - avg))
  }

  /** The population variance. */
  function Variance(xs: seq<real>): real
    requires |xs| > 0
  {
    Sum(SquaredDeviations(xs, ListMean(xs))) / (|xs| as real)
  }

  /** The helper `std`: 1 for fewer than two values, otherwise the square
      root of the population variance, replaced by 1 when it is 0. The
      square root is a parameter. */
  function Std(xs: seq<real>, sqrt: real -> real): (s: real)
    ensures s != 0.0
    ensures |xs| < 2 ==> s == 1.0
    ensures |xs| >= 2 && sqrt(Variance(xs)) != 0.0 ==> s == sqrt(Variance(xs))
  {
    if |xs| < 2 then 1.0
    else
      var root := sqrt(Variance(xs));
      if root != 0.0 then root else 1.0
  }

  /** The variance is never negative. */
  lemma VarianceNonNegative(xs: seq<real>)
    requires |xs| > 0
    ensures Variance(xs) >= 0.0
  {
    var sq := SquaredDeviations(xs, ListMean(xs));
    forall i | 0 <= i < |sq| ensures sq[i] >= 0.0 {
      SquareNonNegative(xs[i] - ListMean(xs));
    }
    SumNonNegative(sq);
    DivNonNegative(Sum(sq), |xs| as real);
  }

  lemma SquareNonNegative(d: real)
    ensures d * d >= 0.0
  {
    if d < 0.0 {
      assert d * d == (-d) * (-d);
    }
  }

  /** A constant window has variance 0, so its std is reported as 1 with
      any square root that maps 0 to 0. */
  lemma ConstantStdIsOne(xs: seq<real>, c: real, sqrt: real -> real)
    requires |xs| >= 2
    requires forall i :: 0 <= i < |xs| ==> xs[i] == c
    requires sqrt(0.0) == 0.0
    ensures Std(xs, sqrt) == 1.0
  {
    ConstantSum(xs, c);
    var n := |xs| as real;
    assert ListMean(xs) * n == n * c;
    assert ListMean(xs) == c;
    var sq := SquaredDeviations(xs, c);
    SumBounds(sq, 0.0, 0.0);
    assert Sum(sq) == 0.0;
    assert Variance(xs) == 0.0 / n;
  }

  lemma {:induction false} ConstantSum(xs: seq<real>, c: real)
    requires forall i :: 0 <= i < |xs| ==> xs[i] == c
    ensures Sum(xs) == (|xs| as real) * c
  {
    if |xs| > 0 {
      ConstantSum(xs[..|xs| - 1], c);
    }
  }

  function Closes(h: seq<PriceRow>): (r: seq<real>)
    ensures |r| == |h| && forall i :: 0 <= i < |h| ==> r[i] == h[i].close
  {
    seq(|h|, i requires 0 <= i < |h| => h[i].close)
  }

  function Volumes(h: seq<PriceRow>): (r: seq<real>)
    ensures |r| == |h| && forall i :: 0 <= i < |h| ==> r[i] == h[i].volume
  {
    seq(|h|, i requires 0 <= i < |h| => h[i].volume)
  }

  /** The transaction counts, a missing one as 0. */
  function Transactions(h: seq<PriceRow>): (r: seq<real>)
    ensures |r| == |h| && forall i :: 0 <= i < |h| ==> r[i] == h[i].transactions.GetOr(0.0)
  {
    seq(|h|, i requires 0 <= i < |h| => h[i].transactions.GetOr(0.0))
  }

  /** A row's range relative to its close, 0 when the close is 0. */
  function RangeOf(p: PriceRow): real
  {
    if p.close != 0.0 then (p.high - p.low) / p.close else 0.0
  }

  function Ranges(h: seq<PriceRow>): (r: seq<real>)
    ensures |r| == |h| && forall i :: 0 <= i < |h| ==> r[i] == RangeOf(h[i])
  {
    seq(|h|, i requires 0 <= i < |h| => RangeOf(h[i]))
  }

  /** _compute_historical_stats: nothing for fewer than two rows; otherwise
      the previous close and the 20-row volume, price and transaction
      windows and the 10-row range window. */
  function HistoricalStats(h: seq<PriceRow>, sqrt: real -> real): (r: MlAnomaly.HistoricalStats)
    ensures |h| < 2 ==> r == MlAnomaly.NoHistory
    ensures |h| >= 2 ==> r.prevClose == Some(h[|h| - 2].close)
    ensures |h| >= 2 ==> r.volumeMa20 == Some(ListMean(Last(Volumes(h), 20)))
    ensures |h| >= 2 ==> r.volumeStd20 == Some(Std(Last(Volumes(h), 20), sqrt))
    ensures |h| >= 2 ==> r.priceMa20 == Some(ListMean(Last(Closes(h), 20)))
    ensures |h| >= 2 ==> r.priceStd20 == Some(Std(Last(Closes(h), 20), sqrt))
    ensures |h| >= 2 ==> r.rangeMa10 == Some(ListMean(Last(Ranges(h), 10)))
    ensures |h| >= 2 ==> r.txMa20 == Some(ListMean(Last(Transactions(h), 20)))
  {
    if |h| < 2 then MlAnomaly.NoHistory
    else
      var vol20 := Last(Volumes(h), 20);
      var price20 := Last(Closes(h), 20);
      MlAnomaly.HistoricalStats(
        Some(h[|h| - 2].close),
        Some(ListMean(vol20)), Some(Std(vol20, sqrt)),
        Some(ListMean(price20)), Some(Std(price20, sqrt)),
        Some(ListMean(Last(Ranges(h), 10))),
        Some(ListMean(Last(Transactions(h), 20))))
  }

  /** The 20-day price average lies between the lowest and highest close
      of the history. */
  lemma PriceAverageBounds(h: seq<PriceRow>, sqrt: real -> real, lo: real, hi: real)
    requires |h| >= 2
    requires forall i :: 0 <= i < |h| ==> lo <= h[i].close <= hi
    ensures lo <= HistoricalStats(h, sqrt).priceMa20.value <= hi
  {
    var w := Last(Closes(h), 20);
    var off := |h| - |w|;
    assert forall i :: 0 <= i < |w| ==> w[i] == h[off + i].close;
    MeanBounds(w, lo, hi);
  }

  /** With well-formed rows (low ≤ high, positive close) the 10-day range
      average is not negative. */
  lemma RangeAverageNonNegative(h: seq<PriceRow>, sqrt: real -> real)
    requires |h| >= 2
    requires forall i :: 0 <= i < |h| ==> h[i].low <= h[i].high && h[i].close > 0.0
    ensures HistoricalStats(h, sqrt).rangeMa10.value >= 0.0
  {
    var rg := Last(Ranges(h), 10);
    var off := |h| - |rg|;
    forall i | 0 <= i < |rg| ensures rg[i] >= 0.0 {
      RangeNonNegative(h[off + i]);
    }
    SumNonNegative(rg);
    DivNonNegative(Sum(rg), |rg| as real);
  }

  lemma RangeNonNegative(p: PriceRow)
    requires p.low <= p.high && p.close > 0.0
    ensures RangeOf(p) >= 0.0
  {
    if p.high - p.low > 0.0 {
      DivPositive(p.high - p.low, p.close);
    }
  }
}
