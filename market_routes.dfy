/** The market endpoints: the latest close and day change of every stock
    that has prices, the TUNINDEX overview derived from them, and the top
    movers. */
module MarketRoutes {
  import opened Common
  import opened Sorting
  import S = StockRoutes

  datatype PriceInfo = PriceInfo(close: real, changePct: real)

  /** One `code: info` entry of the result dictionary, in insertion order. */
  datatype Entry = Entry(code: string, info: PriceInfo)

  function Codes(es: seq<Entry>): (r: seq<string>)
    ensures |r| == |es| && forall i :: 0 <= i < |es| ==> r[i] == es[i].code
  {
    seq(|es|, i requires 0 <= i < |es| => es[i].code)
  }

  function ChangeOf(e: Entry): real
  {
    e.info.changePct
  }

  function Changes(es: seq<Entry>): (r: seq<real>)
    ensures |r| == |es| && forall i :: 0 <= i < |es| ==> r[i] == es[i].info.changePct
  {
    seq(|es|, i requires 0 <= i < |es| => es[i].info.changePct)
  }

  /** Dictionary assignment: a known key keeps its place and takes the new
      value, a new key goes last. */
  function Put(es: seq<Entry>, code: string, info: PriceInfo): (r: seq<Entry>)
    ensures code in Codes(es) ==> |r| == |es|
    ensures code !in Codes(es) ==> r == es + [Entry(code, info)]
    ensures forall i :: 0 <= i < |r| ==> r[i] == (if i < |es| && es[i].code != code then es[i] else Entry(code, info))
  {
    if code in Codes(es) then
      seq(|es|, i requires 0 <= i < |es| => if es[i].code == code then Entry(code, info) else es[i])
    else es + [Entry(code, info)]
  }

  /** The entry for one stock from its latest rows, newest first (the query
      orders by date descending and keeps two). */
  function InfoFor(latest: seq<S.PriceRow>): (r: Option<PriceInfo>)
    ensures r.None? <==> |latest| == 0
    ensures r.Some? ==> r.value.close == latest[0].close
    ensures r.Some? && |latest| == 1 ==> r.value.changePct == 0.0
    ensures r.Some? && |latest| > 1 && latest[1].close != 0.0 ==>
      r.value.changePct == (latest[0].close - latest[1].close) / latest[1].close * 100.0
  {
    if |latest| == 0 then None
    else
      var previous := if |latest| > 1 then Some(latest[1].close) else None;
      Some(PriceInfo(latest[0].close, S.ChangePct(latest[0].close, previous)))
  }

  /** The dictionary _latest_prices builds from the first `n` stocks. */
  function LatestPricesOf(stocks: seq<S.Stock>, latestOf: Option<nat> -> seq<S.PriceRow>): seq<Entry>
  {
    if |stocks| == 0 then []
    else
      var front := LatestPricesOf(stocks[..|stocks| - 1], latestOf);
      var s := stocks[|stocks| - 1];
      match InfoFor(latestOf(s.id))
      case None => front
      case Some(info) => Put(front, s.code, info)
  }

  /** _latest_prices. */
  method LatestPrices(stocks: seq<S.Stock>, latestOf: Option<nat> -> seq<S.PriceRow>) returns (results: seq<Entry>)
    ensures results == LatestPricesOf(stocks, latestOf)
  {
    results := [];
    for i := 0 to |stocks|
      invariant results == LatestPricesOf(stocks[..i], latestOf)
    {
      assert stocks[..i + 1][..i] == stocks[..i];
      var latest := latestOf(stocks[i].id);
      if |latest| == 0 {
        continue;
      }
      var info := InfoFor(latest).value;
      results := Put(results, stocks[i].code, info);
    }
    assert stocks[..|stocks|] == stocks;
  }

  /** The dictionary has one key per code of a stock that has prices, and
      no other. */
  lemma {:induction false} LatestPricesKeys(stocks: seq<S.Stock>, latestOf: Option<nat> -> seq<S.PriceRow>, code: string)
    ensures code in Codes(LatestPricesOf(stocks, latestOf)) <==>
      exists i :: 0 <= i < |stocks| && stocks[i].code == code && |latestOf(stocks[i].id)| > 0
    ensures forall i, j :: 0 <= i < j < |LatestPricesOf(stocks, latestOf)| ==>
      LatestPricesOf(stocks, latestOf)[i].code != LatestPricesOf(stocks, latestOf)[j].code
  {
    if |stocks| > 0 {
      var front := stocks[..|stocks| - 1];
      LatestPricesKeys(front, latestOf, code);
      var s := stocks[|stocks| - 1];
      var f := LatestPricesOf(front, latestOf);
      if (exists i :: 0 <= i < |front| && front[i].code == code && |latestOf(front[i].id)| > 0) {
        var i :| 0 <= i < |front| && front[i].code == code && |latestOf(front[i].id)| > 0;
        assert stocks[i] == front[i];
      }
      if (exists i :: 0 <= i < |stocks| && stocks[i].code == code && |latestOf(stocks[i].id)| > 0) {
        var i :| 0 <= i < |stocks| && stocks[i].code == code && |latestOf(stocks[i].id)| > 0;
        if i < |stocks| - 1 {
          assert front[i] == stocks[i];
        }
      }
      if |latestOf(s.id)| > 0 {
        var info := InfoFor(latestOf(s.id)).value;
        var r := Put(f, s.code, info);
        assert Codes(r) == Codes(f) || Codes(r) == Codes(f) + [s.code];
        forall i, j | 0 <= i < j < |r| ensures r[i].code != r[j].code {
          if j >= |f| {
            assert r[j].code == s.code;
            assert s.code !in Codes(f);
            assert r[i] == f[i];
            assert f[i].code == Codes(f)[i];
          }
        }
      }
    }
  }

  datatype Overview = Overview(indexName: string, value: real, changePct: real,
                               topGainers: seq<string>, topLosers: seq<string>)

  /** market_overview: zeros and empty lists without prices; otherwise the
      mean change, the index at 9000 plus ten times it, and the codes of the
      five largest and the five smallest changes (smallest first). */
  function MarketOverview(prices: seq<Entry>): (r: Overview)
    ensures r.indexName == "TUNINDEX"
    ensures |prices| == 0 ==> r == Overview("TUNINDEX", 0.0, 0.0, [], [])
    ensures |prices| > 0 ==> r.changePct == Mean(Changes(prices)) && r.value == 9000.0 + r.changePct * 10.0
    ensures |r.topGainers| == MinInt(|prices|, 5) && |r.topLosers| == MinInt(|prices|, 5)
  {
    if |prices| == 0 then Overview("TUNINDEX", 0.0, 0.0, [], [])
    else
      var change := Sum(Changes(prices)) / (|prices| as real);
      var sorted := SortDesc(prices, ChangeOf);
      Overview("TUNINDEX", 9000.0 + change * 10.0, change,
               Codes(Take(sorted, 5)), Reverse(Codes(Last(sorted, 5))))
  }

  datatype Movers = Movers(gainers: seq<Entry>, losers: seq<Entry>)

  /** top_movers: the entries of the five largest changes, largest first,
      and of the five smallest, smallest first. */
  function TopMovers(prices: seq<Entry>): (r: Movers)
    ensures |r.gainers| == MinInt(|prices|, 5) && |r.losers| == MinInt(|prices|, 5)
  {
    var sorted := SortDesc(prices, ChangeOf);
    Movers(Take(sorted, 5), Reverse(Last(sorted, 5)))
  }

  /** The movers are entries of the dictionary. */
  lemma MoversAreEntries(prices: seq<Entry>)
    ensures forall e :: e in TopMovers(prices).gainers ==> e in prices
    ensures forall e :: e in TopMovers(prices).losers ==> e in prices
  {
    SortDescMembers(prices, ChangeOf);
  }

  /** The movers are the ends of the sorted entries. */
  lemma MoversAreEnds(prices: seq<Entry>)
    ensures TopMovers(prices).gainers == SortDesc(prices, ChangeOf)[..MinInt(|prices|, 5)]
    ensures TopMovers(prices).losers ==
      Reverse(SortDesc(prices, ChangeOf)[|prices| - MinInt(|prices|, 5)..])
  {
  }

  /** Every gainer moved at least as much as every entry that is not a
      gainer, and every loser at most as much as every entry that is not a
      loser. */
  lemma MoversAreExtreme(prices: seq<Entry>)
    ensures forall i, j :: 0 <= i < MinInt(|prices|, 5) <= j < |prices| ==>
      ChangeOf(SortDesc(prices, ChangeOf)[i]) >= ChangeOf(SortDesc(prices, ChangeOf)[j])
    ensures forall i, j :: 0 <= i < |prices| - MinInt(|prices|, 5) <= j < |prices| ==>
      ChangeOf(SortDesc(prices, ChangeOf)[i]) >= ChangeOf(SortDesc(prices, ChangeOf)[j])
  {
    SortDescSorted(prices, ChangeOf);
    TopAndBottom(SortDesc(prices, ChangeOf), ChangeOf, 5);
  }

  /** Gainers come in non-increasing and losers in non-decreasing order of
      change. */
  lemma MoversOrdered(prices: seq<Entry>)
    ensures forall i, j :: 0 <= i < j < |TopMovers(prices).gainers| ==>
      TopMovers(prices).gainers[i].info.changePct >= TopMovers(prices).gainers[j].info.changePct
    ensures forall i, j :: 0 <= i < j < |TopMovers(prices).losers| ==>
      TopMovers(prices).losers[i].info.changePct <= TopMovers(prices).losers[j].info.changePct
  {
    SortDescSorted(prices, ChangeOf);
    SortedPrefix(SortDesc(prices, ChangeOf), ChangeOf, 5);
    SortedEnds(SortDesc(prices, ChangeOf), ChangeOf, 5);
  }

  /** The overview's lists are the codes of the top movers. */
  lemma OverviewMatchesMovers(prices: seq<Entry>)
    ensures MarketOverview(prices).topGainers == Codes(TopMovers(prices).gainers)
    ensures MarketOverview(prices).topLosers == Codes(TopMovers(prices).losers)
  {
  }

  /** When every stock moved within [lo, hi], so did the index. */
  lemma OverviewBounds(prices: seq<Entry>, lo: real, hi: real)
    requires |prices| > 0
    requires forall i :: 0 <= i < |prices| ==> lo <= prices[i].info.changePct <= hi
    ensures lo <= MarketOverview(prices).changePct <= hi
    ensures 9000.0 + lo * 10.0 <= MarketOverview(prices).value <= 9000.0 + hi * 10.0
  {
    MeanBounds(Changes(prices), lo, hi);
  }
}
