// The market page of the investor view: the top gainers and losers of the
// day, the stock table filtered by a search query and a sector, and the
// list of sectors offered by the filter.

module MarketPage {
  import opened Common
  import opened Text
  import opened Sorting
  import opened StockData

  /** The key the movers are ranked by. */
  function ChangePercent(s: StockView): real
  {
    s.changePercent
  }

  /** A copy of the stocks sorted by change percentage, largest first; the
      stocks list itself is left as it is. */
  function Ranked(stocks: seq<StockView>): (r: seq<StockView>)
    ensures |r| == |stocks| && multiset(r) == multiset(stocks)
    ensures NonIncreasing(r, ChangePercent)
  {
    SortDescPermutation(stocks, ChangePercent);
    SortDescSorted(stocks, ChangePercent);
    SortDesc(stocks, ChangePercent)
  }

  /** topGainers: the first five of the ranking. */
  function TopGainers(stocks: seq<StockView>): (r: seq<StockView>)
    ensures |r| == MinInt(|stocks|, 5)
    ensures NonIncreasing(r, ChangePercent)
  {
    SortedPrefix(Ranked(stocks), ChangePercent, 5);
    Take(Ranked(stocks), 5)
  }

  /** topLosers: the last five of the ranking, the weakest first. */
  function TopLosers(stocks: seq<StockView>): (r: seq<StockView>)
    ensures |r| == MinInt(|stocks|, 5)
    ensures forall i :: 0 <= i < |r| ==> r[i] == Ranked(stocks)[|stocks| - 1 - i]
    ensures forall i, j :: 0 <= i < j < |r| ==> r[i].changePercent <= r[j].changePercent
  {
    var s := Ranked(stocks);
    SortedEnds(s, ChangePercent, 5);
    ReversedTail(s, 5);
    Reverse(Last(s, 5))
  }

  /** Every stock is among the gainers or moved no more than any of them;
      every gainer is one of the stocks. */
  lemma GainersLeadTheRest(stocks: seq<StockView>)
    ensures forall g :: g in TopGainers(stocks) ==> g in stocks
    ensures forall x :: x in stocks ==>
      x in TopGainers(stocks) || forall g :: g in TopGainers(stocks) ==> g.changePercent >= x.changePercent
  {
    var s := Ranked(stocks);
    var top := TopGainers(stocks);
    assert multiset(s) == multiset(stocks);
    forall g | g in top ensures g in stocks {
      assert g in multiset(s);
    }
    forall x | x in stocks
      ensures x in top || forall g :: g in top ==> g.changePercent >= x.changePercent
    {
      assert x in multiset(s);
      var k :| 0 <= k < |s| && s[k] == x;
      if k < |top| {
        assert top[k] == x;
      } else {
        TopAndBottom(s, ChangePercent, 5);
        forall g | g in top ensures g.changePercent >= x.changePercent {
          var i :| 0 <= i < |top| && top[i] == g;
          assert s[i] == g;
        }
      }
    }
  }

  /** In a ranking whose reversed tail is `bottom`, a stock ranked above
      that tail moved no less than any stock in it. */
  lemma AboveTail<T>(s: seq<T>, bottom: seq<T>, key: T -> real, k: nat)
    requires |bottom| <= |s| && k < |s| - |bottom|
    requires forall i :: 0 <= i < |bottom| ==> bottom[i] == s[|s| - 1 - i]
    requires NonIncreasing(s, key)
    ensures forall l :: l in bottom ==> key(l) <= key(s[k])
  {
    forall l | l in bottom ensures key(l) <= key(s[k]) {
      var i :| 0 <= i < |bottom| && bottom[i] == l;
      assert k < |s| - 1 - i;
    }
  }

  /** Every stock is among the losers or moved no less than any of them;
      every loser is one of the stocks. */
  lemma LosersTrailTheRest(stocks: seq<StockView>)
    ensures forall l :: l in TopLosers(stocks) ==> l in stocks
    ensures forall x :: x in stocks ==>
      x in TopLosers(stocks) || forall l :: l in TopLosers(stocks) ==> l.changePercent <= x.changePercent
  {
    var s := Ranked(stocks);
    var bottom := TopLosers(stocks);
    assert multiset(s) == multiset(stocks);
    forall l | l in bottom ensures l in stocks {
      var i :| 0 <= i < |bottom| && bottom[i] == l;
      assert l in multiset(s);
    }
    forall x | x in stocks
      ensures x in bottom || forall l :: l in bottom ==> l.changePercent <= x.changePercent
    {
      assert x in multiset(s);
      var k :| 0 <= k < |s| && s[k] == x;
      if k >= |s| - |bottom| {
        assert bottom[|s| - 1 - k] == x;
      } else {
        AboveTail(s, bottom, ChangePercent, k);
      }
    }
  }

  /** matchesSearch: the symbol or the name contains the query, both
      lower-cased. */
  predicate MatchesSearch(stock: StockView, query: string)
  {
    IncludesFolded(stock.symbol, query) || IncludesFolded(stock.name, query)
  }

  /** A row is shown when it matches the search and the sector filter is
      'all' or its own sector. */
  predicate Shown(stock: StockView, query: string, sector: string)
  {
    MatchesSearch(stock, query) && (sector == "all" || stock.sector == sector)
  }

  /** filteredStocks: the shown stocks, in the list's order. */
  function FilteredStocks(stocks: seq<StockView>, query: string, sector: string): (r: seq<StockView>)
    ensures forall x :: x in r <==> x in stocks && Shown(x, query, sector)
    ensures |r| <= |stocks|
  {
    Filter(stocks, (x: StockView) => Shown(x, query, sector))
  }

  /** With an empty query and the 'all' sector every stock is shown, in
      order. */
  lemma EverythingShown(stocks: seq<StockView>)
    ensures FilteredStocks(stocks, "", "all") == stocks
  {
    forall i | 0 <= i < |stocks| ensures Shown(stocks[i], "", "all") {
      IncludesEmpty(stocks[i].symbol);
    }
    FilterAll(stocks, (x: StockView) => Shown(x, "", "all"));
  }

  /** The table keeps the list's order: it is a subsequence of the stocks. */
  lemma FilteredInOrder(stocks: seq<StockView>, query: string, sector: string)
    ensures IsSubsequence(FilteredStocks(stocks, query, sector), stocks)
  {
    FilterIsSubsequence(stocks, (x: StockView) => Shown(x, query, sector));
  }

  /** The position of the first occurrence of `x`. */
  function IndexOf(s: seq<string>, x: string): (k: nat)
    requires x in s
    ensures k < |s| && s[k] == x
    ensures forall j :: 0 <= j < k ==> s[j] != x
  {
    if s[0] == x then 0 else 1 + IndexOf(s[1..], x)
  }

  /** `new Set(s)` read back as a list: each value once, where it first
      occurs. */
  function Distinct(s: seq<string>): (r: seq<string>)
    ensures forall x :: x in r <==> x in s
    ensures forall i, j :: 0 <= i < j < |r| ==> r[i] != r[j]
  {
    if |s| == 0 then []
    else
      var d := Distinct(s[..|s| - 1]);
      assert forall x :: x in s <==> x in s[..|s| - 1] || x == s[|s| - 1] by {
        assert s == s[..|s| - 1] + [s[|s| - 1]];
      }
      if s[|s| - 1] in d then d else d + [s[|s| - 1]]
  }

  /** The first occurrence of a value of a prefix is its first occurrence
      in the whole sequence. */
  lemma IndexOfPrefix(s: seq<string>, n: nat, x: string)
    requires n <= |s| && x in s[..n]
    ensures IndexOf(s, x) == IndexOf(s[..n], x)
  {
    var k := IndexOf(s[..n], x);
    assert s[k] == x;
    assert IndexOf(s, x) <= k;
  }

  /** The distinct values come in the order of their first occurrences. */
  lemma {:induction false} DistinctInFirstOrder(s: seq<string>)
    ensures forall i, j :: 0 <= i < j < |Distinct(s)| ==>
      IndexOf(s, Distinct(s)[i]) < IndexOf(s, Distinct(s)[j])
  {
    if |s| > 0 {
      var p := s[..|s| - 1];
      var d := Distinct(p);
      var r := Distinct(s);
      DistinctInFirstOrder(p);
      forall i, j | 0 <= i < j < |r| ensures IndexOf(s, r[i]) < IndexOf(s, r[j]) {
        IndexOfPrefix(s, |s| - 1, r[i]);
        if j < |d| {
          IndexOfPrefix(s, |s| - 1, r[j]);
        } else {
          assert r[j] == s[|s| - 1] && r[j] !in p;
          assert IndexOf(s, r[j]) == |s| - 1;
        }
      }
    }
  }

  /** sectors: 'all' followed by each sector once, in first-occurrence
      order. */
  function Sectors(stocks: seq<StockView>): (r: seq<string>)
    ensures |r| >= 1 && r[0] == "all"
    ensures forall x :: x in r[1..] <==> exists i :: 0 <= i < |stocks| && stocks[i].sector == x
    ensures forall i, j :: 1 <= i < j < |r| ==> r[i] != r[j]
  {
    var all := seq(|stocks|, i requires 0 <= i < |stocks| => stocks[i].sector);
    assert forall x :: x in all <==> exists i :: 0 <= i < |stocks| && stocks[i].sector == x by {
      forall x | x in all ensures exists i :: 0 <= i < |stocks| && stocks[i].sector == x {
        var i :| 0 <= i < |all| && all[i] == x;
      }
      forall x | exists i :: 0 <= i < |stocks| && stocks[i].sector == x ensures x in all {
        var i :| 0 <= i < |stocks| && stocks[i].sector == x;
        assert all[i] == x;
      }
    }
    ["all"] + Distinct(all)
  }

  /** isPositive: the row's change is not negative; it picks the up or down
      sparkline. */
  function RowTrend(stock: StockView): (trend: string)
    ensures trend == "up" <==> stock.change >= 0.0
    ensures trend == "down" <==> stock.change < 0.0
  {
    if stock.change >= 0.0 then "up" else "down"
  }
}
