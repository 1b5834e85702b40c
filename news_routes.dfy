/** The news endpoints: per-stock and market-wide sentiment summaries over
    the stored articles, the text analysis with its small built-in lexicon
    for when the analyzer cannot be imported, batch ingestion that skips
    known URLs, and the bounds on the query parameters. */
module NewsRoutes {
  import opened Common
  import opened Text
  import N = NlpSentiment

  datatype HttpError = HttpError(status: nat, detail: string)

  /** A stored article with its sentiment columns. */
  datatype NewsRow = NewsRow(
    url: string, title: string, content: Option<string>, date: Option<string>,
    source: string, stockCode: Option<string>, language: string,
    sentimentScore: Option<real>, sentimentLabel: Option<string>, sentimentConfidence: Option<real>)

  /** FastAPI's `Query(default, ge=lo, le=hi)`: a value outside the bounds
      is answered with 422. */
  function Bounded(v: int, lo: int, hi: int): (r: Result<int, HttpError>)
    ensures r.Ok? <==> lo <= v <= hi
    ensures r.Ok? ==> r.value == v
    ensures r.Err? ==> r.error.status == 422
  {
    if lo <= v <= hi then Ok(v) else Err(HttpError(422, "Input should be within bounds"))
  }

  /** The bounds of each endpoint's parameters. */
  const ListLimit := (1, 100)
  const ListDays := (1, 365)
  const StockNewsLimit := (1, 50)
  const SentimentDays := (1, 30)

  /** The scores of the rows that have one, in order. */
  function Scores(items: seq<NewsRow>): (r: seq<real>)
    ensures |r| <= |items|
    ensures forall i :: 0 <= i < |items| && items[i].sentimentScore.Some? ==> items[i].sentimentScore.value in r
    ensures forall x :: x in r ==> exists i :: 0 <= i < |items| && items[i].sentimentScore == Some(x)
  {
    if |items| == 0 then []
    else
      var front := items[..|items| - 1];
      var last := items[|items| - 1];
      var r := Scores(front) + (if last.sentimentScore.Some? then [last.sentimentScore.value] else []);
      assert forall i :: 0 <= i < |front| ==> front[i] == items[i];
      r
  }

  datatype StockSummary = StockSummary(
    stockCode: string, periodDays: int, articleCount: nat,
    averageScore: real, sentiment: N.Label, confidence: real)

  /** get_stock_sentiment_summary over the rows the query returns. */
  function StockSentimentSummary(stockCode: string, days: int, items: seq<NewsRow>): (r: StockSummary)
    ensures r.stockCode == stockCode && r.periodDays == days && r.articleCount == |items|
    ensures |items| == 0 ==> r.averageScore == 0.0 && r.sentiment == N.Neutral && r.confidence == 0.0
    ensures |items| > 0 ==> r.averageScore == Mean(Scores(items)) && r.confidence == Min((|items| as real) / 5.0, 1.0)
    ensures r.sentiment == N.LabelFor(r.averageScore)
    ensures 0.0 <= r.confidence <= 1.0
  {
    if |items| == 0 then StockSummary(stockCode, days, 0, 0.0, N.Neutral, 0.0)
    else
      var avg := Mean(Scores(items));
      StockSummary(stockCode, days, |items|, avg, N.LabelFor(avg), Min((|items| as real) / 5.0, 1.0))
  }

  /** The distinct non-empty stock codes of the rows. */
  function CodesCovered(items: seq<NewsRow>): set<string>
  {
    set i | 0 <= i < |items| && items[i].stockCode.Some? && items[i].stockCode.value != "" :: items[i].stockCode.value
  }

  datatype MarketSummary = MarketSummary(
    periodDays: int, articleCount: nat, averageScore: real, mood: N.Mood, stocksCovered: nat)

  /** get_market_sentiment over the rows the query returns. */
  function MarketSentiment(days: int, items: seq<NewsRow>): (r: MarketSummary)
    ensures r.periodDays == days && r.articleCount == |items|
    ensures |items| == 0 ==> r.averageScore == 0.0 && r.mood == N.Calm && r.stocksCovered == 0
    ensures |items| > 0 ==> r.averageScore == Mean(Scores(items)) && r.stocksCovered == |CodesCovered(items)|
    ensures r.mood == N.MoodFor(r.averageScore)
  {
    if |items| == 0 then MarketSummary(days, 0, 0.0, N.Calm, 0)
    else
      var avg := Mean(Scores(items));
      MarketSummary(days, |items|, avg, N.MoodFor(avg), |CodesCovered(items)|)
  }

  /** No more stocks are covered than there are articles. */
  lemma {:induction false} CodesCoveredBound(items: seq<NewsRow>)
    ensures |CodesCovered(items)| <= |items|
  {
    if |items| > 0 {
      var front := items[..|items| - 1];
      CodesCoveredBound(front);
      var last := items[|items| - 1];
      var extra: set<string> := if last.stockCode.Some? && last.stockCode.value != "" then {last.stockCode.value} else {};
      assert CodesCovered(items) <= CodesCovered(front) + extra by {
        forall c | c in CodesCovered(items) ensures c in CodesCovered(front) + extra {
          var i :| 0 <= i < |items| && items[i].stockCode.Some? && items[i].stockCode.value != "" && items[i].stockCode.value == c;
          if i < |items| - 1 {
            assert items[i] == front[i];
          }
        }
      }
      SubsetCard(CodesCovered(items), CodesCovered(front) + extra);
    }
  }

  lemma SubsetCard<T>(a: set<T>, b: set<T>)
    requires a <= b
    ensures |a| <= |b|
  {
    assert b == a + (b - a);
  }

  /** Both summaries report a score between the lowest and the highest
      stored score. */
  lemma SummaryBounds(stockCode: string, days: int, items: seq<NewsRow>, lo: real, hi: real)
    requires forall i :: 0 <= i < |items| ==> items[i].sentimentScore.Some? && lo <= items[i].sentimentScore.value <= hi
    requires |items| > 0
    ensures lo <= StockSentimentSummary(stockCode, days, items).averageScore <= hi
    ensures lo <= MarketSentiment(days, items).averageScore <= hi
  {
    var s := Scores(items);
    assert items[0].sentimentScore.value in s;
    forall k | 0 <= k < |s| ensures lo <= s[k] <= hi {
      var i :| 0 <= i < |items| && items[i].sentimentScore == Some(s[k]);
    }
    MeanBounds(s, lo, hi);
  }

  /** The lexicon used when the analyzer cannot be imported. */
  const FallbackPositive: set<string> := {"hausse", "croissance", "profit", "benefice", "succes", "gain"}
  const FallbackNegative: set<string> := {"baisse", "chute", "perte", "crise", "deficit", "risque"}

  /** The fallback scoring: distinct lexicon words found in the lower-cased
      text; 0.3-confidence neutral when none is found. */
  function FallbackAnalyze(text: string): (r: N.Analysis)
    ensures r.language == None && r.rawLabel == None && r.matched == None
    ensures r.polarity == N.LabelFor(r.score) && -1.0 <= r.score <= 1.0
    ensures |N.MatchesIn(FallbackPositive, Lower(text))| + |N.MatchesIn(FallbackNegative, Lower(text))| == 0 ==>
      r.score == 0.0 && r.confidence == 0.3
    ensures |N.MatchesIn(FallbackPositive, Lower(text))| + |N.MatchesIn(FallbackNegative, Lower(text))| > 0 ==>
      r.confidence == Min(((|N.MatchesIn(FallbackPositive, Lower(text))| + |N.MatchesIn(FallbackNegative, Lower(text))|) as real) / 5.0, 1.0)
      && (r.score > 0.0 <==> |N.MatchesIn(FallbackPositive, Lower(text))| > |N.MatchesIn(FallbackNegative, Lower(text))|)
      && r.score == N.LexiconScore(|N.MatchesIn(FallbackPositive, Lower(text))|, |N.MatchesIn(FallbackNegative, Lower(text))|)
  {
    var pos := |N.MatchesIn(FallbackPositive, Lower(text))|;
    var neg := |N.MatchesIn(FallbackNegative, Lower(text))|;
    if pos + neg == 0 then N.Analysis(0.0, N.Neutral, 0.3, None, None, None)
    else
      var score := N.LexiconScore(pos, neg);
      N.Analysis(score, N.LabelFor(score), Min(((pos + neg) as real) / 5.0, 1.0), None, None, None)
  }

  /** The fallback finds at most six words of each polarity, so its
      confidence never exceeds 1 and it needs five words to reach it. */
  lemma FallbackConfidence(text: string)
    ensures 0.2 <= FallbackAnalyze(text).confidence <= 1.0
  {
    var pos := |N.MatchesIn(FallbackPositive, Lower(text))|;
    var neg := |N.MatchesIn(FallbackNegative, Lower(text))|;
    if pos + neg > 0 {
      assert ((pos + neg) as real) / 5.0 >= 0.2;
    }
  }

  /** analyze_text. `analyzed` is the analyzer's result for the text, or
      None when the analyzer cannot be imported. */
  function AnalyzeText(text: string, analyzed: Option<N.Analysis>): (r: Result<N.Analysis, HttpError>)
    ensures |text| < 10 ==> r.Err? && r.error.status == 422
    ensures |text| >= 10 && analyzed.Some? ==> r == Ok(analyzed.value)
    ensures |text| >= 10 && analyzed.None? ==> r == Ok(FallbackAnalyze(text))
  {
    if |text| < 10 then Err(HttpError(422, "String should have at least 10 characters"))
    else if analyzed.Some? then Ok(analyzed.value)
    else Ok(FallbackAnalyze(text))
  }

  /** An article as posted to the batch endpoint. */
  datatype NewsCreate = NewsCreate(
    url: string, title: string, content: Option<string>, date: Option<string>,
    source: string, stockCode: Option<string>, language: string)

  /** The analyzer, if it could be imported: text and language to result. */
  type Analyzer = Option<(string, string) -> N.Analysis>

  /** The text the analyzer sees: the title, a space and the content. */
  function ArticleText(a: NewsCreate): string
  {
    a.title + " " + a.content.GetOr("")
  }

  /** The row stored for a new article. The date column keeps the article's
      date when it is non-empty and is empty otherwise; the datetime that
      `fromisoformat` makes of the text is represented by the text itself. */
  function RowFor(a: NewsCreate, analyzer: Analyzer): (r: NewsRow)
    ensures r.url == a.url && r.title == a.title && r.stockCode == a.stockCode
    ensures r.date.Some? <==> a.date.Some? && a.date.value != ""
    ensures r.date.Some? ==> r.date == a.date
    ensures analyzer.None? ==> r.sentimentScore == None && r.sentimentLabel == None && r.sentimentConfidence == None
    ensures analyzer.Some? ==> r.sentimentScore == Some(analyzer.value(ArticleText(a), a.language).score)
  {
    var date := if a.date.Some? && a.date.value != "" then a.date else None;
    if analyzer.Some? then
      var result := analyzer.value(ArticleText(a), a.language);
      NewsRow(a.url, a.title, a.content, date, a.source, a.stockCode, a.language,
              Some(result.score), Some(result.polarity.Name()), Some(result.confidence))
    else
      NewsRow(a.url, a.title, a.content, date, a.source, a.stockCode, a.language, None, None, None)
  }

  /** A row whose date text `fromisoformat` refuses; `isIso` says which
      texts it accepts. */
  predicate BadDate(row: NewsRow, isIso: string -> bool)
  {
    row.date.Some? && !isIso(row.date.value)
  }

  function Urls(rows: seq<NewsRow>): (r: set<string>)
    ensures forall i :: 0 <= i < |rows| ==> rows[i].url in r
    ensures forall u :: u in r ==> exists i :: 0 <= i < |rows| && rows[i].url == u
  {
    set i | 0 <= i < |rows| :: rows[i].url
  }

  /** The rows created from `articles` given the stored rows: an article is
      skipped when its URL is already stored, counting the rows this batch
      has added before it. */
  function NewRows(stored: seq<NewsRow>, articles: seq<NewsCreate>, analyzer: Analyzer): seq<NewsRow>
  {
    if |articles| == 0 then []
    else
      var front := NewRows(stored, articles[..|articles| - 1], analyzer);
      var a := articles[|articles| - 1];
      if a.url in Urls(stored + front) then front else front + [RowFor(a, analyzer)]
  }

  /** The batch raises a ValueError, and nothing is committed, when one of
      the rows it would add has a date `fromisoformat` refuses. */
  predicate BatchFails(stored: seq<NewsRow>, articles: seq<NewsCreate>, analyzer: Analyzer, isIso: string -> bool)
  {
    exists i :: 0 <= i < |NewRows(stored, articles, analyzer)| && BadDate(NewRows(stored, articles, analyzer)[i], isIso)
  }

  /** The news table. */
  class NewsTable {
    var rows: seq<NewsRow>

    constructor(initial: seq<NewsRow>)
      ensures rows == initial
    {
      rows := initial;
    }

    /** create_news_batch: adds one row per article with an unseen URL and
        returns the added rows; a date that does not parse fails the whole
        batch and leaves the table as it was. */
    method CreateBatch(articles: seq<NewsCreate>, analyzer: Analyzer, isIso: string -> bool)
      returns (created: Option<seq<NewsRow>>)
      modifies this
      ensures created.None? <==> BatchFails(old(rows), articles, analyzer, isIso)
      ensures created.None? ==> rows == old(rows)
      ensures created.Some? ==> created.value == NewRows(old(rows), articles, analyzer)
      ensures created.Some? ==> rows == old(rows) + created.value
    {
      var pending := [];
      for i := 0 to |articles|
        invariant pending == NewRows(rows, articles[..i], analyzer)
        invariant rows == old(rows)
        invariant forall j :: 0 <= j < |pending| ==> !BadDate(pending[j], isIso)
      {
        NewRowsStep(rows, articles, i, analyzer);
        var article := articles[i];
        if article.url in Urls(rows + pending) {
          continue;
        }
        var news := RowFor(article, analyzer);
        if BadDate(news, isIso) {
          BadRowFails(rows, articles, i, analyzer, isIso);
          return None;
        }
        pending := pending + [news];
      }
      assert articles[..|articles|] == articles;
      rows := rows + pending;
      created := Some(pending);
    }
  }

  /** One more article: its row is added unless its URL is already there. */
  lemma NewRowsStep(stored: seq<NewsRow>, articles: seq<NewsCreate>, i: nat, analyzer: Analyzer)
    requires i < |articles|
    ensures var front := NewRows(stored, articles[..i], analyzer);
      NewRows(stored, articles[..i + 1], analyzer)
        == if articles[i].url in Urls(stored + front) then front else front + [RowFor(articles[i], analyzer)]
  {
    assert articles[..i + 1][..i] == articles[..i];
  }

  /** An article whose new row has a refused date fails the batch. */
  lemma BadRowFails(stored: seq<NewsRow>, articles: seq<NewsCreate>, i: nat, analyzer: Analyzer, isIso: string -> bool)
    requires i < |articles|
    requires articles[i].url !in Urls(stored + NewRows(stored, articles[..i], analyzer))
    requires BadDate(RowFor(articles[i], analyzer), isIso)
    ensures BatchFails(stored, articles, analyzer, isIso)
  {
    var front := NewRows(stored, articles[..i], analyzer);
    NewRowsStep(stored, articles, i, analyzer);
    NewRowsPrefix(stored, articles, i + 1, analyzer);
    var all := NewRows(stored, articles, analyzer);
    assert all[..|front| + 1] == front + [RowFor(articles[i], analyzer)];
    assert all[|front|] == RowFor(articles[i], analyzer);
  }

  /** The rows of a prefix of the batch are a prefix of the batch's rows. */
  lemma {:induction false} NewRowsPrefix(stored: seq<NewsRow>, articles: seq<NewsCreate>, k: nat, analyzer: Analyzer)
    requires k <= |articles|
    ensures |NewRows(stored, articles[..k], analyzer)| <= |NewRows(stored, articles, analyzer)|
    ensures NewRows(stored, articles, analyzer)[..|NewRows(stored, articles[..k], analyzer)|] == NewRows(stored, articles[..k], analyzer)
  {
    if k < |articles| {
      var fa := articles[..|articles| - 1];
      assert fa[..k] == articles[..k];
      NewRowsPrefix(stored, fa, k, analyzer);
    } else {
      assert articles[..k] == articles;
    }
  }

  /** A batch never stores a URL twice: the new rows avoid the stored URLs
      and each other. */
  lemma {:induction false} NewRowsDistinct(stored: seq<NewsRow>, articles: seq<NewsCreate>, analyzer: Analyzer)
    ensures forall i :: 0 <= i < |NewRows(stored, articles, analyzer)| ==>
      NewRows(stored, articles, analyzer)[i].url !in Urls(stored)
    ensures forall i, j :: 0 <= i < j < |NewRows(stored, articles, analyzer)| ==>
      NewRows(stored, articles, analyzer)[i].url != NewRows(stored, articles, analyzer)[j].url
  {
    if |articles| > 0 {
      var fa := articles[..|articles| - 1];
      NewRowsDistinct(stored, fa, analyzer);
      var front := NewRows(stored, fa, analyzer);
      var a := articles[|articles| - 1];
      var r := NewRows(stored, articles, analyzer);
      assert r == if a.url in Urls(stored + front) then front else front + [RowFor(a, analyzer)];
      if a.url !in Urls(stored + front) {
        assert r == front + [RowFor(a, analyzer)];
        forall m | 0 <= m < |stored| ensures stored[m].url != a.url {
          assert (stored + front)[m] == stored[m];
        }
        forall i | 0 <= i < |r| ensures r[i].url !in Urls(stored) {
          assert r[i].url == if i < |front| then front[i].url else a.url;
        }
        forall i, j | 0 <= i < j < |r| ensures r[i].url != r[j].url {
          if j == |front| {
            assert (stored + front)[|stored| + i] == front[i];
          }
        }
      }
    }
  }

  /** Every article's URL is stored once the batch is done. */
  lemma {:induction false} NewRowsComplete(stored: seq<NewsRow>, articles: seq<NewsCreate>, analyzer: Analyzer)
    ensures forall k :: 0 <= k < |articles| ==> articles[k].url in Urls(stored + NewRows(stored, articles, analyzer))
  {
    if |articles| > 0 {
      var fa := articles[..|articles| - 1];
      NewRowsComplete(stored, fa, analyzer);
      var front := NewRows(stored, fa, analyzer);
      var a := articles[|articles| - 1];
      var r := NewRows(stored, articles, analyzer);
      assert r == if a.url in Urls(stored + front) then front else front + [RowFor(a, analyzer)];
      forall k | 0 <= k < |articles| ensures articles[k].url in Urls(stored + r) {
        if k < |fa| {
          assert articles[k] == fa[k];
          var i :| 0 <= i < |stored + front| && (stored + front)[i].url == articles[k].url;
          assert r == front || r == front + [RowFor(articles[|articles| - 1], analyzer)];
          assert (stored + r)[i] == (stored + front)[i];
        } else if r != front {
          assert (stored + r)[|stored| + |front|] == RowFor(articles[k], analyzer);
        }
      }
    }
  }

  /** Every new row is the row of one of the articles. */
  lemma {:induction false} NewRowsFromArticles(stored: seq<NewsRow>, articles: seq<NewsCreate>, analyzer: Analyzer)
    ensures forall i :: 0 <= i < |NewRows(stored, articles, analyzer)| ==>
      exists k :: 0 <= k < |articles| && NewRows(stored, articles, analyzer)[i] == RowFor(articles[k], analyzer)
  {
    if |articles| > 0 {
      var fa := articles[..|articles| - 1];
      NewRowsFromArticles(stored, fa, analyzer);
      var front := NewRows(stored, fa, analyzer);
      var a := articles[|articles| - 1];
      var r := NewRows(stored, articles, analyzer);
      assert r == if a.url in Urls(stored + front) then front else front + [RowFor(a, analyzer)];
      forall i | 0 <= i < |r| ensures exists k :: 0 <= k < |articles| && r[i] == RowFor(articles[k], analyzer) {
        if i < |front| {
          assert r[i] == front[i];
          var k :| 0 <= k < |fa| && front[i] == RowFor(fa[k], analyzer);
          assert articles[k] == fa[k];
          assert r[i] == RowFor(articles[k], analyzer);
        } else {
          var k := |articles| - 1;
          assert r[i] == RowFor(articles[k], analyzer);
        }
      }
    } else {
      assert NewRows(stored, articles, analyzer) == [];
    }
  }
}
