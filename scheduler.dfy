// The news scheduler: one run scrapes the news of every stock, keeps the
// first article of each URL, fetches each article's body and scores its
// sentiment.

module Scheduler {
  import opened Common
  import opened Text
  import opened NewsScrapers
  import NlpSentiment

  /** An article as a run leaves it: the scraped article, the body fetched
      for it, and its sentiment label, score and confidence. */
  datatype ScoredArticle = ScoredArticle(
    article: Article,
    description: string,
    sentiment: string,
    score: real,
    confidence: real)

  /** The stock codes of the keyword table, in table order. */
  function StockCodes(): (r: seq<string>)
    ensures |r| == |StockKeywords|
    ensures forall i :: 0 <= i < |r| ==> r[i] == StockKeywords[i].0
  {
    seq(|StockKeywords|, i requires 0 <= i < |StockKeywords| => StockKeywords[i].0)
  }

  /** The news of each code in turn, concatenated. */
  function AllNews(codes: seq<string>, fetch: string -> Option<Soup>, today: string): seq<Article>
  {
    if |codes| == 0 then []
    else AllNews(codes[..|codes| - 1], fetch, today) + NewsForStock(codes[|codes| - 1], fetch, today)
  }

  /** Each stock contributes at most 90 articles. */
  lemma {:induction false} AllNewsLength(codes: seq<string>, fetch: string -> Option<Soup>, today: string)
    ensures |AllNews(codes, fetch, today)| <= 90 * |codes|
  {
    if |codes| > 0 {
      AllNewsLength(codes[..|codes| - 1], fetch, today);
      NewsForStockFacts(codes[|codes| - 1], fetch, today);
    }
  }

  /** The description of an article: the body of its page when the page
      parses and the body is not empty, otherwise the empty string. */
  function Description(a: Article, fetch: string -> Option<Soup>, today: string): (r: string)
    ensures |r| <= 5000
    ensures r != "" ==> GetFullArticle(a, fetch, today).Some? && r == GetFullArticle(a, fetch, today).value.content
    ensures GetFullArticle(a, fetch, today).Some? ==> r == GetFullArticle(a, fetch, today).value.content
    ensures a.source !in ScraperNames ==> r == ""
  {
    var full := GetFullArticle(a, fetch, today);
    if full.Some? && full.value.content != "" then full.value.content else ""
  }

  /** The text whose sentiment is scored: the title, a space, the
      description. */
  function ScoredText(a: Article, description: string): string
  {
    a.title + " " + description
  }

  /** The scoring step as written: `analyze` reports its label under the
      key "label", never "sentiment", so reading "sentiment" raises and the
      handler stores a neutral verdict with zero score and confidence for
      every article. */
  function ScoredAsWritten(a: Article, description: string, pipeline: NlpSentiment.Pipeline): (r: ScoredArticle)
    ensures r.article == a && r.description == description
    ensures r.sentiment == "neutral" && r.score == 0.0 && r.confidence == 0.0
  {
    ScoredArticle(a, description, "neutral", 0.0, 0.0)
  }

  /** The scoring step with the analysis read under its own keys: the
      label's name, the score and the confidence of `analyze`. */
  function Scored(a: Article, description: string, pipeline: NlpSentiment.Pipeline): (r: ScoredArticle)
    ensures r.article == a && r.description == description
    ensures r.sentiment in {"positive", "negative", "neutral"}
  {
    var analysis := NlpSentiment.AnalyzeSpec(ScoredText(a, description), None, pipeline);
    ScoredArticle(a, description, analysis.polarity.Name(), analysis.score, analysis.confidence)
  }

  /** The label agrees with the score: positive above 0.2, negative below
      −0.2, neutral in between; without a pipeline the score lies in
      [−1, 1]. */
  lemma ScoredLabelAgrees(a: Article, description: string, pipeline: NlpSentiment.Pipeline)
    ensures Scored(a, description, pipeline).sentiment == "positive" <==> Scored(a, description, pipeline).score > 0.2
    ensures Scored(a, description, pipeline).sentiment == "negative" <==> Scored(a, description, pipeline).score < -0.2
    ensures pipeline.NoPipeline? ==> -1.0 <= Scored(a, description, pipeline).score <= 1.0
  {
    var text := ScoredText(a, description);
    NlpSentiment.AnalyzeScoreBounds(text, None, pipeline);
    var an := NlpSentiment.AnalyzeSpec(text, None, pipeline);
    if !NlpSentiment.TooShort(text) {
      var t := Take(text, 512);
      var lang := NlpSentiment.ChosenLanguage(text, None);
      var m := NlpSentiment.ModelVerdict(t, lang, pipeline);
      if m.Some? {
        var out := pipeline.run(t).value;
        var stars := DigitValue(out.stars[0]).value;
        assert an.polarity == NlpSentiment.LabelFor(NlpSentiment.StarScore(stars));
      }
    }
    assert an.polarity == NlpSentiment.LabelFor(an.score);
  }

  /** The scheduler's analyzer is built without loading the model, so it
      always takes the lexicon path. An article whose title and description
      hold a positive lexicon word and no negative one (such as the title
      "Benefices record" with the description "en hausse") is then positive
      with score 1 once the analysis is read under its own keys, but stored
      neutral with score 0 by the step as written. */
  lemma KeyErrorHidesVerdict(a: Article, description: string)
    requires var t := Take(ScoredText(a, description), 512);
      !NlpSentiment.TooShort(ScoredText(a, description))
      && |NlpSentiment.PositiveMatches(t)| > 0 && |NlpSentiment.NegativeMatches(t)| == 0
    ensures ScoredAsWritten(a, description, NlpSentiment.NoPipeline).sentiment == "neutral"
    ensures ScoredAsWritten(a, description, NlpSentiment.NoPipeline).score == 0.0
    ensures Scored(a, description, NlpSentiment.NoPipeline).sentiment == "positive"
    ensures Scored(a, description, NlpSentiment.NoPipeline).score == 1.0
  {
    var text := ScoredText(a, description);
    var t := Take(text, 512);
    var lang := NlpSentiment.ChosenLanguage(text, None);
    var rules := NlpSentiment.RuleVerdict(t, lang);
    assert NlpSentiment.AnalyzeSpec(text, None, NlpSentiment.NoPipeline) == rules;
    assert rules.score == 1.0;
  }

  /** Each article described and scored, in order. */
  function Processed(unique: seq<Article>, fetch: string -> Option<Soup>, today: string, pipeline: NlpSentiment.Pipeline)
    : (r: seq<ScoredArticle>)
    ensures |r| == |unique|
  {
    seq(|unique|, i requires 0 <= i < |unique| => Scored(unique[i], Description(unique[i], fetch, today), pipeline))
  }

  /** The result of one run: the first article of each URL over every
      stock's news, each described and scored. */
  function RunResult(fetch: string -> Option<Soup>, today: string, pipeline: NlpSentiment.Pipeline): seq<ScoredArticle>
  {
    Processed(FirstPerUrl(AllNews(StockCodes(), fetch, today)), fetch, today, pipeline)
  }

  /** Processing keeps the articles in order; each description is the
      article's fetched body or empty, and each label agrees with its
      score. */
  lemma ProcessedFacts(unique: seq<Article>, fetch: string -> Option<Soup>, today: string, pipeline: NlpSentiment.Pipeline)
    ensures forall i :: 0 <= i < |unique| ==> Processed(unique, fetch, today, pipeline)[i].article == unique[i]
    ensures forall i :: 0 <= i < |unique| ==>
      Processed(unique, fetch, today, pipeline)[i].description == Description(unique[i], fetch, today)
    ensures forall i :: 0 <= i < |unique| ==>
      (Processed(unique, fetch, today, pipeline)[i].sentiment == "positive" <==> Processed(unique, fetch, today, pipeline)[i].score > 0.2)
  {
    forall i | 0 <= i < |unique|
      ensures Processed(unique, fetch, today, pipeline)[i].sentiment == "positive" <==> Processed(unique, fetch, today, pipeline)[i].score > 0.2
    {
      ScoredLabelAgrees(unique[i], Description(unique[i], fetch, today), pipeline);
    }
  }

  /** Processing the first article of each URL keeps every URL exactly
      once. */
  lemma UniqueProcessedUrls(all: seq<Article>, fetch: string -> Option<Soup>, today: string, pipeline: NlpSentiment.Pipeline)
    ensures forall i, j :: 0 <= i < j < |Processed(FirstPerUrl(all), fetch, today, pipeline)| ==>
      Processed(FirstPerUrl(all), fetch, today, pipeline)[i].article.url != Processed(FirstPerUrl(all), fetch, today, pipeline)[j].article.url
    ensures forall u :: u in Urls(all) <==>
      exists i :: 0 <= i < |Processed(FirstPerUrl(all), fetch, today, pipeline)| && Processed(FirstPerUrl(all), fetch, today, pipeline)[i].article.url == u
  {
    var unique := FirstPerUrl(all);
    var r := Processed(unique, fetch, today, pipeline);
    FirstPerUrlUrls(all);
    ProcessedFacts(unique, fetch, today, pipeline);
    forall u ensures u in Urls(all) <==> exists i :: 0 <= i < |r| && r[i].article.url == u {
      if u in Urls(unique) {
        var i :| 0 <= i < |unique| && unique[i].url == u;
        assert r[i].article.url == u;
      }
    }
  }

  /** A run keeps every URL found for any stock exactly once, in the order
      found, with at most 90 articles per stock. */
  lemma RunResultUrls(fetch: string -> Option<Soup>, today: string, pipeline: NlpSentiment.Pipeline)
    ensures |RunResult(fetch, today, pipeline)| <= 90 * |StockKeywords|
    ensures forall i, j :: 0 <= i < j < |RunResult(fetch, today, pipeline)| ==>
      RunResult(fetch, today, pipeline)[i].article.url != RunResult(fetch, today, pipeline)[j].article.url
    ensures forall u :: u in Urls(AllNews(StockCodes(), fetch, today)) <==>
      exists i :: 0 <= i < |RunResult(fetch, today, pipeline)| && RunResult(fetch, today, pipeline)[i].article.url == u
  {
    var all := AllNews(StockCodes(), fetch, today);
    AllNewsLength(StockCodes(), fetch, today);
    UniqueProcessedUrls(all, fetch, today, pipeline);
  }

  // ---------------------------------------------------------------------
  // The steps of a run

  /** The stock loop: each stock's news appended in turn. */
  method CollectStocks(codes: seq<string>, fetch: string -> Option<Soup>, today: string) returns (all: seq<Article>)
    ensures all == AllNews(codes, fetch, today)
  {
    all := [];
    for i := 0 to |codes|
      invariant all == AllNews(codes[..i], fetch, today)
    {
      var articles := GetNewsForStock(codes[i], fetch, today);
      AllNewsStep(codes, i, fetch, today);
      all := all + articles;
    }
    assert codes[..|codes|] == codes;
  }

  /** One more stock appends that stock's news. */
  lemma AllNewsStep(codes: seq<string>, i: nat, fetch: string -> Option<Soup>, today: string)
    requires i < |codes|
    ensures AllNews(codes[..i + 1], fetch, today) == AllNews(codes[..i], fetch, today) + NewsForStock(codes[i], fetch, today)
  {
    assert codes[..i + 1][..i] == codes[..i];
  }

  /** The de-duplication loop: a set of the URLs seen so far. */
  method UniqueByUrl(all: seq<Article>) returns (unique: seq<Article>)
    ensures unique == FirstPerUrl(all)
  {
    var seen: set<string> := {};
    unique := [];
    for i := 0 to |all|
      invariant unique == FirstPerUrl(all[..i])
      invariant seen == Urls(unique)
    {
      assert all[..i + 1][..i] == all[..i];
      var article := all[i];
      if article.url !in seen {
        UrlsAppend(unique, article);
        seen := seen + {article.url};
        unique := unique + [article];
      }
    }
    assert all[..|all|] == all;
  }

  /** The body-fetching loop. */
  method Describe(unique: seq<Article>, fetch: string -> Option<Soup>, today: string) returns (descriptions: seq<string>)
    ensures |descriptions| == |unique|
    ensures forall i :: 0 <= i < |unique| ==> descriptions[i] == Description(unique[i], fetch, today)
  {
    descriptions := [];
    for i := 0 to |unique|
      invariant |descriptions| == i
      invariant forall k :: 0 <= k < i ==> descriptions[k] == Description(unique[k], fetch, today)
    {
      var description := DescribeOne(unique[i], fetch, today);
      descriptions := descriptions + [description];
    }
  }

  /** The body of the body-fetching loop: the article's page content when
      there is some, else the empty string. */
  method DescribeOne(a: Article, fetch: string -> Option<Soup>, today: string) returns (description: string)
    ensures description == Description(a, fetch, today)
  {
    var full := GetFullArticle(a, fetch, today);
    if full.Some? && full.value.content != "" {
      description := full.value.content;
    } else {
      description := "";
    }
  }

  /** The scoring loop. */
  method ScoreAll(unique: seq<Article>, descriptions: seq<string>, pipeline: NlpSentiment.Pipeline)
    returns (scored: seq<ScoredArticle>)
    requires |descriptions| == |unique|
    ensures |scored| == |unique|
    ensures forall i :: 0 <= i < |unique| ==> scored[i] == Scored(unique[i], descriptions[i], pipeline)
  {
    scored := [];
    for i := 0 to |unique|
      invariant scored == MapPairs(unique, descriptions, (a, d) => Scored(a, d, pipeline), i)
    {
      var article := ScoreOne(unique[i], descriptions[i], pipeline);
      scored := scored + [article];
    }
  }

  /** The body of the scoring loop: analyze the title and description and
      record the label, score and confidence. */
  method ScoreOne(a: Article, description: string, pipeline: NlpSentiment.Pipeline) returns (r: ScoredArticle)
    ensures r == Scored(a, description, pipeline)
  {
    var text := a.title + " " + description;
    var analysis := NlpSentiment.Analyze(text, None, pipeline);
    assert analysis.(matched := None) == NlpSentiment.AnalyzeSpec(ScoredText(a, description), None, pipeline);
    r := ScoredArticle(a, description, analysis.polarity.Name(), analysis.score, analysis.confidence);
  }

  /** The body-fetching loop followed by the scoring loop. */
  method Process(unique: seq<Article>, fetch: string -> Option<Soup>, today: string, pipeline: NlpSentiment.Pipeline)
    returns (r: seq<ScoredArticle>)
    ensures r == Processed(unique, fetch, today, pipeline)
  {
    var descriptions := Describe(unique, fetch, today);
    r := ScoreAll(unique, descriptions, pipeline);
  }

  /** The work of scrape_and_analyze, before the scheduler records it. */
  method Run(fetch: string -> Option<Soup>, today: string, pipeline: NlpSentiment.Pipeline) returns (r: seq<ScoredArticle>)
    ensures r == RunResult(fetch, today, pipeline)
  {
    var all := CollectStocks(StockCodes(), fetch, today);
    var unique := UniqueByUrl(all);
    r := Process(unique, fetch, today, pipeline);
  }

  // ---------------------------------------------------------------------
  // The scheduler

  /** NewsScheduler: the interval between runs, whether the background
      loop is running, and the time and articles of the last run. */
  class NewsScheduler {
    var interval: int
    var running: bool
    var lastRun: Option<int>
    var lastArticles: seq<ScoredArticle>

    constructor(intervalSeconds: int)
      ensures interval == intervalSeconds && !running
      ensures lastRun == None && lastArticles == []
    {
      interval := intervalSeconds;
      running := false;
      lastRun := None;
      lastArticles := [];
    }

    /** scrape_and_analyze: the run's articles become the last articles and
        `now` the time of the last run. */
    method ScrapeAndAnalyze(fetch: string -> Option<Soup>, today: string, now: int, pipeline: NlpSentiment.Pipeline)
      returns (r: seq<ScoredArticle>)
      modifies this`lastRun, this`lastArticles
      ensures r == RunResult(fetch, today, pipeline)
      ensures lastArticles == r && lastRun == Some(now)
    {
      r := Run(fetch, today, pipeline);
      lastRun := Some(now);
      lastArticles := r;
    }

    /** run_once. */
    method RunOnce(fetch: string -> Option<Soup>, today: string, now: int, pipeline: NlpSentiment.Pipeline)
      returns (r: seq<ScoredArticle>)
      modifies this`lastRun, this`lastArticles
      ensures r == RunResult(fetch, today, pipeline)
      ensures lastArticles == r && lastRun == Some(now)
    {
      r := ScrapeAndAnalyze(fetch, today, now, pipeline);
    }

    /** start: sets the running flag; a scheduler already running is left
        as it is. */
    method Start()
      modifies this`running
      ensures running
    {
      if running {
        return;
      }
      running := true;
    }

    /** stop: clears the running flag. */
    method Stop()
      modifies this`running
      ensures !running
    {
      running := false;
    }
  }
}
