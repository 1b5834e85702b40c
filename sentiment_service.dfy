/** The backend's sentiment service: a small bilingual lexicon scorer that
    would delegate to the NLP analyzer once that is initialised, a
    title/content article combiner, and per-stock and market summaries. */
module SentimentService {
  import opened Common
  import opened Text
  import opened NlpSentiment

  // The service's four vocabularies.

  datatype Vocabulary = PositiveFr | NegativeFr | PositiveAr | NegativeAr

  function Vocab(v: Vocabulary): set<string>
  {
    match v
    case PositiveFr => {
      "hausse", "augmentation", "croissance", "profit", "benefice", "bénéfice", "succes",
      "succès", "progression", "amelioration", "amélioration", "record", "gain", "optimiste",
      "performance", "dividende", "expansion", "favorable"
    }
    case NegativeFr => {
      "baisse", "chute", "perte", "deficit", "déficit", "crise", "recul", "degradation",
      "dégradation", "effondrement", "risque", "difficile", "pessimiste", "dette", "faillite",
      "inquietude", "inquiétude"
    }
    case PositiveAr => {
      "ارتفاع", "نمو", "ربح", "أرباح", "مكاسب", "نجاح", "تحسن", "تقدم", "صعود", "انتعاش",
      "استقرار", "توزيعات", "إيجابي"
    }
    case NegativeAr => {
      "انخفاض", "خسارة", "خسائر", "أزمة", "تراجع", "هبوط", "انهيار", "إفلاس", "عجز", "ديون",
      "سلبي", "ضعيف"
    }
  }

  /** Words of `words` occurring in `text`, counted once each. */
  function Hits(words: set<string>, text: string): nat
  {
    |MatchesIn(words, text)|
  }

  /** Positive matches: French words against the lower-cased text, Arabic
      words against the text as given. */
  function PositiveHits(text: string): nat
  {
    Hits(Vocab(PositiveFr), Lower(text)) + Hits(Vocab(PositiveAr), text)
  }

  function NegativeHits(text: string): nat
  {
    Hits(Vocab(NegativeFr), Lower(text)) + Hits(Vocab(NegativeAr), text)
  }

  /** _rule_based_analyze. */
  function RuleBasedAnalyze(text: string): (r: Analysis)
    ensures r.language == None && r.rawLabel == None && r.matched == None
    ensures -1.0 <= r.score <= 1.0 && r.polarity == LabelFor(r.score)
    ensures PositiveHits(text) + NegativeHits(text) == 0 ==> r.score == 0.0 && r.confidence == 0.2
    ensures PositiveHits(text) + NegativeHits(text) > 0 ==>
      r.confidence == Min((PositiveHits(text) + NegativeHits(text)) as real / 5.0, 1.0) &&
      0.2 <= r.confidence <= 1.0 &&
      (r.score > 0.0 <==> PositiveHits(text) > NegativeHits(text)) &&
      (r.score < 0.0 <==> PositiveHits(text) < NegativeHits(text))
    ensures PositiveHits(text) + NegativeHits(text) > 0 ==>
      r.score == LexiconScore(PositiveHits(text), NegativeHits(text))
  {
    var pos := PositiveHits(text);
    var neg := NegativeHits(text);
    if pos + neg == 0 then Analysis(0.0, Neutral, 0.2, None, None, None)
    else
      var score := LexiconScore(pos, neg);
      Analysis(score, LabelFor(score), Min((pos + neg) as real / 5.0, 1.0), None, None, None)
  }

  /** `c` is neither changed by lower-casing nor the lower-case image of
      another character. */
  predicate CaseFree(c: char)
  {
    !('A' <= c <= 'z') && !('À' <= c <= 'þ')
  }

  /** No character of `w` takes part in case folding. */
  predicate Unfoldable(w: string)
  {
    forall j :: 0 <= j < |w| ==> CaseFree(w[j])
  }

  lemma LowerMatchesOnly(c: char, d: char)
    requires CaseFree(d)
    ensures LowerChar(c) == d <==> c == d
  {
    if IsFoldableUpper(c) {
      assert 'a' <= LowerChar(c) <= 'z' || 'à' <= LowerChar(c) <= 'þ';
    }
  }

  /** A word without Latin lower-case letters occurs in a text exactly when
      it occurs in the lower-cased text. */
  lemma ContainsLower(text: string, w: string)
    requires Unfoldable(w)
    ensures Contains(Lower(text), w) <==> Contains(text, w)
  {
    var lt := Lower(text);
    if Contains(text, w) {
      var i :| 0 <= i <= |text| - |w| && OccursAt(text, w, i);
      forall j | 0 <= j < |w| ensures lt[i + j] == w[j] {
        assert text[i + j] == text[i..i + |w|][j];
        LowerMatchesOnly(text[i + j], w[j]);
      }
      assert lt[i..i + |w|] == w;
      assert OccursAt(lt, w, i);
    }
    if Contains(lt, w) {
      var i :| 0 <= i <= |lt| - |w| && OccursAt(lt, w, i);
      forall j | 0 <= j < |w| ensures text[i + j] == w[j] {
        assert lt[i + j] == lt[i..i + |w|][j];
        LowerMatchesOnly(text[i + j], w[j]);
      }
      assert text[i..i + |w|] == w;
      assert OccursAt(text, w, i);
    }
  }

  lemma HitsLower(words: set<string>, text: string)
    requires forall w :: w in words ==> Unfoldable(w)
    ensures MatchesIn(words, Lower(text)) == MatchesIn(words, text)
  {
    forall w | w in words ensures Contains(Lower(text), w) <==> Contains(text, w) {
      ContainsLower(text, w);
    }
  }

  lemma ArabicUnfoldable()
    ensures forall w :: w in Vocab(PositiveAr) ==> Unfoldable(w)
    ensures forall w :: w in Vocab(NegativeAr) ==> Unfoldable(w)
  {
  }

  /** The backend scorer ignores letter case: lower-casing the text first
      changes nothing. */
  lemma RuleBasedCaseInsensitive(text: string)
    ensures RuleBasedAnalyze(Lower(text)) == RuleBasedAnalyze(text)
  {
    LowerIdempotent(text);
    ArabicUnfoldable();
    HitsLower(Vocab(PositiveAr), text);
    HitsLower(Vocab(NegativeAr), text);
  }

  /** What analyze_text returns when no analyzer is installed. */
  function TextSpec(text: string): (r: Analysis)
    ensures |text| == 0 ==> r == Analysis(0.0, Neutral, 0.0, None, None, None)
    ensures -1.0 <= r.score <= 1.0 && 0.0 <= r.confidence <= 1.0
  {
    if |text| == 0 then Analysis(0.0, Neutral, 0.0, None, None, None) else RuleBasedAnalyze(text)
  }

  /** analyze_article's result: the service's own short record, or the
      NLP analyzer's full one when the call was delegated. */
  datatype ArticleResult =
    | Plain(score: real, polarity: Label, confidence: real, url: string, date: string)
    | Detailed(analysis: ArticleAnalysis)
  {
    function Score(): real
    {
      match this
      case Plain(s, _, _, _, _) => s
      case Detailed(a) => a.score
    }
  }

  /** analyze_article without an analyzer: the title weighs 1.5 against the
      content's 1 when the content is longer than 50 characters; otherwise
      the title score stands, with 70% of its confidence. */
  function PlainArticle(a: Article): (r: ArticleResult)
    ensures r.Plain? && r.url == a.url.GetOr("") && r.date == a.date.GetOr("")
    ensures HasLongContent(a) ==>
      r.score == (1.5 * TextSpec(TitleOf(a)).score + TextSpec(Take(ContentOf(a), 1000)).score) / 2.5
    ensures !HasLongContent(a) ==>
      r.score == TextSpec(TitleOf(a)).score && r.confidence == 0.7 * TextSpec(TitleOf(a)).confidence
    ensures -1.0 <= r.score <= 1.0 && 0.0 <= r.confidence <= 1.0 && r.polarity == LabelFor(r.score)
  {
    var titleResult := TextSpec(TitleOf(a));
    if HasLongContent(a) then
      var contentResult := TextSpec(Take(ContentOf(a), 1000));
      var score := CombineScores(titleResult.score, contentResult.score);
      Plain(score, LabelFor(score), (titleResult.confidence + contentResult.confidence) / 2.0,
            a.url.GetOr(""), a.date.GetOr(""))
    else
      var score := titleResult.score;
      Plain(score, LabelFor(score), titleResult.confidence * 0.7, a.url.GetOr(""), a.date.GetOr(""))
  }

  /** What analyze_article returns, with or without the NLP analyzer. */
  predicate IsArticleResult(r: ArticleResult, a: Article, delegated: bool)
  {
    if delegated then r.Detailed? && IsArticleAnalysis(r.analysis, a, NoPipeline)
    else r == PlainArticle(a)
  }

  /** The score analyze_article produces. */
  function ArticleScore(a: Article, delegated: bool): real
  {
    if delegated then ArticleSpec(a, NoPipeline).score else PlainArticle(a).score
  }

  lemma ArticleResultScore(r: ArticleResult, a: Article, delegated: bool)
    requires IsArticleResult(r, a, delegated)
    ensures r.Score() == ArticleScore(a, delegated)
  {
  }

  function NewsScores(news: seq<Article>, delegated: bool): (s: seq<real>)
    ensures |s| == |news| && forall i {:trigger s[i]} :: 0 <= i < |news| ==> s[i] == ArticleScore(news[i], delegated)
  {
    seq(|news|, i requires 0 <= i < |news| => ArticleScore(news[i], delegated))
  }

  lemma ScoresOfNews(scores: seq<real>, news: seq<Article>, delegated: bool)
    requires |scores| == |news|
    requires forall k {:trigger scores[k]} :: 0 <= k < |news| ==> scores[k] == ArticleScore(news[k], delegated)
    ensures scores == NewsScores(news, delegated)
  {
  }

  datatype StockSummary = StockSummary(
    stock: string,
    date: string,
    score: real,
    polarity: Label,
    confidence: real,
    articleCount: nat,
    articles: seq<ArticleResult>)

  /** What stock_sentiment returns: a neutral zero record for no news;
      otherwise the 0.8^i-weighted mean of the article scores, a confidence
      of min(n/5, 1) and the first five analysed articles. */
  predicate IsStockSummary(r: StockSummary, stock: string, news: seq<Article>, today: string, delegated: bool)
  {
    if |news| == 0 then r == StockSummary(stock, today, 0.0, Neutral, 0.0, 0, [])
    else
      r.stock == stock && r.date == today &&
      r.score == WeightedMean(NewsScores(news, delegated)) && r.polarity == LabelFor(r.score) &&
      r.confidence == Min(|news| as real / 5.0, 1.0) && r.articleCount == |news| &&
      |r.articles| == MinInt(|news|, 5) &&
      (forall i {:trigger IsArticleResult(r.articles[i], news[i], delegated)} :: 0 <= i < |r.articles| ==> IsArticleResult(r.articles[i], news[i], delegated))
  }

  class Service {
    /** `_nlp_loaded`: whether initialisation of the NLP analyzer was tried. */
    var nlpLoaded: bool
    /** Whether `_nlp_analyzer` holds an analyzer (one built without a
        transformer pipeline). */
    var hasAnalyzer: bool

    constructor()
      ensures !nlpLoaded && !hasAnalyzer
    {
      nlpLoaded := false;
      hasAnalyzer := false;
    }

    /** _init_nlp: runs once; `importSucceeds` says whether importing and
        building the analyzer works. */
    method InitNlp(importSucceeds: bool)
      modifies this
      ensures old(nlpLoaded) ==> nlpLoaded && hasAnalyzer == old(hasAnalyzer)
      ensures !old(nlpLoaded) ==> nlpLoaded && hasAnalyzer == importSucceeds
    {
      if nlpLoaded {
        return;
      }
      nlpLoaded := true;
      hasAnalyzer := importSucceeds;
    }

    /** analyze_text. */
    method AnalyzeText(text: string, language: Option<string>) returns (r: Analysis)
      ensures !hasAnalyzer || |text| == 0 ==> r == TextSpec(text)
      ensures hasAnalyzer && |text| > 0 ==> IsAnalysis(r, text, language, NoPipeline)
    {
      if |text| == 0 {
        return Analysis(0.0, Neutral, 0.0, None, None, None);
      }
      if hasAnalyzer {
        r := NlpSentiment.Analyze(text, language, NoPipeline);
        return;
      }
      r := RuleBasedAnalyze(text);
    }

    /** analyze_article. */
    method AnalyzeArticle(article: Article) returns (r: ArticleResult)
      ensures IsArticleResult(r, article, hasAnalyzer)
    {
      var title := article.title.GetOr("");
      var content := article.content.GetOr(article.description.GetOr(""));
      var language := article.language;
      if hasAnalyzer {
        var full := NlpSentiment.AnalyzeArticle(article, NoPipeline);
        return Detailed(full);
      }
      var titleResult := AnalyzeText(title, language);
      var combinedScore, combinedConfidence;
      if |content| > 50 {
        var contentResult := AnalyzeText(Take(content, 1000), language);
        combinedScore := (titleResult.score * 1.5 + contentResult.score) / 2.5;
        combinedConfidence := (titleResult.confidence + contentResult.confidence) / 2.0;
      } else {
        combinedScore := titleResult.score;
        combinedConfidence := titleResult.confidence * 0.7;
      }
      r := Plain(combinedScore, LabelFor(combinedScore), combinedConfidence,
                 article.url.GetOr(""), article.date.GetOr(""));
    }

    /** stock_sentiment; `today` is the formatted current date. */
    method StockSentiment(stockCode: string, news: seq<Article>, today: string) returns (r: StockSummary)
      ensures IsStockSummary(r, stockCode, news, today, hasAnalyzer)
    {
      if |news| == 0 {
        return StockSummary(stockCode, today, 0.0, Neutral, 0.0, 0, []);
      }
      var analyzed: seq<ArticleResult> := [];
      var scores: seq<real> := [];
      ghost var delegated := hasAnalyzer;
      ghost var related := (x: ArticleResult, a: Article) => IsArticleResult(x, a, delegated);
      var i := 0;
      while i < |news|
        invariant 0 <= i <= |news| && |analyzed| == i && |scores| == i
        invariant forall k :: 0 <= k < i ==> related(analyzed[k], news[k])
        invariant forall k {:trigger scores[k]} :: 0 <= k < i ==> scores[k] == ArticleScore(news[k], delegated)
      {
        var one := AnalyzeArticle(news[i]);
        ArticleResultScore(one, news[i], delegated);
        PairsSnoc(analyzed, news, related, one);
        analyzed := analyzed + [one];
        scores := scores + [one.Score()];
        i := i + 1;
      }
      ScoresOfNews(scores, news, delegated);
      TakeKeeps(analyzed, news, 5, related);
      var weightedScore := WeightedMean(scores);
      r := StockSummary(stockCode, today, weightedScore, LabelFor(weightedScore),
                        Min(|news| as real / 5.0, 1.0), |news|, Take(analyzed, 5));
    }
  }

  /** A freshly built service, which is how the application uses it, always
      scores with its own lexicon. */
  method FreshServiceUsesRules(text: string) returns (r: Analysis)
    ensures r == TextSpec(text)
  {
    var service := new Service();
    r := service.AnalyzeText(text, None);
  }

  /** Without the analyzer a stock's score lies in [−1, 1] and its
      confidence in (0, 1]. */
  lemma {:induction false} StockSummaryBounds(r: StockSummary, stock: string, news: seq<Article>, today: string)
    requires |news| > 0 && IsStockSummary(r, stock, news, today, false)
    ensures -1.0 <= r.score <= 1.0 && 0.0 < r.confidence <= 1.0 && |r.articles| <= 5
  {
    WeightedMeanBounds(NewsScores(news, false), -1.0, 1.0);
  }

  /** market_sentiment: neutral zero for an empty list; otherwise the mean
      score of the entries with a positive article_count (a missing count
      is 0), and the contributing fraction as confidence. */
  function MarketSentimentOf(sentiments: seq<StockScore>, today: string): (r: MarketSentiment)
    ensures r.stocksWithNews == None && r.totalStocks == None && r.date == today
    ensures Count(sentiments, HasArticles) == 0 ==> r.score == 0.0 && r.mood == Calm && r.confidence == 0.0
    ensures Count(sentiments, HasArticles) > 0 ==>
      r.score == Mean(Scores(Filter(sentiments, HasArticles))) &&
      r.confidence == Count(sentiments, HasArticles) as real / |sentiments| as real &&
      0.0 < r.confidence <= 1.0
    ensures r.mood == MoodFor(r.score)
  {
    if |sentiments| == 0 then MarketSentiment(today, 0.0, Calm, 0.0, None, None)
    else
      var scores := Scores(Filter(sentiments, HasArticles));
      var avg := Mean(scores);
      RatioBounds(|scores| as real, |sentiments| as real);
      MarketSentiment(today, avg, MoodFor(avg), |scores| as real / |sentiments| as real, None, None)
  }

  /** The backend and the NLP market aggregates agree whenever every entry
      carries an article count. */
  lemma MarketAggregatesAgree(sentiments: seq<StockScore>, today: string)
    requires forall i :: 0 <= i < |sentiments| ==> sentiments[i].articleCount.Some?
    ensures GetMarketSentiment(sentiments, today).Ok?
    ensures var n := GetMarketSentiment(sentiments, today).value;
      var b := MarketSentimentOf(sentiments, today);
      n.score == b.score && n.mood == b.mood && n.confidence == b.confidence
  {
  }
}
