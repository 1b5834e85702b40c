/** The NLP sentiment analyzer for French and Arabic financial news: the
    language detector, the lexicon scorer (the path taken whenever the
    transformer pipeline is absent or fails), the article combiner and the
    per-stock and market aggregators. */
module NlpSentiment {
  import opened Common
  import opened Text

  // ---------------------------------------------------------------------
  // Vocabulary

  /** The six word lists of the analyzer class. */
  datatype WordList = FrenchPositive | FrenchNegative | ArabicPositive | ArabicNegative | BvmtPositive | BvmtNegative

  function Words(list: WordList): seq<string>
  {
    match list
    case FrenchPositive => [
      "hausse", "augmentation", "croissance", "profit", "benefice", "bénéfice", "positif",
      "succes", "succès", "progression", "amelioration", "amélioration", "record", "gain",
      "dividende", "expansion", "optimiste", "favorable", "excellent", "remarquable",
      "performance", "rentabilite", "rentabilité", "rebond", "reprise", "rally", "bullish",
      "haussier", "achat", "surperformance", "outperform", "recommandation achat",
      "objectif relevé", "solide", "robuste", "resilient", "résilient", "stable", "sain",
      "liquidite", "liquidité", "solvabilite", "solvabilité", "tresorerie", "trésorerie",
      "developpement", "développement", "innovation", "investissement", "acquisition",
      "partenariat", "contrat", "accord", "signature", "distribution", "rendement", "retour",
      "valorisation", "capitalisation", "renforce", "consolide", "accelere", "accélère",
      "depasse", "dépasse", "atteint", "realise", "réalise", "confirme", "maintient"
    ]
    case FrenchNegative => [
      "baisse", "chute", "perte", "deficit", "déficit", "negatif", "négatif", "crise", "recul",
      "degradation", "dégradation", "effondrement", "faillite", "dette", "risque", "difficile",
      "inquietude", "inquiétude", "pessimiste", "defavorable", "défavorable", "correction",
      "bearish", "baissier", "vente", "sell", "sous-performance", "underperform",
      "objectif abaisse", "objectif abaissé", "downgrade", "insolvable", "liquidation",
      "restructuration", "difficulte", "difficulté", "endettement", "provisions", "depreciation",
      "dépréciation", "fraude", "scandale", "litige", "amende", "sanction", "penalite",
      "pénalité", "enquete", "enquête", "investigation", "suspension", "radiation", "volatilite",
      "volatilité", "incertitude", "instabilite", "instabilité", "ralentissement", "recession",
      "récession", "inflation", "stagnation", "abandonne", "annule", "reporte", "reduit",
      "réduit", "supprime", "licenciement", "fermeture", "arret", "arrêt"
    ]
    case ArabicPositive => [
      "ارتفاع", "نمو", "ربح", "أرباح", "مكاسب", "عوائد", "إيرادات", "نجاح", "تحسن", "تقدم",
      "إنجاز", "تطور", "ازدهار", "صعود", "انتعاش", "تعافي", "استقرار", "ثبات", "شراء",
      "توصية شراء", "هدف مرتفع", "سيولة", "ملاءة", "قوة", "صلابة", "متانة", "توسع", "استثمار",
      "شراكة", "عقد", "اتفاق", "صفقة", "تمويل", "إصدار", "طرح", "اكتتاب", "توزيعات",
      "أرباح موزعة", "عائد", "يرتفع", "يتحسن", "يتقدم", "يحقق", "ينمو", "يزيد", "إيجابي",
      "إيجابية", "ممتاز", "متميز", "رائع"
    ]
    case ArabicNegative => [
      "انخفاض", "خسارة", "خسائر", "أزمة", "تراجع", "هبوط", "سقوط", "انهيار", "إفلاس", "عجز",
      "ديون", "بيع", "توصية بيع", "هدف منخفض", "تصحيح", "تصفية", "إعادة هيكلة", "صعوبات",
      "مشاكل", "مديونية", "مخصصات", "إهلاك", "احتيال", "فضيحة", "غرامة", "عقوبة", "تحقيق",
      "إيقاف", "تعليق", "شطب", "تقلب", "عدم استقرار", "ركود", "تضخم", "يتراجع", "ينخفض", "يهبط",
      "يخسر", "يتدهور", "سلبي", "سلبية", "ضعيف", "متدني", "تسريح", "إغلاق", "توقف"
    ]
    case BvmtPositive => [
      "tunindex", "introduction", "cote", "compartiment a", "valeur vedette", "blue chip",
      "market maker"
    ]
    case BvmtNegative => [
      "suspension cotation", "reservation", "réservation", "radiation", "delisting",
      "avertissement cmf"
    ]
  }

  /** The positive and negative vocabularies, the sets built in the
      analyzer's constructor from the French, Arabic and BVMT lists. */
  const PositiveWords: set<string> :=
    set list, w | list in {FrenchPositive, ArabicPositive, BvmtPositive} && w in Words(list) :: w
  const NegativeWords: set<string> :=
    set list, w | list in {FrenchNegative, ArabicNegative, BvmtNegative} && w in Words(list) :: w

  // ---------------------------------------------------------------------
  // Labels

  datatype Label = Positive | Negative | Neutral {
    function Name(): string {
      match this
      case Positive => "positive"
      case Negative => "negative"
      case Neutral => "neutral"
    }
  }

  /** The ±0.2 labelling shared by every scorer. */
  function LabelFor(score: real): (l: Label)
    ensures l == Positive <==> score > 0.2
    ensures l == Negative <==> score < -0.2
    ensures l == Neutral <==> -0.2 <= score <= 0.2
  {
    if score > 0.2 then Positive else if score < -0.2 then Negative else Neutral
  }

  /** Market-wide mood; `Calm` is printed "neutral". */
  datatype Mood = Bullish | Bearish | Calm {
    function Name(): string {
      match this
      case Bullish => "bullish"
      case Bearish => "bearish"
      case Calm => "neutral"
    }
  }

  /** The ±0.1 labelling of the market aggregates. */
  function MoodFor(score: real): (m: Mood)
    ensures m == Bullish <==> score > 0.1
    ensures m == Bearish <==> score < -0.1
    ensures m == Calm <==> -0.1 <= score <= 0.1
  {
    if score > 0.1 then Bullish else if score < -0.1 then Bearish else Calm
  }

  // ---------------------------------------------------------------------
  // Language detection

  /** Characters of the Arabic, Arabic Supplement and Arabic Extended-A blocks. */
  predicate IsArabicChar(c: char)
  {
    ('\U{0600}' <= c <= '\U{06FF}') || ('\U{0750}' <= c <= '\U{077F}') || ('\U{08A0}' <= c <= '\U{08FF}')
  }

  /** Only the ASCII space is removed before counting. */
  predicate IsBlank(c: char)
  {
    c == ' '
  }

  lemma {:induction false} ArabicAtMostNonBlank(s: string)
    ensures Count(s, IsArabicChar) <= |s| - Count(s, IsBlank)
  {
    if |s| > 0 {
      ArabicAtMostNonBlank(s[..|s| - 1]);
    }
  }

  /** detect_language: "ar" exactly when more than 30% of the non-space
      characters are Arabic, "fr" otherwise (including the empty and the
      all-space text). */
  function DetectLanguage(text: string): (lang: string)
    ensures lang == "ar" || lang == "fr"
    ensures lang == "ar" <==> 10 * Count(text, IsArabicChar) > 3 * (|text| - Count(text, IsBlank))
  {
    ArabicAtMostNonBlank(text);
    if |text| == 0 then "fr"
    else
      var arabic := Count(text, IsArabicChar);
      var total := |text| - Count(text, IsBlank);
      if total == 0 then "fr"
      else
        RatioAbove(arabic as real, total as real);
        if (arabic as real) / (total as real) > 0.3 then "ar" else "fr"
  }

  lemma RatioAbove(a: real, t: real)
    requires t > 0.0
    ensures a / t > 0.3 <==> 10.0 * a > 3.0 * t
  {
    assert a / t * t == a;
  }

  // ---------------------------------------------------------------------
  // Analyses

  /** The matched terms reported by the rule path, per polarity. */
  datatype Matched = Matched(positive: seq<string>, negative: seq<string>)

  /** The dictionary `analyze` returns; `language` is absent only in the
      backend's own results, `rawLabel` is set on the model path and
      `matched` on the rule path when something matched. */
  datatype Analysis = Analysis(
    score: real,
    polarity: Label,
    confidence: real,
    language: Option<string>,
    rawLabel: Option<string>,
    matched: Option<Matched>)

  /** One classification from the transformer pipeline: its label ("1 star"
      … "5 stars") and its probability. */
  datatype PipelineOutput = PipelineOutput(stars: string, probability: real)

  /** The analyzer's pipeline, seen as a function of the truncated text;
      a `None` answer stands for a call that raises. */
  datatype Pipeline = NoPipeline | Loaded(run: string -> Option<PipelineOutput>)

  /** Python truthiness of an optional language code. */
  predicate Truthy(language: Option<string>)
  {
    language.Some? && language.value != ""
  }

  /** Words of `words` that occur as substrings of `text`. */
  function MatchesIn(words: set<string>, text: string): (m: set<string>)
    ensures m <= words
  {
    set w | w in words && Contains(text, w)
  }

  function PositiveMatches(text: string): set<string>
  {
    MatchesIn(PositiveWords, Lower(text))
  }

  function NegativeMatches(text: string): set<string>
  {
    MatchesIn(NegativeWords, Lower(text))
  }

  /** (pos − neg) / (pos + neg). */
  function LexiconScore(pos: nat, neg: nat): (s: real)
    requires pos + neg > 0
    ensures s * (pos + neg) as real == (pos as real) - (neg as real)
    ensures -1.0 <= s <= 1.0
    ensures s > 0.0 <==> pos > neg
    ensures s < 0.0 <==> pos < neg
    ensures s == 1.0 <==> neg == 0
    ensures s == -1.0 <==> pos == 0
  {
    var total := (pos + neg) as real;
    QuotientFacts((pos as real) - (neg as real), total);
    ((pos as real) - (neg as real)) / total
  }

  /** The deterministic part of _rule_based_sentiment on the (already
      truncated) text; the matched-term lists are described by MatchList. */
  function RuleVerdict(text: string, language: string): (r: Analysis)
    ensures r.language == Some(language) && r.rawLabel == None && r.matched == None
    ensures -1.0 <= r.score <= 1.0 && r.polarity == LabelFor(r.score)
    ensures |PositiveMatches(text)| + |NegativeMatches(text)| == 0 ==> r.score == 0.0 && r.confidence == 0.3
    ensures |PositiveMatches(text)| + |NegativeMatches(text)| > 0 ==>
      (r.score > 0.0 <==> |PositiveMatches(text)| > |NegativeMatches(text)|) && 0.2 <= r.confidence <= 1.0
    ensures |PositiveMatches(text)| + |NegativeMatches(text)| > 0 ==>
      r.score == LexiconScore(|PositiveMatches(text)|, |NegativeMatches(text)|)
      && r.confidence == Min((|PositiveMatches(text)| + |NegativeMatches(text)|) as real / 5.0, 1.0)
  {
    var pos := |PositiveMatches(text)|;
    var neg := |NegativeMatches(text)|;
    if pos + neg == 0 then Analysis(0.0, Neutral, 0.3, Some(language), None, None)
    else
      var score := LexiconScore(pos, neg);
      Analysis(score, LabelFor(score), Min((pos + neg) as real / 5.0, 1.0), Some(language), None, None)
  }

  /** `l` lists min(|all|, 5) distinct members of `all`. */
  predicate MatchList(l: seq<string>, all: set<string>)
  {
    |l| == MinInt(|all|, 5) &&
    (forall i :: 0 <= i < |l| ==> l[i] in all) &&
    (forall i, j :: 0 <= i < j < |l| ==> l[i] != l[j])
  }

  /** What the rule path returns for the truncated text `text`. */
  predicate IsRuleResult(r: Analysis, text: string, language: string)
  {
    r.(matched := None) == RuleVerdict(text, language) &&
    (r.matched.Some? <==> |PositiveMatches(text)| + |NegativeMatches(text)| > 0) &&
    (r.matched.Some? ==>
      MatchList(r.matched.value.positive, PositiveMatches(text)) &&
      MatchList(r.matched.value.negative, NegativeMatches(text)))
  }

  /** Counts the words of `words` found in `text`, visiting them in an
      unspecified order (Python set iteration), and lists them in that
      order. */
  method CollectMatches(words: set<string>, text: string) returns (count: nat, found: seq<string>)
    ensures count == |MatchesIn(words, text)| == |found|
    ensures forall i :: 0 <= i < |found| ==> found[i] in MatchesIn(words, text)
    ensures forall i, j :: 0 <= i < j < |found| ==> found[i] != found[j]
  {
    count := 0;
    found := [];
    var remaining := words;
    ghost var seen: set<string> := {};
    while remaining != {}
      invariant remaining !! seen && remaining + seen == words
      invariant count == |MatchesIn(seen, text)| == |found|
      invariant forall i :: 0 <= i < |found| ==> found[i] in MatchesIn(seen, text)
      invariant forall i, j :: 0 <= i < j < |found| ==> found[i] != found[j]
      decreases |remaining|
    {
      var w :| w in remaining;
      assert w !in MatchesIn(seen, text);
      if Contains(text, w) {
        assert MatchesIn(seen + {w}, text) == MatchesIn(seen, text) + {w};
        count := count + 1;
        found := found + [w];
      } else {
        assert MatchesIn(seen + {w}, text) == MatchesIn(seen, text);
      }
      remaining := remaining - {w};
      seen := seen + {w};
    }
    assert seen == words;
  }

  /** _rule_based_sentiment. */
  method RuleBasedSentiment(text: string, language: string) returns (r: Analysis)
    ensures IsRuleResult(r, text, language)
  {
    var lower := Lower(text);
    var posCount, matchedPositive := CollectMatches(PositiveWords, lower);
    var negCount, matchedNegative := CollectMatches(NegativeWords, lower);
    var total := posCount + negCount;
    if total == 0 {
      return Analysis(0.0, Neutral, 0.3, Some(language), None, None);
    }
    var score := LexiconScore(posCount, negCount);
    var baseConfidence := Min(total as real / 5.0, 1.0);
    r := Analysis(score, LabelFor(score), baseConfidence, Some(language), None,
                  Some(Matched(Take(matchedPositive, 5), Take(matchedNegative, 5))));
  }

  /** The star rating s mapped to (s − 3) / 2. */
  function StarScore(stars: nat): real
  {
    ((stars as real) - 3.0) / 2.0
  }

  /** The model path: None when there is no pipeline, when the call raises
      or when the label does not start with a digit (int() raises). */
  function ModelVerdict(text: string, language: string, pipeline: Pipeline): (r: Option<Analysis>)
    ensures pipeline.NoPipeline? ==> r.None?
    ensures r.Some? ==> r.value.matched.None? && r.value.language == Some(language) && r.value.rawLabel.Some?
  {
    match pipeline
    case NoPipeline => None
    case Loaded(run) =>
      match run(text)
      case None => None
      case Some(out) =>
        if |out.stars| == 0 then None
        else match DigitValue(out.stars[0])
          case None => None
          case Some(stars) =>
            var score := StarScore(stars);
            Some(Analysis(score, LabelFor(score), out.probability, Some(language), Some(out.stars), None))
  }

  /** The language analyze works with: the given one when truthy, else the
      detected one. */
  function ChosenLanguage(text: string, language: Option<string>): string
  {
    if Truthy(language) then language.value else DetectLanguage(text)
  }

  predicate TooShort(text: string)
  {
    |text| == 0 || |Strip(text)| < 10
  }

  /** The deterministic part of analyze (everything but the order of the
      matched terms). */
  function AnalyzeSpec(text: string, language: Option<string>, pipeline: Pipeline): Analysis
  {
    if TooShort(text) then
      Analysis(0.0, Neutral, 0.0, Some(if Truthy(language) then language.value else "unknown"), None, None)
    else
      var lang := ChosenLanguage(text, language);
      var t := Take(text, 512);
      match ModelVerdict(t, lang, pipeline)
      case Some(a) => a
      case None => RuleVerdict(t, lang)
  }

  /** analyze takes the rule path for this input. */
  predicate UsesRules(text: string, language: Option<string>, pipeline: Pipeline)
  {
    !TooShort(text) && ModelVerdict(Take(text, 512), ChosenLanguage(text, language), pipeline).None?
  }

  /** What analyze returns for this input. */
  predicate IsAnalysis(r: Analysis, text: string, language: Option<string>, pipeline: Pipeline)
  {
    if UsesRules(text, language, pipeline) then
      IsRuleResult(r, Take(text, 512), ChosenLanguage(text, language))
    else
      r == AnalyzeSpec(text, language, pipeline)
  }

  /** analyze. */
  method Analyze(text: string, language: Option<string>, pipeline: Pipeline) returns (r: Analysis)
    ensures IsAnalysis(r, text, language, pipeline)
    ensures r.(matched := None) == AnalyzeSpec(text, language, pipeline)
  {
    if |text| == 0 || |Strip(text)| < 10 {
      return Analysis(0.0, Neutral, 0.0, Some(if Truthy(language) then language.value else "unknown"), None, None);
    }
    var lang := if Truthy(language) then language.value else DetectLanguage(text);
    var t := Take(text, 512);
    var model := ModelVerdict(t, lang, pipeline);
    if model.Some? {
      return model.value;
    }
    r := RuleBasedSentiment(t, lang);
  }

  /** A text whose stripped form is shorter than ten characters is neutral
      with zero confidence, and its language is the given one or "unknown". */
  lemma ShortTextIsNeutral(text: string, language: Option<string>, pipeline: Pipeline)
    requires |Strip(text)| < 10
    ensures AnalyzeSpec(text, language, pipeline).score == 0.0
    ensures AnalyzeSpec(text, language, pipeline).polarity == Neutral
    ensures AnalyzeSpec(text, language, pipeline).confidence == 0.0
    ensures !Truthy(language) ==> AnalyzeSpec(text, language, pipeline).language == Some("unknown")
  {
  }

  /** Only the first 512 characters are scored: with the language given,
      text after them changes nothing. */
  lemma TruncationIgnoresTail(text: string, tail: string, language: Option<string>, pipeline: Pipeline)
    requires |text| >= 512 && Truthy(language)
    requires |Strip(text)| >= 10 && |Strip(text + tail)| >= 10
    ensures AnalyzeSpec(text + tail, language, pipeline) == AnalyzeSpec(text, language, pipeline)
  {
    assert Take(text + tail, 512) == Take(text, 512);
  }

  /** A "1 star" … "5 stars" label gives one of the five scores −1, −0.5, 0,
      0.5, 1, labelled accordingly. */
  lemma StarScores(text: string, language: Option<string>, run: string -> Option<PipelineOutput>)
    requires !TooShort(text)
    requires run(Take(text, 512)).Some?
    requires var l := run(Take(text, 512)).value.stars; |l| > 0 && '1' <= l[0] <= '5'
    ensures var a := AnalyzeSpec(text, language, Loaded(run));
      a.score in {-1.0, -0.5, 0.0, 0.5, 1.0} &&
      (a.polarity == Positive <==> a.score > 0.0) && (a.polarity == Negative <==> a.score < 0.0) &&
      a.rawLabel == Some(run(Take(text, 512)).value.stars)
  {
    var t := Take(text, 512);
    var stars := DigitValue(run(t).value.stars[0]).value;
    assert 1 <= stars <= 5;
    assert AnalyzeSpec(text, language, Loaded(run)) == ModelVerdict(t, ChosenLanguage(text, language), Loaded(run)).value;
    StarScoreValues(stars);
  }

  /** The five scores a 1–5 star label can give. */
  lemma StarScoreValues(stars: nat)
    requires 1 <= stars <= 5
    ensures StarScore(stars) in {-1.0, -0.5, 0.0, 0.5, 1.0}
  {
  }

  /** Without a pipeline every long-enough text is scored by the lexicon,
      so the score lies in [−1, 1]; any digit label keeps it in [−1.5, 3]. */
  lemma AnalyzeScoreBounds(text: string, language: Option<string>, pipeline: Pipeline)
    ensures -1.5 <= AnalyzeSpec(text, language, pipeline).score <= 3.0
    ensures pipeline.NoPipeline? ==> -1.0 <= AnalyzeSpec(text, language, pipeline).score <= 1.0
    ensures pipeline.NoPipeline? ==> (UsesRules(text, language, pipeline) <==> !TooShort(text))
  {
    if !TooShort(text) {
      var t := Take(text, 512);
      var lang := ChosenLanguage(text, language);
      var m := ModelVerdict(t, lang, pipeline);
      if m.Some? {
        var out := pipeline.run(t).value;
        var stars := DigitValue(out.stars[0]).value;
        assert m.value.score == StarScore(stars);
      }
    }
  }

  // ---------------------------------------------------------------------
  // Articles

  /** A news article as a dictionary; `None` is an absent key. */
  datatype Article = Article(
    title: Option<string>,
    content: Option<string>,
    description: Option<string>,
    language: Option<string>,
    url: Option<string>,
    date: Option<string>,
    source: Option<string>,
    stockCode: Option<string>)

  datatype ArticleAnalysis = ArticleAnalysis(
    score: real,
    polarity: Label,
    confidence: real,
    language: string,
    titleSentiment: Analysis,
    url: string,
    date: string,
    source: string,
    stockCode: string)

  function TitleOf(a: Article): string
  {
    a.title.GetOr("")
  }

  /** `content`, else `description`, else "". */
  function ContentOf(a: Article): string
  {
    a.content.GetOr(a.description.GetOr(""))
  }

  /** The article's language, detected on title + " " + content when absent. */
  function ArticleLanguage(a: Article): string
  {
    a.language.GetOr(DetectLanguage(TitleOf(a) + " " + ContentOf(a)))
  }

  /** Content is scored only when it is longer than 50 characters. */
  predicate HasLongContent(a: Article)
  {
    |ContentOf(a)| > 50
  }

  /** Title weighs 1.5 against content 1. */
  function CombineScores(title: real, content: real): (r: real)
    ensures Min(title, content) <= r <= Max(title, content)
  {
    (title * 1.5 + content) / 2.5
  }

  /** The blend of analyze_article: the title's analysis, and the content's
      when the content is long enough, into one article record. */
  function Combine(a: Article, language: string, title: Analysis, content: Option<Analysis>): ArticleAnalysis
  {
    var score := if content.Some? then CombineScores(title.score, content.value.score) else title.score;
    var confidence := if content.Some? then (title.confidence + content.value.confidence) / 2.0
                      else title.confidence * 0.7;
    ArticleAnalysis(score, LabelFor(score), confidence, language, title,
                    a.url.GetOr(""), a.date.GetOr(""), a.source.GetOr(""), a.stockCode.GetOr(""))
  }

  /** The blend reads only the scores and confidences: analyses that differ
      in their matched terms alone give the same record up to the title. */
  lemma CombineIgnoresMatched(a: Article, language: string, title: Analysis, title': Analysis,
                              content: Option<Analysis>, content': Option<Analysis>)
    requires title.(matched := None) == title'.(matched := None)
    requires content.Some? <==> content'.Some?
    requires content.Some? ==> content.value.(matched := None) == content'.value.(matched := None)
    ensures Combine(a, language, title, content).(titleSentiment := title') == Combine(a, language, title', content')
  {
    assert title.score == title'.score && title.confidence == title'.confidence;
    if content.Some? {
      assert content.value.score == content'.value.score;
      assert content.value.confidence == content'.value.confidence;
    }
  }

  /** The deterministic part of analyze_article. */
  function ArticleSpec(a: Article, pipeline: Pipeline): ArticleAnalysis
  {
    var language := ArticleLanguage(a);
    var content := if HasLongContent(a)
      then Some(AnalyzeSpec(Take(ContentOf(a), 1000), Some(language), pipeline)) else None;
    Combine(a, language, AnalyzeSpec(TitleOf(a), Some(language), pipeline), content)
  }

  /** What analyze_article returns for `a`. */
  predicate IsArticleAnalysis(r: ArticleAnalysis, a: Article, pipeline: Pipeline)
  {
    var s := ArticleSpec(a, pipeline);
    r.(titleSentiment := s.titleSentiment) == s &&
    IsAnalysis(r.titleSentiment, TitleOf(a), Some(ArticleLanguage(a)), pipeline)
  }

  /** analyze_article. */
  method AnalyzeArticle(article: Article, pipeline: Pipeline) returns (r: ArticleAnalysis)
    ensures IsArticleAnalysis(r, article, pipeline)
  {
    var title := article.title.GetOr("");
    var content := article.content.GetOr(article.description.GetOr(""));
    var language := article.language.GetOr(DetectLanguage(title + " " + content));
    var titleResult := Analyze(title, Some(language), pipeline);
    var contentResult: Option<Analysis> := None;
    if |content| > 50 {
      var result := Analyze(Take(content, 1000), Some(language), pipeline);
      contentResult := Some(result);
    }
    r := Combine(article, language, titleResult, contentResult);
    CombineIgnoresMatched(article, language, titleResult, AnalyzeSpec(title, Some(language), pipeline),
                          contentResult, if |content| > 50 then Some(AnalyzeSpec(Take(content, 1000), Some(language), pipeline)) else None);
  }

  /** analyze_batch: one analysis per article, in order. */
  method AnalyzeBatch(articles: seq<Article>, pipeline: Pipeline) returns (r: seq<ArticleAnalysis>)
    ensures |r| == |articles|
    ensures forall i {:trigger IsArticleAnalysis(r[i], articles[i], pipeline)} :: 0 <= i < |r| ==> IsArticleAnalysis(r[i], articles[i], pipeline)
  {
    r := [];
    var i := 0;
    while i < |articles|
      invariant 0 <= i <= |articles| && |r| == i
      invariant forall k {:trigger IsArticleAnalysis(r[k], articles[k], pipeline)} :: 0 <= k < i ==> IsArticleAnalysis(r[k], articles[k], pipeline)
    {
      var one := AnalyzeArticle(articles[i], pipeline);
      var r' := r + [one];
      forall k | 0 <= k < i + 1
        ensures IsArticleAnalysis(r'[k], articles[k], pipeline)
      {
        if k < i {
          assert r'[k] == r[k];
        } else {
          assert r'[k] == one;
        }
      }
      r := r';
      i := i + 1;
    }
  }

  /** Without a pipeline an article's score lies in [−1, 1] and its
      confidence in [0, 1]; a title-only article keeps 70% of the title's
      confidence. */
  lemma ArticleBounds(a: Article)
    ensures -1.0 <= ArticleSpec(a, NoPipeline).score <= 1.0
    ensures 0.0 <= ArticleSpec(a, NoPipeline).confidence <= 1.0
    ensures !HasLongContent(a) ==>
      ArticleSpec(a, NoPipeline).confidence == 0.7 * ArticleSpec(a, NoPipeline).titleSentiment.confidence
  {
    var language := ArticleLanguage(a);
    AnalyzeScoreBounds(TitleOf(a), Some(language), NoPipeline);
    AnalyzeScoreBounds(Take(ContentOf(a), 1000), Some(language), NoPipeline);
    AnalyzeConfidenceBounds(TitleOf(a), Some(language));
    AnalyzeConfidenceBounds(Take(ContentOf(a), 1000), Some(language));
  }

  lemma AnalyzeConfidenceBounds(text: string, language: Option<string>)
    ensures 0.0 <= AnalyzeSpec(text, language, NoPipeline).confidence <= 1.0
  {
  }

  // ---------------------------------------------------------------------
  // Aggregation

  /** The weight 0.8^i of the i-th article. */
  function Decay(i: nat): (w: real)
    ensures 0.0 < w <= 1.0
  {
    if i == 0 then 1.0 else 0.8 * Decay(i - 1)
  }

  /** Earlier articles weigh strictly more. */
  lemma DecayDecreasing(i: nat)
    ensures Decay(i + 1) < Decay(i)
  {
  }

  /** Σ 0.8^i · s[i]. */
  function WeightedSum(s: seq<real>): real
  {
    if |s| == 0 then 0.0 else WeightedSum(s[..|s| - 1]) + Decay(|s| - 1) * s[|s| - 1]
  }

  /** Σ_{i<n} 0.8^i. */
  function TotalWeight(n: nat): (t: real)
    ensures n > 0 ==> t > 0.0
    ensures t >= 0.0
  {
    if n == 0 then 0.0 else TotalWeight(n - 1) + Decay(n - 1)
  }

  /** numpy.average with weights 0.8^i. */
  function WeightedMean(s: seq<real>): real
    requires |s| > 0
  {
    WeightedSum(s) / TotalWeight(|s|)
  }

  lemma MulMono(w: real, x: real, y: real)
    requires w >= 0.0 && x <= y
    ensures w * x <= w * y
  {
  }

  lemma WeightedSumBounds(s: seq<real>, lo: real, hi: real)
    requires forall i :: 0 <= i < |s| ==> lo <= s[i] <= hi
    ensures lo * TotalWeight(|s|) <= WeightedSum(s) <= hi * TotalWeight(|s|)
  {
    WeightedSumAbove(s, lo);
    WeightedSumBelow(s, hi);
  }

  /** Scores of at least lo give a weighted sum of at least lo times the
      total weight. */
  lemma {:induction false} WeightedSumAbove(s: seq<real>, lo: real)
    requires forall i :: 0 <= i < |s| ==> lo <= s[i]
    ensures lo * TotalWeight(|s|) <= WeightedSum(s)
  {
    if |s| > 0 {
      var front := s[..|s| - 1];
      assert forall i :: 0 <= i < |front| ==> front[i] == s[i];
      WeightedSumAbove(front, lo);
      StepAbove(WeightedSum(front), TotalWeight(|s| - 1), Decay(|s| - 1), s[|s| - 1], lo, TotalWeight(|s|), WeightedSum(s));
    }
  }

  /** Scores of at most hi give a weighted sum of at most hi times the
      total weight. */
  lemma {:induction false} WeightedSumBelow(s: seq<real>, hi: real)
    requires forall i :: 0 <= i < |s| ==> s[i] <= hi
    ensures WeightedSum(s) <= hi * TotalWeight(|s|)
  {
    if |s| > 0 {
      var front := s[..|s| - 1];
      assert forall i :: 0 <= i < |front| ==> front[i] == s[i];
      WeightedSumBelow(front, hi);
      StepBelow(WeightedSum(front), TotalWeight(|s| - 1), Decay(|s| - 1), s[|s| - 1], hi, TotalWeight(|s|), WeightedSum(s));
    }
  }

  /** Adding a weighted score of at least lo keeps a weighted sum above lo
      times the larger total weight. */
  lemma StepAbove(sum: real, t: real, d: real, x: real, lo: real, total: real, next: real)
    requires lo * t <= sum && d >= 0.0 && lo <= x
    requires total == t + d && next == sum + d * x
    ensures lo * total <= next
  {
    MulMono(d, lo, x);
    Distribute(lo, t, d);
  }

  /** Adding a weighted score of at most hi keeps a weighted sum below hi
      times the larger total weight. */
  lemma StepBelow(sum: real, t: real, d: real, x: real, hi: real, total: real, next: real)
    requires sum <= hi * t && d >= 0.0 && x <= hi
    requires total == t + d && next == sum + d * x
    ensures next <= hi * total
  {
    MulMono(d, x, hi);
    Distribute(hi, t, d);
  }

  lemma Distribute(x: real, a: real, b: real)
    ensures x * (a + b) == x * a + b * x
  {
  }

  /** The weighted mean of scores in [lo, hi] lies in [lo, hi]. */
  lemma WeightedMeanBounds(s: seq<real>, lo: real, hi: real)
    requires |s| > 0
    requires forall i :: 0 <= i < |s| ==> lo <= s[i] <= hi
    ensures lo <= WeightedMean(s) <= hi
  {
    WeightedSumBounds(s, lo, hi);
    QuotientBounds(WeightedSum(s), TotalWeight(|s|), lo, hi);
  }

  /** A sum between lo·t and hi·t, divided by a positive t, lies in [lo, hi]. */
  lemma QuotientBounds(sum: real, t: real, lo: real, hi: real)
    requires t > 0.0 && lo * t <= sum <= hi * t
    ensures lo <= sum / t <= hi
  {
    assert sum / t * t == sum;
    if sum / t < lo { MulMono(t, sum / t, lo); }
    if sum / t > hi { MulMono(t, hi, sum / t); }
  }

  /** Equal scores average to that score. */
  lemma WeightedMeanConstant(s: seq<real>, c: real)
    requires |s| > 0
    requires forall i :: 0 <= i < |s| ==> s[i] == c
    ensures WeightedMean(s) == c
  {
    WeightedMeanBounds(s, c, c);
  }

  datatype DailySentiment = DailySentiment(
    stock: string,
    date: string,
    score: real,
    polarity: Label,
    confidence: real,
    articleCount: nat,
    articles: seq<ArticleAnalysis>)

  function ArticleScores(r: seq<ArticleAnalysis>): (s: seq<real>)
    ensures |s| == |r| && forall i :: 0 <= i < |r| ==> s[i] == r[i].score
  {
    seq(|r|, i requires 0 <= i < |r| => r[i].score)
  }

  function ArticleConfidences(r: seq<ArticleAnalysis>): (s: seq<real>)
    ensures |s| == |r| && forall i :: 0 <= i < |r| ==> s[i] == r[i].confidence
  {
    seq(|r|, i requires 0 <= i < |r| => r[i].confidence)
  }

  function ArticleSpecs(articles: seq<Article>, pipeline: Pipeline): (r: seq<ArticleAnalysis>)
    ensures |r| == |articles| && forall i :: 0 <= i < |r| ==> r[i] == ArticleSpec(articles[i], pipeline)
  {
    seq(|articles|, i requires 0 <= i < |articles| => ArticleSpec(articles[i], pipeline))
  }

  /** The summary of a non-empty list of analyses: the weighted mean score,
      its label, the mean confidence averaged with the article-count
      confidence, the count and the first five analyses. */
  function Summary(stock: string, today: string, analyzed: seq<ArticleAnalysis>): DailySentiment
    requires |analyzed| > 0
  {
    var score := WeightedMean(ArticleScores(analyzed));
    var articleConfidence := Min(|analyzed| as real / 5.0, 1.0);
    var confidence := (Mean(ArticleConfidences(analyzed)) + articleConfidence) / 2.0;
    DailySentiment(stock, today, score, LabelFor(score), confidence, |analyzed|, Take(analyzed, 5))
  }

  /** The deterministic part of calculate_daily_sentiment; `today` is the
      formatted current date. */
  function DailySpec(stock: string, articles: seq<Article>, today: string, pipeline: Pipeline): DailySentiment
  {
    if |articles| == 0 then DailySentiment(stock, today, 0.0, Neutral, 0.0, 0, [])
    else Summary(stock, today, ArticleSpecs(articles, pipeline))
  }

  /** Analyses of the articles carry the scores and confidences of their
      specifications. */
  lemma SameScores(analyzed: seq<ArticleAnalysis>, articles: seq<Article>, pipeline: Pipeline)
    requires |analyzed| == |articles|
    requires forall i {:trigger IsArticleAnalysis(analyzed[i], articles[i], pipeline)} :: 0 <= i < |analyzed| ==> IsArticleAnalysis(analyzed[i], articles[i], pipeline)
    ensures ArticleScores(analyzed) == ArticleScores(ArticleSpecs(articles, pipeline))
    ensures ArticleConfidences(analyzed) == ArticleConfidences(ArticleSpecs(articles, pipeline))
  {
    var specs := ArticleSpecs(articles, pipeline);
    forall i | 0 <= i < |analyzed|
      ensures analyzed[i].score == specs[i].score && analyzed[i].confidence == specs[i].confidence
    {
      assert IsArticleAnalysis(analyzed[i], articles[i], pipeline);
      SpecFields(analyzed[i], specs[i]);
    }
    SameFields(analyzed, specs);
  }

  /** A result equal to a specification up to the title analysis has its
      score and confidence. */
  lemma SpecFields(r: ArticleAnalysis, s: ArticleAnalysis)
    requires r.(titleSentiment := s.titleSentiment) == s
    ensures r.score == s.score && r.confidence == s.confidence
  {
  }

  lemma SameFields(a: seq<ArticleAnalysis>, b: seq<ArticleAnalysis>)
    requires |a| == |b|
    requires forall i :: 0 <= i < |a| ==> a[i].score == b[i].score && a[i].confidence == b[i].confidence
    ensures ArticleScores(a) == ArticleScores(b) && ArticleConfidences(a) == ArticleConfidences(b)
  {
  }

  /** What calculate_daily_sentiment returns. */
  predicate IsDailySentiment(r: DailySentiment, stock: string, articles: seq<Article>, today: string, pipeline: Pipeline)
  {
    var s := DailySpec(stock, articles, today, pipeline);
    r.(articles := s.articles) == s &&
    |r.articles| == |s.articles| &&
    (forall i {:trigger IsArticleAnalysis(r.articles[i], articles[i], pipeline)} :: 0 <= i < |r.articles| ==> IsArticleAnalysis(r.articles[i], articles[i], pipeline))
  }

  /** StockSentimentAggregator.calculate_daily_sentiment. */
  method CalculateDailySentiment(stock: string, articles: seq<Article>, today: string, pipeline: Pipeline)
    returns (r: DailySentiment)
    ensures IsDailySentiment(r, stock, articles, today, pipeline)
  {
    if |articles| == 0 {
      return DailySentiment(stock, today, 0.0, Neutral, 0.0, 0, []);
    }
    var analyzed := AnalyzeBatch(articles, pipeline);
    var weightedScore := WeightedMean(ArticleScores(analyzed));
    var avgConfidence := Mean(ArticleConfidences(analyzed));
    var articleConfidence := Min(|articles| as real / 5.0, 1.0);
    var finalConfidence := (avgConfidence + articleConfidence) / 2.0;
    r := DailySentiment(stock, today, weightedScore, LabelFor(weightedScore), finalConfidence,
                        |articles|, Take(analyzed, 5));
    assert r == Summary(stock, today, analyzed);
    DailyOfAnalyses(stock, articles, today, pipeline, analyzed);
  }

  /** The summary of analyses of the articles is their daily sentiment. */
  lemma DailyOfAnalyses(stock: string, articles: seq<Article>, today: string, pipeline: Pipeline,
                        analyzed: seq<ArticleAnalysis>)
    requires |articles| > 0 && |analyzed| == |articles|
    requires forall i {:trigger IsArticleAnalysis(analyzed[i], articles[i], pipeline)} :: 0 <= i < |analyzed| ==> IsArticleAnalysis(analyzed[i], articles[i], pipeline)
    ensures IsDailySentiment(Summary(stock, today, analyzed), stock, articles, today, pipeline)
  {
    var specs := ArticleSpecs(articles, pipeline);
    SameScores(analyzed, articles, pipeline);
    SummaryCongruence(stock, today, analyzed, specs);
    var p := (x: ArticleAnalysis, a: Article) => IsArticleAnalysis(x, a, pipeline);
    TakeKeeps(analyzed, articles, 5, p);
  }

  /** Summaries of analyses with the same scores and confidences differ at
      most in the analyses they keep. */
  lemma SummaryCongruence(stock: string, today: string, a: seq<ArticleAnalysis>, b: seq<ArticleAnalysis>)
    requires |a| == |b| > 0
    requires ArticleScores(a) == ArticleScores(b) && ArticleConfidences(a) == ArticleConfidences(b)
    ensures Summary(stock, today, a).(articles := Take(b, 5)) == Summary(stock, today, b)
    ensures Summary(stock, today, a).articles == Take(a, 5)
  {
  }

  /** Without a pipeline the daily score lies in [−1, 1] and the confidence
      in [0, 1]; at most five analysed articles are kept. */
  lemma {:induction false} DailyBounds(stock: string, articles: seq<Article>, today: string)
    ensures var d := DailySpec(stock, articles, today, NoPipeline);
      -1.0 <= d.score <= 1.0 && 0.0 <= d.confidence <= 1.0 && |d.articles| <= 5 &&
      d.articleCount == |articles|
  {
    if |articles| > 0 {
      var analyzed := ArticleSpecs(articles, NoPipeline);
      forall i | 0 <= i < |articles|
        ensures -1.0 <= analyzed[i].score <= 1.0 && 0.0 <= analyzed[i].confidence <= 1.0
      {
        ArticleBounds(articles[i]);
      }
      WeightedMeanBounds(ArticleScores(analyzed), -1.0, 1.0);
      MeanBounds(ArticleConfidences(analyzed), 0.0, 1.0);
    }
  }

  /** One entry of the per-stock list given to get_market_sentiment; a
      missing `article_count` key is None. */
  datatype StockScore = StockScore(score: real, articleCount: Option<int>)

  datatype MarketSentiment = MarketSentiment(
    date: string,
    score: real,
    mood: Mood,
    confidence: real,
    stocksWithNews: Option<nat>,
    totalStocks: Option<nat>)

  predicate HasArticles(s: StockScore)
  {
    s.articleCount.Some? && s.articleCount.value > 0
  }

  function Scores(s: seq<StockScore>): (r: seq<real>)
    ensures |r| == |s| && forall i :: 0 <= i < |s| ==> r[i] == s[i].score
  {
    seq(|s|, i requires 0 <= i < |s| => s[i].score)
  }

  /** StockSentimentAggregator.get_market_sentiment: a KeyError when an entry
      lacks `article_count`; neutral zero when no stock has articles;
      otherwise the mean score of the stocks with articles, with the
      contributing fraction as confidence. */
  function GetMarketSentiment(all: seq<StockScore>, today: string): (r: Result<MarketSentiment, string>)
    ensures r.Err? <==> |all| > 0 && exists i :: 0 <= i < |all| && all[i].articleCount.None?
    ensures r.Ok? && Count(all, HasArticles) == 0 ==>
      r.value == MarketSentiment(today, 0.0, Calm, 0.0, None, None)
    ensures r.Ok? && Count(all, HasArticles) > 0 ==>
      r.value.score == Mean(Scores(Filter(all, HasArticles))) &&
      r.value.mood == MoodFor(r.value.score) &&
      r.value.confidence == Count(all, HasArticles) as real / |all| as real &&
      0.0 < r.value.confidence <= 1.0 &&
      r.value.stocksWithNews == Some(Count(all, HasArticles)) && r.value.totalStocks == Some(|all|)
  {
    if |all| == 0 then Ok(MarketSentiment(today, 0.0, Calm, 0.0, None, None))
    else if exists i :: 0 <= i < |all| && all[i].articleCount.None? then Err("KeyError: 'article_count'")
    else
      var contributing := Filter(all, HasArticles);
      if |contributing| == 0 then Ok(MarketSentiment(today, 0.0, Calm, 0.0, None, None))
      else
        var avg := Mean(Scores(contributing));
        RatioBounds(|contributing| as real, |all| as real);
        Ok(MarketSentiment(today, avg, MoodFor(avg), |contributing| as real / |all| as real,
                           Some(|contributing|), Some(|all|)))
  }

  /** The market score lies between the extreme contributing stock scores. */
  lemma MarketScoreBounds(all: seq<StockScore>, today: string, lo: real, hi: real)
    requires forall i :: 0 <= i < |all| ==> lo <= all[i].score <= hi
    requires lo <= 0.0 <= hi
    requires GetMarketSentiment(all, today).Ok?
    ensures lo <= GetMarketSentiment(all, today).value.score <= hi
  {
    var contributing := Filter(all, HasArticles);
    if |contributing| > 0 {
      MeanBounds(Scores(contributing), lo, hi);
    }
  }
}
