// The news components: the sentiment badge of an article, the article card,
// the list of cards with its loading and empty states, the sentiment
// summary card and the sentiment timeline with its mock fallback. Locale
// date formatting, the clock and Math.random's draws are inputs.

module NewsCard {
  import opened Common
  import opened Text
  import opened StockData

  // ---------------------------------------------------------------------
  // Sentiment badge

  /** The badge of a sentiment label: its colour variant, its icon and its
      text. */
  datatype SentimentConfig = SentimentConfig(variant: string, icon: string, text: string)

  const PositiveConfig: SentimentConfig := SentimentConfig("success", "TrendingUp", "Positive")
  const NegativeConfig: SentimentConfig := SentimentConfig("danger", "TrendingDown", "Negative")
  const NeutralConfig: SentimentConfig := SentimentConfig("default", "Minus", "Neutral")

  /** getSentimentConfig: success for 'positive', danger for 'negative',
      and the neutral badge for anything else, a missing label included. */
  function SentimentConfigOf(sentimentLabel: Option<string>): (c: SentimentConfig)
    ensures c == PositiveConfig <==> sentimentLabel == Some("positive")
    ensures c == NegativeConfig <==> sentimentLabel == Some("negative")
    ensures c == NeutralConfig <==> sentimentLabel != Some("positive") && sentimentLabel != Some("negative")
  {
    match sentimentLabel
    case Some("positive") => PositiveConfig
    case Some("negative") => NegativeConfig
    case _ => NeutralConfig
  }

  // ---------------------------------------------------------------------
  // Article card

  /** An article as the API returns it; the optional fields may be missing
      or null. */
  datatype Article = Article(
    id: Option<int>, url: Option<string>, title: string,
    content: Option<string>, source: string, date: Option<string>,
    language: string, sentimentLabel: Option<string>, sentimentScore: Option<real>)

  /** The number of characters of the content the card previews. */
  const PreviewLength: nat := 150

  /** formatDate: the empty string for an empty date, otherwise the locale
      rendering, a parameter here. */
  function FormatDate(dateStr: string, localeDate: string -> string): (r: string)
    ensures dateStr == "" ==> r == ""
    ensures dateStr != "" ==> r == localeDate(dateStr)
  {
    if dateStr == "" then "" else localeDate(dateStr)
  }

  /** What a card shows. */
  datatype CardView = CardView(
    badge: SentimentConfig, arabicBadge: bool, direction: string,
    preview: Option<string>, date: Option<string>,
    scorePercent: Option<real>, link: Option<string>)

  /** The content preview: the first 150 characters followed by "...". */
  function Preview(content: string): (p: string)
    ensures |p| == MinInt(|content|, PreviewLength) + 3
    ensures p[..|p| - 3] == Take(content, PreviewLength) && p[|p| - 3..] == "..."
    ensures |content| <= PreviewLength ==> p == content + "..."
  {
    Take(content, PreviewLength) + "..."
  }

  /** NewsCard: the sentiment badge, the AR badge and right-to-left text for
      Arabic articles, the preview only for a non-empty content, the date
      only when there is one, the score unless it is null, and the link only
      for a non-empty url. */
  function CardOf(a: Article, localeDate: string -> string): (v: CardView)
    ensures v.badge == SentimentConfigOf(a.sentimentLabel)
    ensures v.arabicBadge <==> a.language == "ar"
    ensures v.direction == (if a.language == "ar" then "rtl" else "ltr")
    ensures v.preview.Some? <==> a.content.Some? && a.content.value != ""
    ensures v.preview.Some? ==> v.preview.value == Preview(a.content.value)
    ensures v.date.Some? <==> a.date.Some? && a.date.value != ""
    ensures v.date.Some? ==> v.date.value == localeDate(a.date.value)
    ensures v.scorePercent.Some? <==> a.sentimentScore.Some?
    ensures v.scorePercent.Some? ==> v.scorePercent.value == a.sentimentScore.value * 100.0
    ensures v.link.Some? <==> a.url.Some? && a.url.value != ""
    ensures v.link.Some? ==> v.link == a.url
  {
    var isArabic := a.language == "ar";
    CardView(
      SentimentConfigOf(a.sentimentLabel),
      isArabic,
      if isArabic then "rtl" else "ltr",
      if a.content.Some? && a.content.value != "" then Some(Preview(a.content.value)) else None,
      if a.date.Some? && a.date.value != "" then Some(FormatDate(a.date.value, localeDate)) else None,
      if a.sentimentScore.Some? then Some(a.sentimentScore.value * 100.0) else None,
      if a.url.Some? && a.url.value != "" then a.url else None)
  }

  // ---------------------------------------------------------------------
  // Article list

  /** The React key of a card: the id unless it is missing or 0, otherwise
      the url. */
  datatype CardKey = IdKey(id: int) | UrlKey(url: Option<string>)

  function KeyOf(a: Article): (k: CardKey)
    ensures k.IdKey? <==> a.id.Some? && a.id.value != 0
    ensures k.IdKey? ==> k.id == a.id.value
    ensures k.UrlKey? ==> k.url == a.url
  {
    if a.id.Some? && a.id.value != 0 then IdKey(a.id.value) else UrlKey(a.url)
  }

  /** What the list shows. */
  datatype ListView = Skeletons(count: nat) | EmptyCard(message: string) | Cards(cards: seq<CardView>, keys: seq<CardKey>)

  const DefaultEmptyMessage: string := "No news available"

  /** NewsList: three placeholder cards while loading, the empty message for
      missing or empty articles, and otherwise one card per article in order. */
  function NewsListView(articles: Option<seq<Article>>, loading: bool, emptyMessage: string,
                        localeDate: string -> string): (v: ListView)
    ensures loading ==> v == Skeletons(3)
    ensures !loading && (articles.None? || |articles.value| == 0) ==> v == EmptyCard(emptyMessage)
    ensures !loading && articles.Some? && |articles.value| > 0 ==>
      v.Cards? && |v.cards| == |v.keys| == |articles.value|
    ensures v.Cards? ==> articles.Some?
    ensures v.Cards? ==> forall i :: 0 <= i < |v.cards| ==>
      v.cards[i] == CardOf(articles.value[i], localeDate) && v.keys[i] == KeyOf(articles.value[i])
  {
    if loading then Skeletons(3)
    else if articles.None? || |articles.value| == 0 then EmptyCard(emptyMessage)
    else
      var arts := articles.value;
      Cards(seq(|arts|, i requires 0 <= i < |arts| => CardOf(arts[i], localeDate)),
            seq(|arts|, i requires 0 <= i < |arts| => KeyOf(arts[i])))
  }

  /** The list shows cards exactly when it is not loading and has articles. */
  lemma ListShowsCardsIff(articles: Option<seq<Article>>, loading: bool, emptyMessage: string,
                          localeDate: string -> string)
    ensures NewsListView(articles, loading, emptyMessage, localeDate).Cards? <==>
      !loading && articles.Some? && |articles.value| > 0
  {
  }

  // ---------------------------------------------------------------------
  // Sentiment summary

  /** The summary of a stock's news sentiment. */
  datatype Summary = Summary(sentimentLabel: Option<string>, averageScore: real, articleCount: nat, periodDays: nat)

  /** What the summary card shows. */
  datatype SummaryView = SummarySkeleton | NoSummary | SummaryCard(badge: SentimentConfig, percent: real, count: nat, days: nat)

  /** SentimentSummary: a placeholder while loading, nothing without a
      summary, otherwise its badge, its average score as a percentage, its
      article count and its period. */
  function SummaryViewOf(sentiment: Option<Summary>, loading: bool): (v: SummaryView)
    ensures loading ==> v == SummarySkeleton
    ensures !loading && sentiment.None? ==> v == NoSummary
    ensures !loading && sentiment.Some? ==>
      v.SummaryCard? &&
      v.badge == SentimentConfigOf(sentiment.value.sentimentLabel) &&
      v.percent == sentiment.value.averageScore * 100.0 &&
      v.count == sentiment.value.articleCount && v.days == sentiment.value.periodDays
  {
    if loading then SummarySkeleton
    else match sentiment
      case None => NoSummary
      case Some(s) => SummaryCard(SentimentConfigOf(s.sentimentLabel), s.averageScore * 100.0, s.articleCount, s.periodDays)
  }

  // ---------------------------------------------------------------------
  // Sentiment timeline

  /** One day of the timeline. */
  datatype Day = Day(date: string, score: real, count: int)

  /** The number of mock days drawn when there is no data. */
  const MockDayCount: nat := 14

  /** The mock timeline: the 14 days up to today, oldest first, each with a
      score `0.3 + r * 0.4` and a count `floor(2 + r * 8)` from two draws;
      `dateBefore(k)` is the ISO date `k` days before today. */
  function MockDays(dateBefore: nat -> string, rand: seq<real>): (days: seq<Day>)
    requires |rand| >= 2 * MockDayCount && Draws(rand)
    ensures |days| == MockDayCount
    ensures forall i :: 0 <= i < |days| ==> days[i].date == dateBefore(13 - i)
    ensures forall i :: 0 <= i < |days| ==> 0.3 <= days[i].score < 0.7
    ensures forall i :: 0 <= i < |days| ==> 2 <= days[i].count <= 9
  {
    seq(MockDayCount, i requires 0 <= i < MockDayCount =>
      Day(dateBefore(13 - i), 0.3 + rand[2 * i] * 0.4, (2.0 + rand[2 * i + 1] * 8.0).Floor))
  }

  /** The colour class of a day. */
  datatype Mood = Positive | Negative | Neutral

  /** A day of the drawn timeline: its percentage and its class. */
  datatype TimelinePoint = TimelinePoint(day: Day, displayScore: real, mood: Mood)

  /** The class of a score: positive above 0.55, negative below 0.45,
      neutral in between. */
  function MoodOf(score: real): (m: Mood)
    ensures m == Positive <==> score > 0.55
    ensures m == Negative <==> score < 0.45
    ensures m == Neutral <==> 0.45 <= score <= 0.55
  {
    if score > 0.55 then Positive else if score < 0.45 then Negative else Neutral
  }

  /** formattedData: each day with its score as a percentage and its class. */
  function Formatted(days: seq<Day>): (pts: seq<TimelinePoint>)
    ensures |pts| == |days|
    ensures forall i :: 0 <= i < |pts| ==> pts[i].day == days[i]
    ensures forall i :: 0 <= i < |pts| ==> pts[i].displayScore == days[i].score * 100.0
    ensures forall i :: 0 <= i < |pts| ==> pts[i].mood == MoodOf(days[i].score)
  {
    seq(|days|, i requires 0 <= i < |days| =>
      TimelinePoint(days[i], days[i].score * 100.0, MoodOf(days[i].score)))
  }

  /** The class read off the percentage the chart draws: positive above 55,
      negative below 45, agreeing with the dashed line at 50. */
  lemma MoodMatchesPercentage(days: seq<Day>, i: int)
    requires 0 <= i < |days|
    ensures Formatted(days)[i].mood == Positive <==> Formatted(days)[i].displayScore > 55.0
    ensures Formatted(days)[i].mood == Negative <==> Formatted(days)[i].displayScore < 45.0
    ensures Formatted(days)[i].displayScore > 50.0 ==> Formatted(days)[i].mood != Negative
    ensures Formatted(days)[i].displayScore < 50.0 ==> Formatted(days)[i].mood != Positive
  {
  }

  /** SentimentTimeline's points: the given days, or the mock days when
      there are none. */
  function TimelineOf(data: Option<seq<Day>>, dateBefore: nat -> string, rand: seq<real>): (pts: seq<TimelinePoint>)
    requires |rand| >= 2 * MockDayCount && Draws(rand)
    ensures data.Some? && |data.value| > 0 ==> pts == Formatted(data.value)
    ensures data.None? || |data.value| == 0 ==> pts == Formatted(MockDays(dateBefore, rand))
    ensures |pts| > 0
  {
    if data.None? || |data.value| == 0 then Formatted(MockDays(dateBefore, rand))
    else Formatted(data.value)
  }

  /** Without data every mock point lies between 30 % and 70 %, so the mock
      timeline can show any of the three classes. */
  lemma MockTimelineRange(dateBefore: nat -> string, rand: seq<real>)
    requires |rand| >= 2 * MockDayCount && Draws(rand)
    ensures |TimelineOf(None, dateBefore, rand)| == MockDayCount
    ensures forall i :: 0 <= i < MockDayCount ==>
      30.0 <= TimelineOf(None, dateBefore, rand)[i].displayScore < 70.0
  {
  }

  /** The date axis label `${parts[2]}/${parts[1]}`: a missing piece reads
      "undefined". */
  function TimelineTick(value: string): (tick: string)
  {
    var parts := Split(value, '-');
    (if |parts| > 2 then parts[2] else "undefined") + "/" + (if |parts| > 1 then parts[1] else "undefined")
  }

  /** An ISO date is labelled day/month. */
  lemma TimelineTickOfIsoDate(y: string, m: string, d: string)
    requires forall j :: 0 <= j < |y| ==> y[j] != '-'
    requires forall j :: 0 <= j < |m| ==> m[j] != '-'
    requires forall j :: 0 <= j < |d| ==> d[j] != '-'
    ensures TimelineTick(y + "-" + m + "-" + d) == d + "/" + m
  {
    var parts := [y, m, d];
    assert Join(parts, "-") == y + "-" + m + "-" + d by {
      assert Join(parts[1..], "-") == m + "-" + Join(parts[2..], "-");
    }
    SplitJoin(parts, '-');
  }
}
