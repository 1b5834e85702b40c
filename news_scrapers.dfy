/** The news scrapers: for each site, the search URLs, which links become
    articles, the title filters and the date each article is given; the
    per-stock aggregation with its de-duplication by URL; and the article
    pages' parsing. Fetching a page is a function from URL to the parsed
    page (or None when the request fails); the current date is a
    parameter. */
module NewsScrapers {
  import opened Common
  import opened Text
  import opened Numbers
  import DataLoader

  // ---------------------------------------------------------------------
  // Keywords

  const StockKeywords: seq<(string, seq<string>)> := [
    ("SFBT", ["SFBT", "Societe Frigorifique", "Brasserie de Tunis", "boisson"]),
    ("BIAT", ["BIAT", "Banque Internationale Arabe", "banque arabe tunisie"]),
    ("BT", ["Banque de Tunisie", "BT banque"]),
    ("ATTIJARI BANK", ["Attijari", "Attijari Bank", "Wafa"]),
    ("STB", ["STB", "Societe Tunisienne de Banque"]),
    ("BNA", ["BNA", "Banque Nationale Agricole"]),
    ("AMEN BANK", ["Amen Bank", "Amen banque"]),
    ("UIB", ["UIB", "Union Internationale de Banques"]),
    ("SAH", ["SAH", "Lilas", "SAH Lilas", "cosmetique lilas"]),
    ("DELICE HOLDING", ["Delice", "Delice Holding", "laitier tunisie", "Danone"]),
    ("POULINA GP HOLDING", ["Poulina", "Poulina Group", "aviculture"]),
    ("ONE TECH HOLDING", ["One Tech", "One Tech Holding", "cablage"]),
    ("CARTHAGE CEMENT", ["Carthage Cement", "ciment carthage"]),
    ("EURO-CYCLES", ["Euro Cycles", "Euro-Cycles", "velo tunisie"]),
    ("SOTUVER", ["Sotuver", "verre tunisie", "emballage verre"]),
    ("TUNINDEX", ["TUNINDEX", "bourse tunis", "BVMT", "marche tunisien"])
  ]

  /** The Arabic keywords; the search reads only the first two of each. */
  const StockKeywordsAr: seq<(string, seq<string>)> := [
    ("SFBT", ["سفبت", "الشركة التونسية للمشروبات", "مصانع الجعة بتونس", "مشروبات تونس"]),
    ("BIAT", ["بيات", "البنك الدولي العربي التونسي", "بنك تونس العربي", "نتائج بنكية", "قروض"]),
    ("BT", ["بنك تونس", "البنك التونسي", "أرباح البنك", "القطاع البنكي"]),
    ("ATTIJARI BANK", ["التجاري بنك", "بنك التجاري وفا", "التجاري وفا بنك"]),
    ("STB", ["ستب", "الشركة التونسية للبنك", "إعادة هيكلة", "خسائر", "دعم حكومي"]),
    ("BNA", ["بنك ب ن أ", "البنك الوطني الفلاحي", "تمويل فلاحي", "قروض فلاحية", "استثمارات فلاحية", "دعم القطاع الزراعي"]),
    ("AMEN BANK", ["أمن بنك", "بنك الأمان"]),
    ("UIB", ["يو آي بي", "الاتحاد الدولي للبنوك", "قروض استهلاكية"]),
    ("SAH", ["سه", "ليلاس", "سه ليلاس", "مواد تجميل ليلاس", "سوق مواد التجميل", "منتجات صحية"]),
    ("DELICE HOLDING", ["دليس", "دليس هولدينغ", "منتجات الألبان بتونس", "دانون تونس", "قطاع الألبان"]),
    ("POULINA GP HOLDING", ["بولينا", "مجموعة بولينا", "قطاع الدواجن", "استثمار", "أرباح", "نتائج مالية"]),
    ("ONE TECH HOLDING", ["وان تك", "وان تك هولدينغ", "صادرات صناعية", "توسع صناعي"]),
    ("CARTHAGE CEMENT", ["إسمنت قرطاج", "قطاع الإسمنت", "مشاريع بنية تحتية"]),
    ("EURO-CYCLES", ["يورو سايكل", "صادرات", "مبيعات", "نتائج مالية", "أرباح"]),
    ("SOTUVER", ["سوتوفير", "صناعة الزجاج", "نتائج مالية", "أرباح", "طلب صناعي"]),
    ("TUNINDEX", ["توننداكس", "بورصة تونس", "السوق المالية التونسية", "ارتفاع المؤشر", "انخفاض المؤشر", "تداول", "رسملة سوقية"])
  ]

  /** `table.get(key)` on a dictionary kept as its items in order. */
  function Lookup(table: seq<(string, seq<string>)>, key: string): (r: Option<seq<string>>)
    ensures r.Some? ==> (key, r.value) in table
    ensures r.None? ==> forall i :: 0 <= i < |table| ==> table[i].0 != key
  {
    if |table| == 0 then None
    else if table[0].0 == key then Some(table[0].1)
    else
      Lookup(table[1..], key)
  }

  /** Every stock has at least two keywords. */
  lemma KeywordListsNonEmpty()
    ensures forall e :: e in StockKeywords ==> |e.1| >= 2
  {
  }

  /** Every stock has at least two Arabic keywords. */
  lemma ArabicListsNonEmpty()
    ensures forall e :: e in StockKeywordsAr ==> |e.1| >= 2
  {
  }

  /** The keywords searched for a stock: the first two of its keywords, or
      the code itself for a code without keywords. */
  function SearchKeywords(code: string): (r: seq<string>)
    ensures Lookup(StockKeywords, code).None? ==> r == [code]
    ensures Lookup(StockKeywords, code).Some? ==> r == Take(Lookup(StockKeywords, code).value, 2)
    ensures 1 <= |r| <= 2
  {
    KeywordListsNonEmpty();
    Take(Lookup(StockKeywords, code).GetOr([code]), 2)
  }

  // ---------------------------------------------------------------------
  // Dates found in URLs and in the text around a link

  /** `s[i..i + n]` is `n` decimal digits. */
  predicate DigitsAt(s: string, i: nat, n: nat)
  {
    i + n <= |s| && AllDigits(s[i..i + n])
  }

  /** `/(\d{4})/(\d{2})/(\d{2})/` matches at `i`. */
  predicate DayPathAt(s: string, i: nat)
  {
    i + 12 <= |s| && s[i] == '/' && DigitsAt(s, i + 1, 4) && s[i + 5] == '/' && DigitsAt(s, i + 6, 2)
    && s[i + 8] == '/' && DigitsAt(s, i + 9, 2) && s[i + 11] == '/'
  }

  function DayPathStarts(s: string): nat -> bool
  {
    (i: nat) => DayPathAt(s, i)
  }

  /** The date of a `/YYYY/MM/DD/` URL, as `YYYY-MM-DD`; today's date when
      the URL has none. */
  function UrlDate(href: string, today: string): (r: string)
    ensures (forall j :: 0 <= j < |href| ==> !DayPathAt(href, j)) ==> r == today
    ensures r == today || (|r| == 10 && r[4] == '-' && r[7] == '-')
  {
    var i := FirstWhere(href, DayPathStarts(href));
    if i.None? then today
    else
      var k := i.value;
      href[k + 1..k + 5] + "-" + href[k + 6..k + 8] + "-" + href[k + 9..k + 11]
  }

  /** The path segment `/YYYY/MM/DD/`. */
  function DayPath(y: string, m: string, d: string): string
  {
    "/" + y + "/" + m + "/" + d + "/"
  }

  /** Where the year, month and day sit in a day path. */
  lemma DayPathParts(y: string, m: string, d: string)
    requires |y| == 4 && |m| == 2 && |d| == 2
    ensures var w := DayPath(y, m, d);
      |w| == 12 && w[0] == '/' && w[5] == '/' && w[8] == '/' && w[11] == '/'
      && w[1..5] == y && w[6..8] == m && w[9..11] == d
  {
  }

  /** A slice inside the middle part of `p + w + q`. */
  lemma MiddleSlice(p: string, w: string, q: string, i: nat, j: nat)
    requires i <= j <= |w|
    ensures (p + w + q)[|p| + i..|p| + j] == w[i..j]
  {
    assert forall k :: i <= k < j ==> (p + w + q)[|p| + k] == w[k];
  }

  /** The first `/YYYY/MM/DD/` of a URL gives its date. */
  lemma {:induction false} UrlDateOf(p: string, y: string, m: string, d: string, q: string, today: string)
    requires |y| == 4 && |m| == 2 && |d| == 2 && AllDigits(y) && AllDigits(m) && AllDigits(d)
    requires forall j :: 0 <= j < |p| ==> !DayPathAt(p + DayPath(y, m, d) + q, j)
    ensures UrlDate(p + DayPath(y, m, d) + q, today) == y + "-" + m + "-" + d
  {
    var w := DayPath(y, m, d);
    var s := p + w + q;
    var k := |p|;
    DayPathParts(y, m, d);
    MiddleSlice(p, w, q, 1, 5);
    MiddleSlice(p, w, q, 6, 8);
    MiddleSlice(p, w, q, 9, 11);
    assert s[k] == w[0] && s[k + 5] == w[5] && s[k + 8] == w[8] && s[k + 11] == w[11];
    assert DayPathStarts(s)(k);
    assert forall j :: 0 <= j < k ==> !DayPathStarts(s)(j);
  }

  /** `(\d{2})/(\d{2})/(\d{2,4})` matches at `i`. */
  predicate DmyAt(s: string, i: nat)
  {
    i + 8 <= |s| && DigitsAt(s, i, 2) && s[i + 2] == '/' && DigitsAt(s, i + 3, 2) && s[i + 5] == '/' && DigitsAt(s, i + 6, 2)
  }

  function DmyStarts(s: string): nat -> bool
  {
    (i: nat) => DmyAt(s, i)
  }

  /** The date of ilboursa's `dd/mm/yy` or `dd/mm/yyyy` text, as
      `yyyy-mm-dd` with "20" put before a two-digit year; today's date when
      the text has none. The year takes up to four digits. */
  function IlboursaDate(text: string, today: string): (r: string)
    ensures (forall j :: 0 <= j < |text| ==> !DmyAt(text, j)) ==> r == today
  {
    var i := FirstWhere(text, DmyStarts(text));
    if i.None? then today
    else
      var k := i.value;
      var n := MinInt(4, LeadingSpaces(text[k + 6..], IsDigit));
      var year := text[k + 6..k + 6 + n];
      (if n == 2 then "20" + year else year) + "-" + text[k + 3..k + 5] + "-" + text[k..k + 2]
  }

  /** A digit run at the front is at least as long as its digits. */
  lemma {:induction false} DigitRunAtLeast(a: string, t: string)
    requires AllDigits(a)
    ensures LeadingSpaces(a + t, IsDigit) >= |a|
  {
    if |a| > 0 {
      assert (a + t)[1..] == a[1..] + t;
      DigitRunAtLeast(a[1..], t);
    }
  }

  /** The first `dd/mm/yy` of `p + w + q` is at `|p|` when `w` starts with
      one and `p` holds none. */
  lemma DmyFirstAt(p: string, dd: string, mm: string, rest: string)
    requires |dd| == 2 && |mm| == 2 && |rest| >= 2 && AllDigits(dd) && AllDigits(mm) && AllDigits(rest[..2])
    requires forall j :: 0 <= j < |p| ==> !DmyAt(p + dd + "/" + mm + "/" + rest, j)
    ensures var s := p + dd + "/" + mm + "/" + rest;
      FirstWhere(s, DmyStarts(s)) == Some(|p|) && s[|p|..|p| + 2] == dd && s[|p| + 3..|p| + 5] == mm && s[|p| + 6..] == rest
  {
    var s := p + dd + "/" + mm + "/" + rest;
    var k := |p|;
    DatePieces(p, dd, mm, rest);
    assert DmyAt(s, k) by {
      assert s[k + 6..k + 8] == rest[..2];
    }
    FirstWhereIs(s, DmyStarts(s), k);
  }

  /** Where the pieces of `p + dd/mm/rest` sit. */
  lemma DatePieces(p: string, dd: string, mm: string, rest: string)
    requires |dd| == 2 && |mm| == 2
    ensures var s := p + dd + "/" + mm + "/" + rest; var k := |p|;
      |s| == k + 6 + |rest| && s[k..k + 2] == dd && s[k + 2] == '/' && s[k + 3..k + 5] == mm && s[k + 5] == '/' &&
      s[k + 6..] == rest
  {
    var s := p + dd + "/" + mm + "/" + rest;
    var k := |p|;
    assert s[k..k + 2] == dd by {
      forall i | 0 <= i < 2 ensures s[k + i] == dd[i] { }
    }
    assert s[k + 3..k + 5] == mm by {
      forall i | 0 <= i < 2 ensures s[k + 3 + i] == mm[i] { }
    }
    assert s[k + 6..] == rest by {
      forall i | 0 <= i < |rest| ensures s[k + 6 + i] == rest[i] { }
    }
  }

  /** A two-digit year becomes 20yy. */
  lemma {:induction false} IlboursaShortYear(p: string, dd: string, mm: string, yy: string, q: string, today: string)
    requires |dd| == 2 && |mm| == 2 && |yy| == 2 && AllDigits(dd) && AllDigits(mm) && AllDigits(yy)
    requires |q| > 0 && !IsDigit(q[0])
    requires forall j :: 0 <= j < |p| ==> !DmyAt(p + dd + "/" + mm + "/" + yy + q, j)
    ensures IlboursaDate(p + dd + "/" + mm + "/" + yy + q, today) == "20" + yy + "-" + mm + "-" + dd
  {
    var s := p + dd + "/" + mm + "/" + yy + q;
    assert s == p + dd + "/" + mm + "/" + (yy + q);
    assert (yy + q)[..2] == yy;
    DmyFirstAt(p, dd, mm, yy + q);
    AllRunPrefix(yy, q);
    assert s[|p| + 6..|p| + 8] == yy;
  }

  /** A four-digit year is kept. */
  lemma {:induction false} IlboursaLongYear(p: string, dd: string, mm: string, yyyy: string, q: string, today: string)
    requires |dd| == 2 && |mm| == 2 && |yyyy| == 4 && AllDigits(dd) && AllDigits(mm) && AllDigits(yyyy)
    requires forall j :: 0 <= j < |p| ==> !DmyAt(p + dd + "/" + mm + "/" + yyyy + q, j)
    ensures IlboursaDate(p + dd + "/" + mm + "/" + yyyy + q, today) == yyyy + "-" + mm + "-" + dd
  {
    var s := p + dd + "/" + mm + "/" + yyyy + q;
    assert s == p + dd + "/" + mm + "/" + (yyyy + q);
    assert (yyyy + q)[..2] == yyyy[..2];
    DmyFirstAt(p, dd, mm, yyyy + q);
    DigitRunAtLeast(yyyy, q);
    assert s[|p| + 6..|p| + 10] == yyyy;
  }

  /** `/(\d{4})/(\d{2})/` matches at `i`. */
  predicate MonthPathAt(s: string, i: nat)
  {
    i + 9 <= |s| && s[i] == '/' && DigitsAt(s, i + 1, 4) && s[i + 5] == '/' && DigitsAt(s, i + 6, 2) && s[i + 8] == '/'
  }

  function MonthPathStarts(s: string): nat -> bool
  {
    (i: nat) => MonthPathAt(s, i)
  }

  /** `(\d{2})/(\d{2})/(\d{4})` matches at `i`. */
  predicate FullDmyAt(s: string, i: nat)
  {
    i + 10 <= |s| && DigitsAt(s, i, 2) && s[i + 2] == '/' && DigitsAt(s, i + 3, 2) && s[i + 5] == '/' && DigitsAt(s, i + 6, 4)
  }

  function FullDmyStarts(s: string): nat -> bool
  {
    (i: nat) => FullDmyAt(s, i)
  }

  /** A radioexpressfm date: a `dd/mm/yyyy` in the text before the link
      wins; else the first day of a `/YYYY/MM/` URL's month; else today. */
  function RadioDate(href: string, before: Option<string>, today: string): (r: string)
    ensures before.None? && (forall j :: 0 <= j < |href| ==> !MonthPathAt(href, j)) ==> r == today
  {
    var m := FirstWhere(href, MonthPathStarts(href));
    var fromUrl := if m.None? then today else href[m.value + 1..m.value + 5] + "-" + href[m.value + 6..m.value + 8] + "-01";
    if before.None? then fromUrl
    else
      var t := before.value;
      var d := FirstWhere(t, FullDmyStarts(t));
      if d.None? then fromUrl
      else t[d.value + 6..d.value + 10] + "-" + t[d.value + 3..d.value + 5] + "-" + t[d.value..d.value + 2]
  }

  /** A URL with `/YYYY/MM/` and nothing before the link: the first of
      that month. */
  lemma {:induction false} RadioMonthDate(p: string, y: string, m: string, q: string, today: string)
    requires |y| == 4 && |m| == 2 && AllDigits(y) && AllDigits(m)
    requires forall j :: 0 <= j < |p| ==> !MonthPathAt(p + "/" + y + "/" + m + "/" + q, j)
    ensures RadioDate(p + "/" + y + "/" + m + "/" + q, None, today) == y + "-" + m + "-01"
  {
    var s := p + "/" + y + "/" + m + "/" + q;
    var k := |p|;
    MonthPieces(p, y, m, q);
    assert MonthPathAt(s, k);
    FirstWhereIs(s, MonthPathStarts(s), k);
  }

  /** Where the pieces of `p + /yyyy/mm/ + q` sit. */
  lemma MonthPieces(p: string, y: string, m: string, q: string)
    requires |y| == 4 && |m| == 2
    ensures var s := p + "/" + y + "/" + m + "/" + q; var k := |p|;
      |s| == k + 9 + |q| && s[k] == '/' && s[k + 1..k + 5] == y && s[k + 5] == '/' && s[k + 6..k + 8] == m &&
      s[k + 8] == '/'
  {
    var s := p + "/" + y + "/" + m + "/" + q;
    var k := |p|;
    assert s[k + 1..k + 5] == y by {
      forall i | 0 <= i < 4 ensures s[k + 1 + i] == y[i] { }
    }
    assert s[k + 6..k + 8] == m by {
      forall i | 0 <= i < 2 ensures s[k + 6 + i] == m[i] { }
    }
  }

  // ---------------------------------------------------------------------
  // _parse_date

  const MonthNames: seq<string> := ["january", "february", "march", "april", "may", "june", "july",
                                    "august", "september", "october", "november", "december"]

  /** `%B`: a full English month name, in any case. */
  function MonthOf(name: string): (r: Option<nat>)
    ensures r.Some? ==> 1 <= r.value <= 12 && Lower(name) == MonthNames[r.value - 1]
  {
    var n := Lower(name);
    if n in MonthNames then
      var i :| 0 <= i < |MonthNames| && MonthNames[i] == n;
      Some(i + 1)
    else None
  }

  /** A day or month field of `strptime`: one or two digits. */
  predicate ShortField(s: string)
  {
    1 <= |s| <= 2 && AllDigits(s)
  }

  /** The date the fields name, when `datetime` accepts it. */
  function DateOf(year: nat, month: nat, day: nat): (r: Option<DataLoader.Date>)
    ensures r.Some? ==> DataLoader.ValidDate(r.value) && 1 <= r.value.year
  {
    var d := DataLoader.Date(year, month, day);
    if 1 <= year && DataLoader.ValidDate(d) then Some(d) else None
  }

  /** `%d/%m/%Y`. */
  function DayFirst(t: string): (r: Option<DataLoader.Date>)
  {
    var d := DataLoader.ParseDate(t);
    if d.Some? && d.value.year >= 1 then d else None
  }

  /** `%Y-%m-%d`. */
  function YearFirst(t: string): (r: Option<DataLoader.Date>)
  {
    var parts := Split(t, '-');
    if |parts| == 3 && |parts[0]| == 4 && AllDigits(parts[0]) && ShortField(parts[1]) && ShortField(parts[2]) then
      DateOf(DigitsValue(parts[0]), DigitsValue(parts[1]), DigitsValue(parts[2]))
    else None
  }

  /** `%d %B %Y`. */
  function DayMonthName(t: string): (r: Option<DataLoader.Date>)
  {
    var parts := Split(t, ' ');
    if |parts| == 3 && ShortField(parts[0]) && MonthOf(parts[1]).Some? && |parts[2]| == 4 && AllDigits(parts[2]) then
      DateOf(DigitsValue(parts[2]), MonthOf(parts[1]).value, DigitsValue(parts[0]))
    else None
  }

  /** `%B %d, %Y`. */
  function MonthNameDay(t: string): (r: Option<DataLoader.Date>)
  {
    var parts := Split(t, ' ');
    if |parts| == 3 && MonthOf(parts[0]).Some? && |parts[1]| >= 2 && parts[1][|parts[1]| - 1] == ','
       && ShortField(parts[1][..|parts[1]| - 1]) && |parts[2]| == 4 && AllDigits(parts[2]) then
      DateOf(DigitsValue(parts[2]), MonthOf(parts[0]).value, DigitsValue(parts[1][..|parts[1]| - 1]))
    else None
  }

  /** The date of a stripped text under the first of the four formats that
      accepts it. */
  function DateIn(s: string): (r: Option<DataLoader.Date>)
    ensures r.Some? ==> DataLoader.ValidDate(r.value) && 1 <= r.value.year < 10000
  {
    var t := Strip(s);
    if DayFirst(t).Some? then DayFirst(t)
    else if YearFirst(t).Some? then YearFirst(t)
    else if DayMonthName(t).Some? then DayMonthName(t)
    else MonthNameDay(t)
  }

  /** A date as `%Y-%m-%d`. */
  function IsoDate(d: DataLoader.Date): (r: string)
    requires DataLoader.ValidDate(d) && d.year < 10000
    ensures |r| == 10 && r[4] == '-' && r[7] == '-'
  {
    DataLoader.Padded(d.year, 4) + "-" + DataLoader.Padded(d.month, 2) + "-" + DataLoader.Padded(d.day, 2)
  }

  /** _parse_date: the date in ISO form, or today's date when no format
      accepts the text. */
  function ParseDateText(s: string, today: string): (r: string)
  {
    var d := DateIn(s);
    if d.Some? then IsoDate(d.value) else today
  }

  /** Digit fields joined by '-' hold no whitespace and no '/'. */
  lemma {:induction false} DashJoinPlain(a: string, b: string, c: string)
    requires AllDigits(a) && AllDigits(b) && AllDigits(c)
    ensures forall j :: 0 <= j < |a + "-" + b + "-" + c| ==>
      !IsPySpace((a + "-" + b + "-" + c)[j]) && (a + "-" + b + "-" + c)[j] != '/'
  {
    var s := a + "-" + b + "-" + c;
    forall j | 0 <= j < |s| ensures !IsPySpace(s[j]) && s[j] != '/' {
      if j < |a| { assert s[j] == a[j]; }
      else if j == |a| || j == |a| + 1 + |b| { }
      else if j < |a| + 1 + |b| { assert s[j] == b[j - |a| - 1]; }
      else { assert s[j] == c[j - |a| - |b| - 2]; }
    }
  }

  /** An ISO date has no whitespace and no '/'. */
  lemma {:induction false} IsoPlain(d: DataLoader.Date)
    requires DataLoader.ValidDate(d) && d.year < 10000
    ensures forall j :: 0 <= j < |IsoDate(d)| ==> !IsPySpace(IsoDate(d)[j]) && IsoDate(d)[j] != '/'
  {
    DashJoinPlain(DataLoader.Padded(d.year, 4), DataLoader.Padded(d.month, 2), DataLoader.Padded(d.day, 2));
  }

  /** The `%Y-%m-%d` format reads an ISO date back. */
  lemma {:induction false} IsoYearFirst(d: DataLoader.Date)
    requires DataLoader.ValidDate(d) && 1 <= d.year < 10000
    ensures YearFirst(IsoDate(d)) == Some(d)
  {
    var yy := DataLoader.Padded(d.year, 4);
    var mm := DataLoader.Padded(d.month, 2);
    var dd := DataLoader.Padded(d.day, 2);
    assert forall j :: 0 <= j < |dd| ==> dd[j] != '-';
    assert forall j :: 0 <= j < |mm| ==> mm[j] != '-';
    assert forall j :: 0 <= j < |yy| ==> yy[j] != '-';
    SplitNoSep(dd, '-');
    SplitPrefix(mm, dd, '-');
    SplitPrefix(yy, mm + "-" + dd, '-');
    assert IsoDate(d) == yy + ['-'] + (mm + ['-'] + dd);
  }

  /** An ISO date parses to itself, so _parse_date is idempotent on its own
      output. */
  lemma {:induction false} IsoDateParses(d: DataLoader.Date, today: string)
    requires DataLoader.ValidDate(d) && 1 <= d.year < 10000
    ensures DateIn(IsoDate(d)) == Some(d)
    ensures ParseDateText(ParseDateText(IsoDate(d), today), today) == IsoDate(d)
  {
    var s := IsoDate(d);
    IsoPlain(d);
    StripNoSpace(s);
    SplitNoSep(s, '/');
    IsoYearFirst(d);
  }

  /** A `dd/mm/YYYY` date becomes its ISO form. */
  lemma DayFirstToIso(d: DataLoader.Date, today: string)
    requires DataLoader.ValidDate(d) && 1 <= d.year < 10000
    ensures ParseDateText(DataLoader.FormatDate(d), today) == IsoDate(d)
  {
    var s := DataLoader.FormatDate(d);
    DataLoader.ParseFormatDate(d);
    assert forall j :: 0 <= j < |s| ==> !IsPySpace(s[j]) by {
      var yy := DataLoader.Padded(d.year, 4);
      var mm := DataLoader.Padded(d.month, 2);
      var dd := DataLoader.Padded(d.day, 2);
      forall j | 0 <= j < |s| ensures !IsPySpace(s[j]) {
        if j < 2 { assert s[j] == dd[j]; }
        else if j == 2 || j == 5 { }
        else if j < 5 { assert s[j] == mm[j - 3]; }
        else { assert s[j] == yy[j - 6]; }
      }
    }
    StripNoSpace(s);
  }

  // ---------------------------------------------------------------------
  // Pages and articles

  /** An anchor as a site's selector finds it: its href ("" when it has
      none), its stripped text, and the text that dates it when there is
      such an element (ilboursa: the parent's text; radioexpressfm: the text
      of the parent's previous sibling). */
  datatype Link = Link(href: string, text: string, around: Option<string>)

  /** A businessnews result: an anchor itself, or a container with an
      optional `a[href]` and an optional title element's text. */
  datatype Element = Anchor(href: string, text: string) | Block(link: Option<string>, title: Option<string>)

  /** An article body: the stripped texts of its paragraphs and its own
      stripped text. */
  datatype Content = Content(paragraphs: seq<string>, text: string)

  /** A fetched page as the scraper's selectors see it. */
  datatype Soup = Soup(links: seq<Link>, elements: seq<Element>, title: Option<string>,
                       dateText: Option<string>, content: Option<Content>)

  /** A search result. `stockCode` is set by the aggregator. */
  datatype Article = Article(url: string, title: string, date: string, source: string, language: string,
                             stockCode: Option<string>)

  const WebManagerBase := "https://www.webmanagercenter.com"
  const BusinessNewsBase := "https://businessnews.com.tn"
  const IlboursaBase := "https://www.ilboursa.com"
  const RadioBase := "https://radioexpressfm.com"

  /** A relative href is prefixed with the site's base URL. */
  function Absolute(base: string, href: string): (r: string)
    ensures StartsWith(href, "http") ==> r == href
    ensures !StartsWith(href, "http") ==> r == base + href
  {
    if StartsWith(href, "http") then href else base + href
  }

  function Urls(articles: seq<Article>): (r: set<string>)
  {
    set i | 0 <= i < |articles| :: articles[i].url
  }

  predicate DistinctUrls(articles: seq<Article>)
  {
    forall i, j :: 0 <= i < j < |articles| ==> articles[i].url != articles[j].url
  }

  /** The articles some of the items make, in order. */
  function Accepted<T>(items: seq<T>, f: T -> Option<Article>): (r: seq<Article>)
    ensures |r| <= |items|
  {
    if |items| == 0 then []
    else
      var a := f(items[|items| - 1]);
      Accepted(items[..|items| - 1], f) + (if a.Some? then [a.value] else [])
  }

  /** Every accepted article is one that `f` makes. */
  lemma {:induction false} AcceptedAll<T>(items: seq<T>, f: T -> Option<Article>, ok: Article -> bool)
    requires forall x :: f(x).Some? ==> ok(f(x).value)
    ensures forall a :: a in Accepted(items, f) ==> ok(a)
  {
    if |items| > 0 {
      AcceptedAll(items[..|items| - 1], f, ok);
    }
  }

  /** The articles some of the items make, appended to `acc` unless their
      URL is already there. */
  function AppendNew<T>(acc: seq<Article>, items: seq<T>, f: T -> Option<Article>): (r: seq<Article>)
    ensures |acc| <= |r| <= |acc| + |items| && r[..|acc|] == acc
  {
    if |items| == 0 then acc
    else
      var front := AppendNew(acc, items[..|items| - 1], f);
      var a := f(items[|items| - 1]);
      if a.Some? && a.value.url !in Urls(front) then front + [a.value] else front
  }

  /** The appended articles have URLs that are new and pairwise different,
      and each is one that `f` makes. */
  lemma {:induction false} AppendNewFacts<T>(acc: seq<Article>, items: seq<T>, f: T -> Option<Article>, ok: Article -> bool)
    requires forall x :: f(x).Some? ==> ok(f(x).value)
    ensures DistinctUrls(acc) ==> DistinctUrls(AppendNew(acc, items, f))
    ensures forall i :: |acc| <= i < |AppendNew(acc, items, f)| ==>
      AppendNew(acc, items, f)[i].url !in Urls(acc) && ok(AppendNew(acc, items, f)[i])
  {
    if |items| > 0 {
      var front := AppendNew(acc, items[..|items| - 1], f);
      AppendNewFacts(acc, items[..|items| - 1], f, ok);
      assert forall i :: |acc| <= i < |front| ==> front[i].url !in Urls(acc) && ok(front[i]);
      var a := f(items[|items| - 1]);
      if a.Some? && a.value.url !in Urls(front) {
        var r := front + [a.value];
        assert Urls(acc) <= Urls(front) by {
          forall u | u in Urls(acc) ensures u in Urls(front) {
            var i :| 0 <= i < |acc| && acc[i].url == u;
            assert front[i] == acc[i];
          }
        }
        forall i, j | 0 <= i < j < |r| ensures DistinctUrls(acc) ==> r[i].url != r[j].url {
          if j == |front| {
            assert r[i].url in Urls(front);
          }
        }
        assert ok(a.value);
        forall i | |acc| <= i < |r| ensures r[i].url !in Urls(acc) && ok(r[i]) {
          if i < |front| {
            assert r[i] == front[i];
            assert front[i].url !in Urls(acc) && ok(front[i]);
          } else {
            assert r[i] == a.value;
            assert a.value.url !in Urls(acc);
          }
        }
      }
    }
  }

  /** Every `f`-accepted item, in order: the inner loop of each search. */
  method AcceptLinks<T>(items: seq<T>, f: T -> Option<Article>) returns (r: seq<Article>)
    ensures r == Accepted(items, f)
  {
    r := [];
    for j := 0 to |items|
      invariant r == Accepted(items[..j], f)
    {
      assert items[..j + 1][..j] == items[..j];
      var a := f(items[j]);
      if a.Some? {
        r := r + [a.value];
      }
    }
    assert items[..|items|] == items;
  }

  /** The inner loop of the searches that skip a URL already found. */
  method AppendNewLinks<T>(acc: seq<Article>, items: seq<T>, f: T -> Option<Article>) returns (r: seq<Article>)
    ensures r == AppendNew(acc, items, f)
  {
    r := acc;
    for j := 0 to |items|
      invariant r == AppendNew(acc, items[..j], f)
    {
      assert items[..j + 1][..j] == items[..j];
      var a := f(items[j]);
      if a.Some? && a.value.url !in Urls(r) {
        r := r + [a.value];
      }
    }
    assert items[..|items|] == items;
  }

  // ---------------------------------------------------------------------
  // webmanagercenter

  function WebManagerUrl(keyword: string, page: nat): string
  {
    WebManagerBase + "/?s=" + keyword + "&paged=" + NatToString(page)
  }

  /** A link with an href and a title longer than 10 characters, dated by
      its URL. */
  function WebManagerArticleOf(l: Link, today: string): Option<Article>
  {
    if l.href != "" && |l.text| > 10 then Some(Article(l.href, l.text, UrlDate(l.href, today), "webmanagercenter", "fr", None))
    else None
  }

  function WebManagerArticle(today: string): Link -> Option<Article>
  {
    (l: Link) => WebManagerArticleOf(l, today)
  }

  predicate WebManagerArticleOk(a: Article, today: string)
  {
    a.url != "" && |a.title| > 10 && a.date == UrlDate(a.url, today)
    && a.source == "webmanagercenter" && a.language == "fr" && a.stockCode.None?
  }

  function WebManagerOk(today: string): Article -> bool
  {
    (a: Article) => WebManagerArticleOk(a, today)
  }

  lemma WebManagerArticleMadeOk(today: string)
    ensures forall l :: WebManagerArticle(today)(l).Some? ==> WebManagerOk(today)(WebManagerArticle(today)(l).value)
  {
  }

  /** The articles of one result page; none when it cannot be fetched. */
  function WebManagerPage(keyword: string, page: nat, fetch: string -> Option<Soup>, today: string): (r: seq<Article>)
    ensures |r| <= 15
  {
    var soup := fetch(WebManagerUrl(keyword, page));
    if soup.None? then [] else Accepted(Take(soup.value.links, 15), WebManagerArticle(today))
  }

  /** The search from `page` on: the first 15 links of each page that
      could be fetched. */
  function WebManagerPages(keyword: string, page: nat, maxPages: nat, fetch: string -> Option<Soup>, today: string)
    : seq<Article>
    decreases maxPages + 1 - page
  {
    if page > maxPages then []
    else
      WebManagerPage(keyword, page, fetch, today) + WebManagerPages(keyword, page + 1, maxPages, fetch, today)
  }

  /** Each webmanagercenter result has an href, a title longer than 10
      characters and its URL's date, and there are at most 15 per page. */
  lemma {:induction false} WebManagerResults(keyword: string, page: nat, maxPages: nat, fetch: string -> Option<Soup>, today: string)
    ensures forall a :: a in WebManagerPages(keyword, page, maxPages, fetch, today) ==> WebManagerArticleOk(a, today)
    ensures |WebManagerPages(keyword, page, maxPages, fetch, today)| <= 15 * MaxInt(0, maxPages + 1 - page)
    decreases maxPages + 1 - page
  {
    if page <= maxPages {
      WebManagerResults(keyword, page + 1, maxPages, fetch, today);
      assert 15 * MaxInt(0, maxPages + 1 - page) == 15 + 15 * MaxInt(0, maxPages + 1 - (page + 1));
      WebManagerPageOk(keyword, page, fetch, today);
    }
  }

  /** Every article of one result page is well formed. */
  lemma WebManagerPageOk(keyword: string, page: nat, fetch: string -> Option<Soup>, today: string)
    ensures forall a :: a in WebManagerPage(keyword, page, fetch, today) ==> WebManagerArticleOk(a, today)
  {
    var soup := fetch(WebManagerUrl(keyword, page));
    if soup.Some? {
      WebManagerArticleMadeOk(today);
      AcceptedAll(Take(soup.value.links, 15), WebManagerArticle(today), WebManagerOk(today));
    }
  }

  /** One page of the search loop. */
  method WebManagerPageSearch(keyword: string, page: nat, fetch: string -> Option<Soup>, today: string) returns (found: seq<Article>)
    ensures found == WebManagerPage(keyword, page, fetch, today)
  {
    var soup := fetch(WebManagerUrl(keyword, page));
    if soup.None? {
      return [];
    }
    found := AcceptLinks(Take(soup.value.links, 15), WebManagerArticle(today));
  }

  lemma WebManagerPagesStep(keyword: string, page: nat, maxPages: nat, fetch: string -> Option<Soup>, today: string)
    requires page <= maxPages
    ensures WebManagerPages(keyword, page, maxPages, fetch, today)
            == WebManagerPage(keyword, page, fetch, today) + WebManagerPages(keyword, page + 1, maxPages, fetch, today)
  {
  }

  /** WebManagerScraper.search. */
  method WebManagerSearch(keyword: string, maxPages: nat, fetch: string -> Option<Soup>, today: string)
    returns (articles: seq<Article>)
    ensures articles == WebManagerPages(keyword, 1, maxPages, fetch, today)
  {
    articles := [];
    for page := 1 to maxPages + 1
      invariant articles + WebManagerPages(keyword, page, maxPages, fetch, today) == WebManagerPages(keyword, 1, maxPages, fetch, today)
    {
      var found := WebManagerPageSearch(keyword, page, fetch, today);
      ghost var rest := WebManagerPages(keyword, page + 1, maxPages, fetch, today);
      WebManagerPagesStep(keyword, page, maxPages, fetch, today);
      ConcatAssoc(articles, found, rest);
      articles := articles + found;
    }
  }

  // ---------------------------------------------------------------------
  // businessnews

  /** The path of a result page after the first: `/page/<n>`. */
  function PagePath(page: nat): (r: string)
    ensures page == 1 ==> r == ""
    ensures page != 1 ==> r == "/page/" + NatToString(page)
  {
    if page == 1 then "" else "/page/" + NatToString(page)
  }

  function BusinessNewsUrl(keyword: string, page: nat): string
  {
    BusinessNewsBase + PagePath(page) + "/?s=" + keyword
  }

  /** An anchor is its own link and title; a container needs an `a[href]`.
      The title must be longer than 10 characters; the href is made
      absolute and dates the article. */
  function BusinessNewsArticleOf(e: Element, today: string): Option<Article>
  {
    var link := if e.Anchor? then Some(e.href) else e.link;
    var title := if e.Anchor? then e.text else e.title.GetOr("");
    if link.Some? && |title| > 10 then
      var href := Absolute(BusinessNewsBase, link.value);
      Some(Article(href, title, UrlDate(href, today), "businessnews", "fr", None))
    else None
  }

  function BusinessNewsArticle(today: string): Element -> Option<Article>
  {
    (e: Element) => BusinessNewsArticleOf(e, today)
  }

  function BusinessNewsOk(today: string): Article -> bool
  {
    (a: Article) => |a.title| > 10 && a.date == UrlDate(a.url, today) && a.source == "businessnews" && a.language == "fr"
                    && (StartsWith(a.url, "http") || StartsWith(a.url, BusinessNewsBase))
  }

  /** The articles of one result page; none when it cannot be fetched. */
  function BusinessNewsPage(keyword: string, page: nat, fetch: string -> Option<Soup>, today: string): (r: seq<Article>)
    ensures |r| <= 15
  {
    var soup := fetch(BusinessNewsUrl(keyword, page));
    if soup.None? then [] else Accepted(Take(soup.value.elements, 15), BusinessNewsArticle(today))
  }

  function BusinessNewsPages(keyword: string, page: nat, maxPages: nat, fetch: string -> Option<Soup>, today: string)
    : seq<Article>
    decreases maxPages + 1 - page
  {
    if page > maxPages then []
    else
      BusinessNewsPage(keyword, page, fetch, today) + BusinessNewsPages(keyword, page + 1, maxPages, fetch, today)
  }

  /** Every article businessnews makes of an element passes the checks. */
  lemma BusinessNewsArticleOk(today: string)
    ensures forall e :: BusinessNewsArticle(today)(e).Some? ==> BusinessNewsOk(today)(BusinessNewsArticle(today)(e).value)
  {
    forall e | BusinessNewsArticle(today)(e).Some?
      ensures BusinessNewsOk(today)(BusinessNewsArticle(today)(e).value)
    {
      var link := if e.Anchor? then Some(e.href) else e.link;
      if !StartsWith(link.value, "http") {
        assert (BusinessNewsBase + link.value)[..|BusinessNewsBase|] == BusinessNewsBase;
      }
    }
  }

  /** Each businessnews result has a title longer than 10 characters, an
      absolute URL (one that starts with "http" or with the site's address)
      and its URL's date. */
  lemma {:induction false} BusinessNewsResults(keyword: string, page: nat, maxPages: nat, fetch: string -> Option<Soup>, today: string)
    ensures forall a :: a in BusinessNewsPages(keyword, page, maxPages, fetch, today) ==> BusinessNewsOk(today)(a)
    decreases maxPages + 1 - page
  {
    if page <= maxPages {
      BusinessNewsResults(keyword, page + 1, maxPages, fetch, today);
      var soup := fetch(BusinessNewsUrl(keyword, page));
      if soup.Some? {
        BusinessNewsArticleOk(today);
        AcceptedAll(Take(soup.value.elements, 15), BusinessNewsArticle(today), BusinessNewsOk(today));
      }
    }
  }

  /** One page of the search loop. */
  method BusinessNewsPageSearch(keyword: string, page: nat, fetch: string -> Option<Soup>, today: string) returns (found: seq<Article>)
    ensures found == BusinessNewsPage(keyword, page, fetch, today)
  {
    var soup := fetch(BusinessNewsUrl(keyword, page));
    if soup.None? {
      return [];
    }
    found := AcceptLinks(Take(soup.value.elements, 15), BusinessNewsArticle(today));
  }

  lemma BusinessNewsPagesStep(keyword: string, page: nat, maxPages: nat, fetch: string -> Option<Soup>, today: string)
    requires page <= maxPages
    ensures BusinessNewsPages(keyword, page, maxPages, fetch, today)
            == BusinessNewsPage(keyword, page, fetch, today) + BusinessNewsPages(keyword, page + 1, maxPages, fetch, today)
  {
  }

  /** BusinessNewsScraper.search. */
  method BusinessNewsSearch(keyword: string, maxPages: nat, fetch: string -> Option<Soup>, today: string)
    returns (articles: seq<Article>)
    ensures articles == BusinessNewsPages(keyword, 1, maxPages, fetch, today)
  {
    articles := [];
    for page := 1 to maxPages + 1
      invariant articles + BusinessNewsPages(keyword, page, maxPages, fetch, today) == BusinessNewsPages(keyword, 1, maxPages, fetch, today)
    {
      var found := BusinessNewsPageSearch(keyword, page, fetch, today);
      ghost var rest := BusinessNewsPages(keyword, page + 1, maxPages, fetch, today);
      BusinessNewsPagesStep(keyword, page, maxPages, fetch, today);
      ConcatAssoc(articles, found, rest);
      articles := articles + found;
    }
  }

  // ---------------------------------------------------------------------
  // ilboursa

  const IlboursaRejected: seq<string> := ["cotation", "graph", "societe", "historiques", "secteur", "news_valeur", "aaz"]

  predicate IlboursaNewsHref(href: string)
  {
    forall i :: 0 <= i < |IlboursaRejected| ==> !Contains(href, IlboursaRejected[i])
  }

  /** A news link: a title longer than 15 characters, an href naming none
      of the rejected pages, dated by the text around it. */
  function IlboursaNewsArticle(today: string): Link -> Option<Article>
  {
    (l: Link) =>
      var href := Absolute(IlboursaBase, l.href);
      if |l.text| > 15 && IlboursaNewsHref(href) then
        Some(Article(href, l.text, if l.around.Some? then IlboursaDate(l.around.value, today) else today, "ilboursa", "fr", None))
      else None
  }

  /** A search result: a title longer than 10 characters, dated today. */
  function IlboursaResult(today: string): Link -> Option<Article>
  {
    (l: Link) =>
      if |l.text| > 10 then Some(Article(Absolute(IlboursaBase, l.href), l.text, today, "ilboursa", "fr", None)) else None
  }

  function IlboursaNewsUrl(keyword: string): string
  {
    IlboursaBase + "/marches/news_valeur?s=" + keyword
  }

  function IlboursaSearchUrl(keyword: string): string
  {
    IlboursaBase + "/search?q=" + keyword
  }

  /** The news page (only for a keyword without a space), then the search
      page, whose results skip URLs already found. */
  function IlboursaResults(keyword: string, fetch: string -> Option<Soup>, today: string): seq<Article>
  {
    var news := if ' ' !in keyword then fetch(IlboursaNewsUrl(keyword)) else None;
    var first := if news.Some? then Accepted(Take(news.value.links, 20), IlboursaNewsArticle(today)) else [];
    var results := fetch(IlboursaSearchUrl(keyword));
    if results.Some? then AppendNew(first, Take(results.value.links, 10), IlboursaResult(today)) else first
  }

  function IlboursaNewsOk(today: string): Article -> bool
  {
    (a: Article) => |a.title| > 15 && IlboursaNewsHref(a.url) && a.source == "ilboursa"
  }

  function IlboursaResultOk(today: string): Article -> bool
  {
    (a: Article) => |a.title| > 10 && a.date == today && a.source == "ilboursa"
  }

  /** At most 20 news links and 10 search results; the news links pass the
      rejection list and titles of more than 15 characters; a keyword with
      a space skips the news page; a search result never repeats a URL
      found before it. */
  lemma {:induction false} IlboursaFacts(keyword: string, fetch: string -> Option<Soup>, today: string)
    ensures var r := IlboursaResults(keyword, fetch, today);
      var news := if ' ' !in keyword then fetch(IlboursaNewsUrl(keyword)) else None;
      var n := if news.Some? then |Accepted(Take(news.value.links, 20), IlboursaNewsArticle(today))| else 0;
      n <= 20 && n <= |r| <= n + 10
      && (' ' in keyword ==> n == 0)
      && (forall i :: 0 <= i < n ==> IlboursaNewsOk(today)(r[i]))
      && (forall i :: n <= i < |r| ==> IlboursaResultOk(today)(r[i]) && r[i].url !in Urls(r[..n]))
  {
    var news := if ' ' !in keyword then fetch(IlboursaNewsUrl(keyword)) else None;
    var first := if news.Some? then Accepted(Take(news.value.links, 20), IlboursaNewsArticle(today)) else [];
    if news.Some? {
      AcceptedAll(Take(news.value.links, 20), IlboursaNewsArticle(today), IlboursaNewsOk(today));
      assert forall i :: 0 <= i < |first| ==> first[i] in first;
    }
    var results := fetch(IlboursaSearchUrl(keyword));
    if results.Some? {
      AppendNewFacts(first, Take(results.value.links, 10), IlboursaResult(today), IlboursaResultOk(today));
    }
  }

  /** IlboursaScraper.search. */
  method IlboursaSearch(keyword: string, fetch: string -> Option<Soup>, today: string) returns (articles: seq<Article>)
    ensures articles == IlboursaResults(keyword, fetch, today)
  {
    articles := [];
    var soup: Option<Soup> := None;
    if ' ' !in keyword {
      soup := fetch(IlboursaNewsUrl(keyword));
    }
    if soup.Some? {
      articles := AcceptLinks(Take(soup.value.links, 20), IlboursaNewsArticle(today));
    }
    soup := fetch(IlboursaSearchUrl(keyword));
    if soup.Some? {
      articles := AppendNewLinks(articles, Take(soup.value.links, 10), IlboursaResult(today));
    }
  }

  // ---------------------------------------------------------------------
  // radioexpressfm

  function RadioUrl(keyword: string, page: nat): string
  {
    RadioBase + "/ar" + PagePath(page) + "/?s=" + keyword
  }

  /** An Arabic-section article link that is not a podcast, a channel or
      the section's own page, with a title longer than 10 characters. */
  predicate RadioAccepts(l: Link)
  {
    |l.text| > 10 && Contains(l.href, "/ar/") && !Contains(l.href, "/podcast/") && !Contains(l.href, "/radiochannel/")
    && l.href != RadioBase + "/ar/"
  }

  function RadioArticle(today: string): Link -> Option<Article>
  {
    (l: Link) =>
      if RadioAccepts(l) then Some(Article(l.href, l.text, RadioDate(l.href, l.around, today), "radioexpressfm", "ar", None))
      else None
  }

  function RadioOk(a: Article): bool
  {
    RadioAccepts(Link(a.url, a.title, None)) && a.source == "radioexpressfm" && a.language == "ar"
  }

  /** One keyword from `page` on: a page that cannot be fetched or has no
      links ends the keyword. */
  function RadioPages(acc: seq<Article>, keyword: string, page: nat, maxPages: nat, fetch: string -> Option<Soup>, today: string)
    : seq<Article>
    decreases maxPages + 1 - page
  {
    if page > maxPages then acc
    else
      var soup := fetch(RadioUrl(keyword, page));
      if soup.None? || |soup.value.links| == 0 then acc
      else RadioPages(AppendNew(acc, Take(soup.value.links, 15), RadioArticle(today)), keyword, page + 1, maxPages, fetch, today)
  }

  /** The keywords one after the other. */
  function RadioKeywords(keywords: seq<string>, maxPages: nat, fetch: string -> Option<Soup>, today: string): seq<Article>
  {
    if |keywords| == 0 then []
    else RadioPages(RadioKeywords(keywords[..|keywords| - 1], maxPages, fetch, today), keywords[|keywords| - 1], 1, maxPages, fetch, today)
  }

  /** The first two Arabic keywords of a stock code, or the keyword itself. */
  function ArabicKeywords(keyword: string): (r: seq<string>)
    ensures 1 <= |r| <= 2
    ensures Lookup(StockKeywordsAr, keyword).None? ==> r == [keyword]
  {
    ArabicListsNonEmpty();
    Take(Lookup(StockKeywordsAr, keyword).GetOr([keyword]), 2)
  }

  function RadioResults(keyword: string, maxPages: nat, fetch: string -> Option<Soup>, today: string): seq<Article>
  {
    RadioKeywords(ArabicKeywords(keyword), maxPages, fetch, today)
  }

  lemma {:induction false} RadioPagesFacts(acc: seq<Article>, keyword: string, page: nat, maxPages: nat, fetch: string -> Option<Soup>, today: string)
    requires DistinctUrls(acc) && forall a :: a in acc ==> RadioOk(a)
    ensures DistinctUrls(RadioPages(acc, keyword, page, maxPages, fetch, today))
    ensures forall a :: a in RadioPages(acc, keyword, page, maxPages, fetch, today) ==> RadioOk(a)
    decreases maxPages + 1 - page
  {
    if page <= maxPages {
      var soup := fetch(RadioUrl(keyword, page));
      if soup.Some? && |soup.value.links| > 0 {
        var next := AppendNew(acc, Take(soup.value.links, 15), RadioArticle(today));
        AppendNewFacts(acc, Take(soup.value.links, 15), RadioArticle(today), RadioOk);
        forall a | a in next ensures RadioOk(a) {
          var i :| 0 <= i < |next| && next[i] == a;
          if i < |acc| { assert next[i] == acc[i]; }
        }
        RadioPagesFacts(next, keyword, page + 1, maxPages, fetch, today);
      }
    }
  }

  /** radioexpressfm never returns a URL twice, and every result is an
      accepted Arabic-section link. */
  lemma {:induction false} RadioFacts(keywords: seq<string>, maxPages: nat, fetch: string -> Option<Soup>, today: string)
    ensures DistinctUrls(RadioKeywords(keywords, maxPages, fetch, today))
    ensures forall a :: a in RadioKeywords(keywords, maxPages, fetch, today) ==> RadioOk(a)
  {
    if |keywords| > 0 {
      RadioFacts(keywords[..|keywords| - 1], maxPages, fetch, today);
      RadioPagesFacts(RadioKeywords(keywords[..|keywords| - 1], maxPages, fetch, today), keywords[|keywords| - 1], 1, maxPages, fetch, today);
    }
  }

  /** The page loop for one keyword. */
  method RadioKeyword(acc: seq<Article>, keyword: string, maxPages: nat, fetch: string -> Option<Soup>, today: string)
    returns (articles: seq<Article>)
    ensures articles == RadioPages(acc, keyword, 1, maxPages, fetch, today)
  {
    articles := acc;
    var page := 1;
    while page <= maxPages
      invariant 1 <= page
      invariant RadioPages(articles, keyword, page, maxPages, fetch, today) == RadioPages(acc, keyword, 1, maxPages, fetch, today)
      decreases maxPages + 1 - page
    {
      var soup := fetch(RadioUrl(keyword, page));
      if soup.None? || |soup.value.links| == 0 {
        return;
      }
      articles := AppendNewLinks(articles, Take(soup.value.links, 15), RadioArticle(today));
      page := page + 1;
    }
  }

  /** RadioExpressFMScraper.search. */
  method RadioSearch(keyword: string, maxPages: nat, fetch: string -> Option<Soup>, today: string) returns (articles: seq<Article>)
    ensures articles == RadioResults(keyword, maxPages, fetch, today)
  {
    articles := RadioKeywordsSearch(ArabicKeywords(keyword), maxPages, fetch, today);
  }

  /** The keyword loop of RadioExpressFMScraper.search: each keyword's
      pages are appended to the articles found so far. */
  method RadioKeywordsSearch(keywords: seq<string>, maxPages: nat, fetch: string -> Option<Soup>, today: string) returns (articles: seq<Article>)
    ensures articles == RadioKeywords(keywords, maxPages, fetch, today)
  {
    articles := [];
    for i := 0 to |keywords|
      invariant articles == RadioKeywords(keywords[..i], maxPages, fetch, today)
    {
      assert keywords[..i + 1][..i] == keywords[..i];
      articles := RadioKeyword(articles, keywords[i], maxPages, fetch, today);
    }
    assert keywords[..|keywords|] == keywords;
  }

  // ---------------------------------------------------------------------
  // NewsAggregator

  /** The aggregator's scrapers, in the order it runs them. ilboursa is
      not among them. */
  const ScraperNames: seq<string> := ["webmanagercenter", "businessnews", "radioexpressfm"]

  /** One keyword's results: two pages of each scraper, in scraper order. */
  function KeywordResults(keyword: string, fetch: string -> Option<Soup>, today: string): seq<Article>
  {
    WebManagerPages(keyword, 1, 2, fetch, today) + BusinessNewsPages(keyword, 1, 2, fetch, today) + RadioResults(keyword, 2, fetch, today)
  }

  /** The results of every scraper for every keyword, two pages each. */
  function Collected(keywords: seq<string>, fetch: string -> Option<Soup>, today: string): seq<Article>
  {
    if |keywords| == 0 then []
    else
      var k := keywords[|keywords| - 1];
      Collected(keywords[..|keywords| - 1], fetch, today) + KeywordResults(k, fetch, today)
  }

  /** The first article of each URL, in order. */
  function FirstPerUrl(articles: seq<Article>): (r: seq<Article>)
    ensures |r| <= |articles|
  {
    if |articles| == 0 then []
    else
      var front := FirstPerUrl(articles[..|articles| - 1]);
      var a := articles[|articles| - 1];
      if a.url in Urls(front) then front else front + [a]
  }

  lemma UrlsAppend(s: seq<Article>, a: Article)
    ensures Urls(s + [a]) == Urls(s) + {a.url}
  {
    forall u | u in Urls(s + [a]) ensures u in Urls(s) + {a.url} {
      var i :| 0 <= i < |s + [a]| && (s + [a])[i].url == u;
      if i < |s| { assert (s + [a])[i] == s[i]; }
    }
    forall u | u in Urls(s) ensures u in Urls(s + [a]) {
      var i :| 0 <= i < |s| && s[i].url == u;
      assert (s + [a])[i] == s[i];
    }
    assert (s + [a])[|s|] == a;
  }

  /** De-duplication keeps one article per URL and loses no URL. */
  lemma {:induction false} FirstPerUrlUrls(articles: seq<Article>)
    ensures DistinctUrls(FirstPerUrl(articles))
    ensures Urls(FirstPerUrl(articles)) == Urls(articles)
  {
    if |articles| > 0 {
      var s := articles[..|articles| - 1];
      var front := FirstPerUrl(s);
      var a := articles[|articles| - 1];
      FirstPerUrlUrls(s);
      assert articles == s + [a];
      UrlsAppend(s, a);
      if a.url !in Urls(front) {
        var r := front + [a];
        UrlsAppend(front, a);
        forall i, j | 0 <= i < j < |r| ensures r[i].url != r[j].url {
          if j == |front| {
            assert r[i] == front[i];
            assert r[i].url in Urls(front);
          } else {
            assert r[i] == front[i] && r[j] == front[j];
          }
        }
      }
    }
  }

  /** De-duplication keeps the order in which the articles were found. */
  lemma {:induction false} FirstPerUrlOrder(articles: seq<Article>)
    ensures IsSubsequence(FirstPerUrl(articles), articles)
  {
    if |articles| == 0 {
      SubsequenceEmpty(FirstPerUrl(articles), articles);
    } else {
      var s := articles[..|articles| - 1];
      var a := articles[|articles| - 1];
      FirstPerUrlOrder(s);
      assert articles == s + [a];
      if a.url in Urls(FirstPerUrl(s)) {
        SubsequenceSkip(FirstPerUrl(s), s, a);
      } else {
        SubsequenceKeep(FirstPerUrl(s), s, a);
      }
    }
  }

  /** Each kept article is the first one found with its URL. */
  lemma {:induction false} FirstPerUrlFirst(articles: seq<Article>)
    ensures forall i :: 0 <= i < |FirstPerUrl(articles)| ==>
      exists j :: 0 <= j < |articles| && articles[j] == FirstPerUrl(articles)[i]
                  && forall k :: 0 <= k < j ==> articles[k].url != articles[j].url
  {
    if |articles| > 0 {
      var s := articles[..|articles| - 1];
      var front := FirstPerUrl(s);
      var a := articles[|articles| - 1];
      var r := FirstPerUrl(articles);
      FirstPerUrlFirst(s);
      FirstPerUrlUrls(s);
      assert r == if a.url in Urls(front) then front else front + [a];
      forall i | 0 <= i < |r|
        ensures exists j :: 0 <= j < |articles| && articles[j] == r[i] && forall k :: 0 <= k < j ==> articles[k].url != articles[j].url
      {
        if i < |front| {
          assert r[i] == front[i];
          var j :| 0 <= j < |s| && s[j] == front[i] && forall k :: 0 <= k < j ==> s[k].url != s[j].url;
          assert articles[j] == s[j];
          assert forall k :: 0 <= k < j ==> articles[k] == s[k];
        } else {
          assert r[i] == a && a.url !in Urls(s);
          forall k | 0 <= k < |s| ensures articles[k].url != a.url {
            assert articles[k] == s[k];
            assert s[k].url in Urls(s);
          }
          assert articles[|s|] == a;
        }
      }
    } else {
      assert FirstPerUrl(articles) == [];
    }
  }

  /** Every article tagged with the stock code. */
  function Tagged(articles: seq<Article>, code: string): (r: seq<Article>)
    ensures |r| == |articles|
    ensures forall i :: 0 <= i < |r| ==> r[i] == articles[i].(stockCode := Some(code))
  {
    seq(|articles|, i requires 0 <= i < |articles| => articles[i].(stockCode := Some(code)))
  }

  /** get_news_for_stock, as a function. */
  function NewsForStock(code: string, fetch: string -> Option<Soup>, today: string): seq<Article>
  {
    Take(Tagged(FirstPerUrl(Collected(SearchKeywords(code), fetch, today)), code), 90)
  }

  /** At most 90 articles, each tagged with the code, no URL twice; below
      the cap every URL found is there. */
  lemma NewsForStockFacts(code: string, fetch: string -> Option<Soup>, today: string)
    ensures var r := NewsForStock(code, fetch, today);
      var all := Collected(SearchKeywords(code), fetch, today);
      |r| <= 90 && DistinctUrls(r)
      && (forall i :: 0 <= i < |r| ==> r[i].stockCode == Some(code))
      && (|FirstPerUrl(all)| <= 90 ==> Urls(r) == Urls(all))
  {
    TaggedFacts(Collected(SearchKeywords(code), fetch, today), code);
  }

  /** The de-duplicated, tagged and capped list of any collection: at most
      90 articles, each tagged, no URL twice, and below the cap every URL. */
  lemma TaggedFacts(all: seq<Article>, code: string)
    ensures var r := Take(Tagged(FirstPerUrl(all), code), 90);
      |r| <= 90 && DistinctUrls(r)
      && (forall i :: 0 <= i < |r| ==> r[i].stockCode == Some(code))
      && (|FirstPerUrl(all)| <= 90 ==> Urls(r) == Urls(all))
  {
    FirstPerUrlUrls(all);
    var t := Tagged(FirstPerUrl(all), code);
    assert forall i :: 0 <= i < |t| ==> t[i].url == FirstPerUrl(all)[i].url;
    assert Urls(t) == Urls(FirstPerUrl(all));
  }

  /** One keyword's searches, scraper by scraper. */
  method SearchAll(keyword: string, fetch: string -> Option<Soup>, today: string) returns (found: seq<Article>)
    ensures found == KeywordResults(keyword, fetch, today)
  {
    found := [];
    for n := 0 to |ScraperNames|
      invariant n == 0 ==> found == []
      invariant n == 1 ==> found == WebManagerPages(keyword, 1, 2, fetch, today)
      invariant n == 2 ==> found == WebManagerPages(keyword, 1, 2, fetch, today) + BusinessNewsPages(keyword, 1, 2, fetch, today)
      invariant n == 3 ==> found == WebManagerPages(keyword, 1, 2, fetch, today) + BusinessNewsPages(keyword, 1, 2, fetch, today)
                                    + RadioResults(keyword, 2, fetch, today)
    {
      var articles: seq<Article>;
      if ScraperNames[n] == "webmanagercenter" {
        articles := WebManagerSearch(keyword, 2, fetch, today);
      } else if ScraperNames[n] == "businessnews" {
        articles := BusinessNewsSearch(keyword, 2, fetch, today);
      } else {
        articles := RadioSearch(keyword, 2, fetch, today);
      }
      found := found + articles;
    }
  }

  /** The de-duplication loop: a set of URLs seen, each new article tagged
      and kept. */
  method UniqueTagged(all: seq<Article>, code: string) returns (unique: seq<Article>)
    ensures unique == Tagged(FirstPerUrl(all), code)
  {
    var seen: set<string> := {};
    unique := [];
    for i := 0 to |all|
      invariant unique == Tagged(FirstPerUrl(all[..i]), code)
      invariant seen == Urls(FirstPerUrl(all[..i]))
    {
      assert all[..i + 1][..i] == all[..i];
      ghost var front := FirstPerUrl(all[..i]);
      var article := all[i];
      if article.url !in seen {
        seen := seen + {article.url};
        unique := unique + [article.(stockCode := Some(code))];
        UrlsAppend(front, article);
      }
    }
    assert all[..|all|] == all;
  }

  /** The keyword loop of get_news_for_stock: every scraper's results for
      each keyword, in keyword order. */
  method CollectAll(keywords: seq<string>, fetch: string -> Option<Soup>, today: string) returns (all: seq<Article>)
    ensures all == Collected(keywords, fetch, today)
  {
    all := [];
    for i := 0 to |keywords|
      invariant all == Collected(keywords[..i], fetch, today)
    {
      var found := SearchAll(keywords[i], fetch, today);
      CollectedStep(keywords, i, fetch, today);
      all := all + found;
    }
    assert keywords[..|keywords|] == keywords;
  }

  lemma CollectedStep(keywords: seq<string>, i: nat, fetch: string -> Option<Soup>, today: string)
    requires i < |keywords|
    ensures Collected(keywords[..i + 1], fetch, today) == Collected(keywords[..i], fetch, today) + KeywordResults(keywords[i], fetch, today)
  {
    assert keywords[..i + 1][..i] == keywords[..i];
  }

  /** NewsAggregator.get_news_for_stock. */
  method GetNewsForStock(code: string, fetch: string -> Option<Soup>, today: string) returns (r: seq<Article>)
    ensures r == NewsForStock(code, fetch, today)
  {
    var all := CollectAll(SearchKeywords(code), fetch, today);
    var unique := UniqueTagged(all, code);
    r := Take(unique, 90);
  }

  // ---------------------------------------------------------------------
  // Article pages

  /** A parsed article page. */
  datatype FullArticle = FullArticle(url: string, title: string, content: string, date: string, source: string, language: string)

  /** The text of an article body: its paragraphs joined by spaces, cut at
      5000 characters. */
  function BodyText(c: Content): (r: string)
    ensures |r| <= 5000
  {
    Take(Join(c.paragraphs, " "), 5000)
  }

  /** parse_article of the three aggregated scrapers: the page needs a
      title and a body. webmanagercenter dates it from the page's date
      element; the others with today's date. */
  function ParseArticle(source: string, url: string, fetch: string -> Option<Soup>, today: string): (r: Option<FullArticle>)
    requires source in ScraperNames
    ensures r.Some? ==> r.value.url == url && r.value.source == source && |r.value.content| <= 5000
    ensures r.Some? ==> r.value.language == (if source == "radioexpressfm" then "ar" else "fr")
  {
    var soup := fetch(url);
    if soup.None? || soup.value.title.None? || soup.value.content.None? then None
    else
      var date := if source == "webmanagercenter" then ParseDateText(soup.value.dateText.GetOr(""), today) else today;
      Some(FullArticle(url, soup.value.title.value, BodyText(soup.value.content.value), date, source,
                       if source == "radioexpressfm" then "ar" else "fr"))
  }

  /** IlboursaScraper.parse_article: only the title is required; the body
      is the content element's own text, or "" without one. */
  function IlboursaParseArticle(url: string, fetch: string -> Option<Soup>, today: string): (r: Option<FullArticle>)
    ensures r.Some? ==> r.value.url == url && r.value.source == "ilboursa" && |r.value.content| <= 5000
  {
    var soup := fetch(url);
    if soup.None? || soup.value.title.None? then None
    else
      var text := if soup.value.content.Some? then soup.value.content.value.text else "";
      Some(FullArticle(url, soup.value.title.value, Take(text, 5000), today, "ilboursa", "fr"))
  }

  /** get_full_article: the article's own scraper parses it; a source the
      aggregator has no scraper for gives None. */
  function GetFullArticle(a: Article, fetch: string -> Option<Soup>, today: string): (r: Option<FullArticle>)
    ensures a.source !in ScraperNames ==> r.None?
    ensures r.Some? ==> r.value.url == a.url && r.value.source == a.source && |r.value.content| <= 5000
  {
    if a.source in ScraperNames then ParseArticle(a.source, a.url, fetch, today) else None
  }
}
