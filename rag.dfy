/** The in-memory retrieval over CMF regulations that the agent uses: the
    regulations loaded once, word tokens and term frequencies, cosine
    similarity of two frequency tables, the ranked search and the context
    text built from its hits. */
module Rag {
  import opened Common
  import opened Text
  import Sorting

  datatype CmfDocument = CmfDocument(docId: string, title: string, titleAr: string, content: string,
                                     contentAr: string, category: string, penalty: string)

  /** A regulation as the JSON file holds it; a missing key is None. */
  datatype RawRegulation = RawRegulation(id: Option<string>, title: Option<string>, titleAr: Option<string>,
                                         content: Option<string>, contentAr: Option<string>,
                                         category: Option<string>, penalty: Option<string>)

  /** The built-in regulations by position: transparency, market abuse,
      insider trading. */
  function Regulation(k: nat): CmfDocument
  {
    if k == 0 then
      CmfDocument("cmf-01", "Regles de transparence et information du marche", "قواعد الشفافية والإعلام",
                  "Les societes cotees doivent publier des informations exactes et completes.",
                  "يجب على الشركات المدرجة نشر معلومات دقيقة وكاملة.", "transparency", "Amende")
    else if k == 1 then
      CmfDocument("cmf-02", "Abus de marche et manipulation", "إساءة استخدام السوق والتلاعب",
                  "Toute manipulation de cours ou diffusion de fausses informations est interdite.",
                  "يحظر أي تلاعب بالأسعار أو نشر معلومات كاذبة.", "market_manipulation", "Emprisonnement et amende")
    else
      CmfDocument("cmf-03", "Delits d'initie", "التداول بناء على معلومات داخلية",
                  "L'utilisation d'informations privilegiees pour des transactions est interdite.",
                  "يحظر استخدام المعلومات المميزة لإجراء المعاملات.", "insider_trading", "Emprisonnement de 1 a 5 ans")
  }

  /** The three regulations used when the file gives none. */
  function Builtin(): (r: seq<CmfDocument>)
    ensures |r| == 3
  {
    seq(3, k requires 0 <= k < 3 => Regulation(k))
  }

  /** The document a raw regulation becomes: id, title and content are
      required (a missing one raises KeyError), the other keys default to
      the empty string. */
  function DocumentFor(reg: RawRegulation): (r: Option<CmfDocument>)
    ensures r.Some? <==> reg.id.Some? && reg.title.Some? && reg.content.Some?
    ensures r.Some? ==> (r.value.docId == reg.id.value && r.value.title == reg.title.value
                         && r.value.content == reg.content.value && r.value.penalty == reg.penalty.GetOr(""))
  {
    if reg.id.None? || reg.title.None? || reg.content.None? then None
    else Some(CmfDocument(reg.id.value, reg.title.value, reg.titleAr.GetOr(""), reg.content.value,
                          reg.contentAr.GetOr(""), reg.category.GetOr(""), reg.penalty.GetOr("")))
  }

  /** The list after a load and the error it raised, if any. */
  datatype Loading = Loading(regs: seq<CmfDocument>, error: Option<string>)

  /** The documents appended while walking the file's list: the loop stops
      at the first entry without a required key, keeping what it appended. */
  function Converted(raw: seq<RawRegulation>): (r: Loading)
    ensures |r.regs| <= |raw|
    ensures r.error.None? ==> |r.regs| == |raw|
  {
    if |raw| == 0 then Loading([], None)
    else
      var front := Converted(raw[..|raw| - 1]);
      var d := DocumentFor(raw[|raw| - 1]);
      if front.error.Some? then front
      else if d.None? then Loading(front.regs, Some("KeyError"))
      else Loading(front.regs + [d.value], None)
  }

  /** _load_regulations from the list `current`: a non-empty list is kept;
      otherwise the file's regulations (None: no file), and the built-in
      three when that gives none. */
  function Loaded(current: seq<CmfDocument>, file: Option<seq<RawRegulation>>): Loading
  {
    if |current| > 0 then Loading(current, None)
    else
      var c := if file.None? then Loading([], None) else Converted(file.value);
      if c.error.Some? then c
      else if |c.regs| == 0 then Loading(Builtin(), None)
      else c
  }

  /** The regulations load at most once; a load that does not raise leaves
      a non-empty list, the built-in one when the file is absent or empty. */
  lemma LoadedFacts(current: seq<CmfDocument>, file: Option<seq<RawRegulation>>, again: Option<seq<RawRegulation>>)
    ensures Loaded(current, file).error.None? ==> |Loaded(current, file).regs| > 0
    ensures |Loaded(current, file).regs| > 0 ==>
      Loaded(Loaded(current, file).regs, again) == Loading(Loaded(current, file).regs, None)
    ensures |current| == 0 && (file.None? || (file.Some? && |file.value| == 0)) ==> Loaded(current, file) == Loading(Builtin(), None)
  {
  }

  /** A file whose every entry has the required keys loads in full, in
      order. */
  lemma {:induction false} ConvertedAll(raw: seq<RawRegulation>)
    requires forall i :: 0 <= i < |raw| ==> DocumentFor(raw[i]).Some?
    ensures Converted(raw).error.None?
    ensures forall i :: 0 <= i < |raw| ==> Converted(raw).regs[i] == DocumentFor(raw[i]).value
  {
    if |raw| > 0 {
      ConvertedAll(raw[..|raw| - 1]);
    }
  }

  /** After the first entry without a required key, the later entries
      change nothing. */
  lemma {:induction false} ConvertedStops(raw: seq<RawRegulation>, i: nat, n: nat)
    requires i < n <= |raw|
    requires Converted(raw[..i]).error.None? && DocumentFor(raw[i]).None?
    ensures Converted(raw[..n]) == Loading(Converted(raw[..i]).regs, Some("KeyError"))
    decreases n
  {
    assert raw[..n][..n - 1] == raw[..n - 1];
    if n == i + 1 {
      assert raw[..n][n - 1] == raw[i];
    } else {
      ConvertedStops(raw, i, n - 1);
    }
  }

  /** The module's regulation list. */
  class RegulationStore {
    var regulations: seq<CmfDocument>

    constructor()
      ensures regulations == []
    {
      regulations := [];
    }

    /** _load_regulations; `file` is the parsed file's list, None when the
        file does not exist. */
    method Load(file: Option<seq<RawRegulation>>) returns (error: Option<string>)
      modifies this
      ensures regulations == Loaded(old(regulations), file).regs
      ensures error == Loaded(old(regulations), file).error
    {
      error := None;
      if |regulations| > 0 {
        return;
      }
      if file.Some? {
        var raw := file.value;
        var i := 0;
        while i < |raw|
          invariant 0 <= i <= |raw|
          invariant Converted(raw[..i]) == Loading(regulations, None)
        {
          assert raw[..i + 1][..i] == raw[..i];
          var d := DocumentFor(raw[i]);
          if d.None? {
            ConvertedStops(raw, i, |raw|);
            assert raw[..|raw|] == raw;
            return Some("KeyError");
          }
          regulations := regulations + [d.value];
          i := i + 1;
        }
        assert raw[..|raw|] == raw;
      }
      if |regulations| == 0 {
        regulations := Builtin();
      }
    }

    /** search_cmf: loads the regulations, then ranks them against the
        query. */
    method SearchCmf(file: Option<seq<RawRegulation>>, query: string, topK: nat, isWord: char -> bool, sqrt: real -> real)
      returns (r: Result<seq<CmfDocument>, string>)
      modifies this
      ensures regulations == Loaded(old(regulations), file).regs
      ensures Loaded(old(regulations), file).error.Some? ==> r == Err(Loaded(old(regulations), file).error.value)
      ensures Loaded(old(regulations), file).error.None? ==> r == Ok(Ranked(regulations, query, topK, isWord, sqrt))
    {
      var error := Load(file);
      if error.Some? {
        return Err(error.value);
      }
      var docs := Search(regulations, query, topK, isWord, sqrt);
      return Ok(docs);
    }
  }

  /** A token character: a word character (`\w`, given as `isWord`) or an
      apostrophe. */
  predicate TokenChar(c: char, isWord: char -> bool)
  {
    isWord(c) || c == '\''
  }

  function IsToken(isWord: char -> bool): char -> bool
  {
    c => TokenChar(c, isWord)
  }

  /** The maximal runs of token characters of `s`, in order
      (`re.findall(r"[\w']+", s)`). */
  function Tokens(s: string, isWord: char -> bool): (r: seq<string>)
    ensures forall i :: 0 <= i < |r| ==> |r[i]| > 0 && forall j :: 0 <= j < |r[i]| ==> TokenChar(r[i][j], isWord)
    decreases |s|
  {
    if |s| == 0 then []
    else if !TokenChar(s[0], isWord) then Tokens(s[1..], isWord)
    else
      var k := LeadingSpaces(s, IsToken(isWord));
      [s[..k]] + Tokens(s[k..], isWord)
  }

  /** _tokenize. */
  function Tokenize(text: string, isWord: char -> bool): seq<string>
  {
    Tokens(Lower(text), isWord)
  }

  /** The run at the front of `a` is the run at the front of `a + t` when a
      separator ends it inside `a`. */
  lemma {:induction false} RunPrefix(a: string, t: string, p: char -> bool)
    requires LeadingSpaces(a, p) < |a| || (|t| > 0 && !p(t[0]))
    ensures LeadingSpaces(a + t, p) == LeadingSpaces(a, p)
    decreases |a|
  {
    if |a| > 0 && p(a[0]) {
      assert (a + t)[1..] == a[1..] + t;
      RunPrefix(a[1..], t, p);
    }
  }

  /** A text made only of token characters is one token. */
  lemma {:induction false} TokensOfWord(w: string, isWord: char -> bool)
    requires |w| > 0 && forall j :: 0 <= j < |w| ==> TokenChar(w[j], isWord)
    ensures Tokens(w, isWord) == [w]
  {
    RunAll(w, IsToken(isWord));
    assert w[..|w|] == w && w[|w|..] == [];
  }

  lemma {:induction false} RunAll(w: string, p: char -> bool)
    requires forall j :: 0 <= j < |w| ==> p(w[j])
    ensures LeadingSpaces(w, p) == |w|
  {
    if |w| > 0 {
      RunAll(w[1..], p);
    }
  }

  /** A text without token characters has no tokens. */
  lemma {:induction false} TokensOfSeparators(s: string, isWord: char -> bool)
    requires forall j :: 0 <= j < |s| ==> !TokenChar(s[j], isWord)
    ensures Tokens(s, isWord) == []
  {
    if |s| > 0 {
      TokensOfSeparators(s[1..], isWord);
    }
  }

  /** The first token of a text that starts with a token character. */
  lemma TokensFront(a: string, t: string, isWord: char -> bool)
    requires |a| > 0 && TokenChar(a[0], isWord)
    requires LeadingSpaces(a, IsToken(isWord)) < |a| || (|t| > 0 && !TokenChar(t[0], isWord))
    ensures Tokens(a + t, isWord) == [a[..LeadingSpaces(a, IsToken(isWord))]] + Tokens((a + t)[LeadingSpaces(a, IsToken(isWord))..], isWord)
  {
    var k := LeadingSpaces(a, IsToken(isWord));
    RunPrefix(a, t, IsToken(isWord));
    assert (a + t)[0] == a[0];
    assert (a + t)[..k] == a[..k];
  }

  /** Texts separated by a non-token character tokenize separately: no
      token spans the separator. */
  lemma {:induction false} TokensSeparate(a: string, c: char, b: string, isWord: char -> bool)
    requires !TokenChar(c, isWord)
    ensures Tokens(a + [c] + b, isWord) == Tokens(a, isWord) + Tokens(b, isWord)
    decreases |a|
  {
    var s := a + [c] + b;
    if |a| == 0 {
      assert s == [c] + b;
      assert s[1..] == b;
    } else if !TokenChar(a[0], isWord) {
      assert s[0] == a[0];
      assert s[1..] == a[1..] + [c] + b;
      TokensSeparate(a[1..], c, b, isWord);
    } else {
      var k := LeadingSpaces(a, IsToken(isWord));
      assert s == a + ([c] + b);
      TokensFront(a, [c] + b, isWord);
      if k < |a| {
        assert s[k..] == a[k..] + [c] + b;
        TokensSeparate(a[k..], c, b, isWord);
      } else {
        assert s[k..] == [c] + b;
        assert ([c] + b)[1..] == b;
        assert Tokens(a[k..], isWord) == [];
      }
    }
  }

  /** A term-frequency table: the distinct tokens in order of first
      occurrence with their counts (a Python dict). */
  type Frequencies = seq<(string, nat)>

  /** Whether every element of `ts` differs from the others. */
  predicate Distinct(ts: seq<string>)
  {
    forall i, j :: 0 <= i < j < |ts| ==> ts[i] != ts[j]
  }

  function KeyList(tf: Frequencies): (r: seq<string>)
    ensures |r| == |tf| && forall i :: 0 <= i < |tf| ==> r[i] == tf[i].0
  {
    seq(|tf|, i requires 0 <= i < |tf| => tf[i].0)
  }

  predicate DistinctKeys(tf: Frequencies)
  {
    Distinct(KeyList(tf))
  }

  /** tf.get(token, 0). */
  function Get(tf: Frequencies, token: string): nat
  {
    if |tf| == 0 then 0 else if tf[0].0 == token then tf[0].1 else Get(tf[1..], token)
  }

  predicate HasKey(tf: Frequencies, token: string)
  {
    token in KeyList(tf)
  }

  /** tf[token] = tf.get(token, 0) + 1: an existing key keeps its place. */
  function Bump(tf: Frequencies, token: string): (r: Frequencies)
    ensures |r| == |tf| || |r| == |tf| + 1
  {
    if |tf| == 0 then [(token, 1)]
    else if tf[0].0 == token then [(token, tf[0].1 + 1)] + tf[1..]
    else [tf[0]] + Bump(tf[1..], token)
  }

  /** The table _tf builds for `tokens`. */
  function TF(tokens: seq<string>): Frequencies
  {
    if |tokens| == 0 then [] else Bump(TF(tokens[..|tokens| - 1]), tokens[|tokens| - 1])
  }

  /** _tf. */
  method TermFrequencies(tokens: seq<string>) returns (tf: Frequencies)
    ensures tf == TF(tokens)
  {
    tf := [];
    for i := 0 to |tokens|
      invariant tf == TF(tokens[..i])
    {
      assert tokens[..i + 1][..i] == tokens[..i];
      var token := tokens[i];
      tf := Bump(tf, token);
    }
    assert tokens[..|tokens|] == tokens;
  }

  /** Counting a token adds one to its count and nothing else. */
  lemma {:induction false} BumpGet(tf: Frequencies, token: string, u: string)
    ensures Get(Bump(tf, token), u) == Get(tf, u) + (if u == token then 1 else 0)
  {
    if |tf| > 0 && tf[0].0 != token {
      BumpGet(tf[1..], token, u);
    }
  }

  lemma KeyListCons(x: (string, nat), rest: Frequencies)
    ensures KeyList([x] + rest) == [x.0] + KeyList(rest)
  {
    assert forall i :: 0 < i < |rest| + 1 ==> ([x] + rest)[i] == rest[i - 1];
  }

  lemma KeyMissHead(key: string, keys: seq<string>, token: string)
    requires key != token
    ensures token in [key] + keys <==> token in keys
    ensures [key] + (keys + [token]) == [key] + keys + [token]
  {
  }

  /** A counted token keeps its place among the keys; a new one goes last. */
  lemma {:induction false} BumpKeys(tf: Frequencies, token: string)
    ensures KeyList(Bump(tf, token)) == if HasKey(tf, token) then KeyList(tf) else KeyList(tf) + [token]
  {
    if |tf| > 0 {
      var head, rest := tf[0], tf[1..];
      assert tf == [head] + rest;
      KeyListCons(head, rest);
      if head.0 == token {
        var bumped := (token, head.1 + 1);
        assert Bump(tf, token) == [bumped] + rest;
        KeyListCons(bumped, rest);
        assert KeyList(tf)[0] == token;
      } else {
        var later := Bump(rest, token);
        assert Bump(tf, token) == [head] + later;
        KeyListCons(head, later);
        BumpKeys(rest, token);
        KeyMissHead(head.0, KeyList(rest), token);
      }
    }
  }

  lemma {:induction false} BumpTotal(tf: Frequencies, token: string)
    ensures Total(Bump(tf, token)) == Total(tf) + 1
  {
    if |tf| > 0 {
      if tf[0].0 == token {
        assert Bump(tf, token)[1..] == tf[1..];
      } else {
        BumpTotal(tf[1..], token);
        assert Bump(tf, token)[1..] == Bump(tf[1..], token);
      }
    }
  }

  lemma BumpDistinct(tf: Frequencies, token: string)
    requires DistinctKeys(tf)
    ensures DistinctKeys(Bump(tf, token))
  {
    BumpKeys(tf, token);
  }

  /** The sum of the table's counts. */
  function Total(tf: Frequencies): nat
  {
    if |tf| == 0 then 0 else tf[0].1 + Total(tf[1..])
  }

  /** The table of a token list has one key per distinct token, counts
      each token's occurrences, and its counts sum to the number of
      tokens. */
  lemma {:induction false} TFFacts(tokens: seq<string>)
    ensures DistinctKeys(TF(tokens))
    ensures forall u :: Get(TF(tokens), u) == Count(tokens, (t: string) => t == u)
    ensures forall u :: HasKey(TF(tokens), u) <==> u in tokens
    ensures Total(TF(tokens)) == |tokens|
  {
    if |tokens| > 0 {
      var front := tokens[..|tokens| - 1];
      var last := tokens[|tokens| - 1];
      TFFacts(front);
      BumpDistinct(TF(front), last);
      BumpKeys(TF(front), last);
      BumpTotal(TF(front), last);
      forall u ensures Get(TF(tokens), u) == Count(tokens, (t: string) => t == u) {
        BumpGet(TF(front), last, u);
      }
      assert tokens == front + [last];
      forall u ensures u in tokens <==> u in front || u == last {
      }
    }
  }

  /** `set(a).intersection(b)`, in `a`'s order. */
  function SharedTokens(a: Frequencies, b: Frequencies): seq<string>
  {
    Filter(KeyList(a), (t: string) => HasKey(b, t))
  }

  /** sum(a[t] * b[t] for t in ts). */
  function Dot(ts: seq<string>, a: Frequencies, b: Frequencies): real
  {
    if |ts| == 0 then 0.0 else (Get(a, ts[0]) as real) * (Get(b, ts[0]) as real) + Dot(ts[1..], a, b)
  }

  /** sum(v * v for v in tf.values()). */
  function SquareSum(tf: Frequencies): (r: real)
    ensures r >= 0.0
  {
    if |tf| == 0 then 0.0 else (tf[0].1 as real) * (tf[0].1 as real) + SquareSum(tf[1..])
  }

  /** _cosine_similarity; `sqrt` is math.sqrt. */
  function Cosine(a: Frequencies, b: Frequencies, sqrt: real -> real): (r: real)
    ensures |a| == 0 || |b| == 0 ==> r == 0.0
    ensures sqrt(SquareSum(a)) == 0.0 || sqrt(SquareSum(b)) == 0.0 ==> r == 0.0
  {
    if |a| == 0 || |b| == 0 then 0.0
    else
      var denomA := sqrt(SquareSum(a));
      var denomB := sqrt(SquareSum(b));
      if denomA == 0.0 || denomB == 0.0 then 0.0
      else Dot(SharedTokens(a, b), a, b) / (denomA * denomB)
  }

  lemma {:induction false} DotNonNegative(ts: seq<string>, a: Frequencies, b: Frequencies)
    ensures Dot(ts, a, b) >= 0.0
  {
    if |ts| > 0 {
      DotNonNegative(ts[1..], a, b);
    }
  }

  lemma {:induction false} DotSwap(ts: seq<string>, a: Frequencies, b: Frequencies)
    ensures Dot(ts, a, b) == Dot(ts, b, a)
  {
    if |ts| > 0 {
      DotSwap(ts[1..], a, b);
    }
  }

  lemma {:induction false} DotConcat(xs: seq<string>, ys: seq<string>, a: Frequencies, b: Frequencies)
    ensures Dot(xs + ys, a, b) == Dot(xs, a, b) + Dot(ys, a, b)
  {
    if |xs| == 0 {
      assert xs + ys == ys;
    } else {
      assert (xs + ys)[1..] == xs[1..] + ys;
      DotConcat(xs[1..], ys, a, b);
    }
  }

  /** Taking one token out of the sum. */
  lemma DotRemove(ys: seq<string>, k: nat, a: Frequencies, b: Frequencies)
    requires k < |ys|
    ensures Dot(ys, a, b) == Dot([ys[k]], a, b) + Dot(ys[..k] + ys[k + 1..], a, b)
  {
    assert ys == ys[..k] + ([ys[k]] + ys[k + 1..]);
    DotConcat(ys[..k], [ys[k]] + ys[k + 1..], a, b);
    DotConcat([ys[k]], ys[k + 1..], a, b);
    DotConcat(ys[..k], ys[k + 1..], a, b);
  }

  /** Removing the element `ys[k]` from a distinct sequence leaves a
      distinct sequence without it. */
  lemma RemoveDistinct(ys: seq<string>, k: nat)
    requires k < |ys| && Distinct(ys)
    ensures Distinct(ys[..k] + ys[k + 1..])
    ensures forall t :: t in ys[..k] + ys[k + 1..] <==> t in ys && t != ys[k]
  {
    var rest := ys[..k] + ys[k + 1..];
    forall n | 0 <= n < |rest| ensures rest[n] == ys[if n < k then n else n + 1] {
    }
    forall t | t in ys && t != ys[k] ensures t in rest {
      var n :| 0 <= n < |ys| && ys[n] == t;
      if n < k {
        assert rest[n] == t;
      } else {
        assert rest[n - 1] == t;
      }
    }
  }

  /** The sum does not depend on the order of the (distinct) tokens. */
  lemma {:induction false} DotReorder(xs: seq<string>, ys: seq<string>, a: Frequencies, b: Frequencies)
    requires Distinct(xs) && Distinct(ys)
    requires forall t :: t in xs <==> t in ys
    ensures Dot(xs, a, b) == Dot(ys, a, b)
    decreases |xs|
  {
    if |xs| == 0 {
      assert forall i :: 0 <= i < |ys| ==> ys[i] in ys;
    } else {
      var x := xs[0];
      assert x in ys;
      var k :| 0 <= k < |ys| && ys[k] == x;
      RemoveDistinct(ys, k);
      RemoveDistinct(xs, 0);
      assert xs[..0] + xs[1..] == xs[1..];
      var rest := ys[..k] + ys[k + 1..];
      assert Distinct(xs[1..]) && Distinct(rest);
      forall t ensures t in xs[1..] <==> t in rest {
        assert t in xs <==> t in ys;
      }
      DotReorder(xs[1..], ys[..k] + ys[k + 1..], a, b);
      DotRemove(ys, k, a, b);
      DotRemove(xs, 0, a, b);
    }
  }

  /** The keys two tables share, taken from either side, are the same
      distinct tokens. */
  lemma CommonSameTokens(a: Frequencies, b: Frequencies)
    requires DistinctKeys(a) && DistinctKeys(b)
    ensures Distinct(SharedTokens(a, b)) && Distinct(SharedTokens(b, a))
    ensures forall t :: t in SharedTokens(a, b) <==> t in SharedTokens(b, a)
  {
    DistinctFilter(KeyList(a), (t: string) => HasKey(b, t));
    DistinctFilter(KeyList(b), (t: string) => HasKey(a, t));
  }

  lemma {:induction false} DistinctFilter(s: seq<string>, p: string -> bool)
    requires Distinct(s)
    ensures Distinct(Filter(s, p))
  {
    if |s| > 0 {
      var front := s[..|s| - 1];
      assert Distinct(front);
      DistinctFilter(front, p);
      var f := Filter(front, p);
      if p(s[|s| - 1]) {
        assert s[|s| - 1] !in front;
        var g := f + [s[|s| - 1]];
        forall i, j | 0 <= i < j < |g| ensures g[i] != g[j] {
          if j == |f| {
            assert g[i] == f[i] && f[i] in front;
          } else {
            assert g[i] == f[i] && g[j] == f[j];
          }
        }
      }
    }
  }

  /** Cosine similarity is symmetric. */
  lemma CosineSymmetric(a: Frequencies, b: Frequencies, sqrt: real -> real)
    requires DistinctKeys(a) && DistinctKeys(b)
    ensures Cosine(a, b, sqrt) == Cosine(b, a, sqrt)
  {
    if |a| > 0 && |b| > 0 {
      CommonSameTokens(a, b);
      DotReorder(SharedTokens(a, b), SharedTokens(b, a), a, b);
      DotSwap(SharedTokens(b, a), a, b);
    }
  }

  /** Cosine similarity of count tables is non-negative when the square
      root is. */
  lemma CosineNonNegative(a: Frequencies, b: Frequencies, sqrt: real -> real)
    requires sqrt(SquareSum(a)) >= 0.0 && sqrt(SquareSum(b)) >= 0.0
    ensures Cosine(a, b, sqrt) >= 0.0
  {
    if |a| > 0 && |b| > 0 && sqrt(SquareSum(a)) != 0.0 && sqrt(SquareSum(b)) != 0.0 {
      DotNonNegative(SharedTokens(a, b), a, b);
      assert sqrt(SquareSum(a)) * sqrt(SquareSum(b)) > 0.0;
    }
  }

  /** The text a document is matched on. */
  function DocText(d: CmfDocument): string
  {
    d.title + " " + d.titleAr + " " + d.content + " " + d.contentAr + " " + d.category
  }

  /** A document's score against the query. */
  function Score(query: string, d: CmfDocument, isWord: char -> bool, sqrt: real -> real): real
  {
    Cosine(TF(Tokenize(query, isWord)), TF(Tokenize(DocText(d), isWord)), sqrt)
  }

  function ScoreOf(query: string, isWord: char -> bool, sqrt: real -> real): CmfDocument -> real
  {
    d => Score(query, d, isWord, sqrt)
  }

  type Scored = (real, CmfDocument)

  /** The sort key `lambda x: x[0]`. */
  function First(): Scored -> real
  {
    (p: Scored) => p.0
  }

  /** The (score, document) pairs, in list order. */
  function ScoredDocs(docs: seq<CmfDocument>, query: string, isWord: char -> bool, sqrt: real -> real): (r: seq<Scored>)
    ensures |r| == |docs| && forall i :: 0 <= i < |docs| ==> r[i] == (Score(query, docs[i], isWord, sqrt), docs[i])
  {
    seq(|docs|, i requires 0 <= i < |docs| => (Score(query, docs[i], isWord, sqrt), docs[i]))
  }

  function Documents(ps: seq<Scored>): (r: seq<CmfDocument>)
    ensures |r| == |ps| && forall i :: 0 <= i < |ps| ==> r[i] == ps[i].1
  {
    seq(|ps|, i requires 0 <= i < |ps| => ps[i].1)
  }

  /** The filter `if score > 0`. */
  function IsPositive(): Scored -> bool
  {
    (p: Scored) => p.0 > 0.0
  }

  /** The pairs search_cmf keeps: sorted by non-increasing score (a
      stable sort), the first `topK`, those with a positive score. */
  function Kept(docs: seq<CmfDocument>, query: string, topK: nat, isWord: char -> bool, sqrt: real -> real): seq<Scored>
  {
    var sorted := Sorting.SortDesc(ScoredDocs(docs, query, isWord, sqrt), First());
    Filter(Take(sorted, topK), IsPositive())
  }

  /** The documents search_cmf returns. */
  function Ranked(docs: seq<CmfDocument>, query: string, topK: nat, isWord: char -> bool, sqrt: real -> real): seq<CmfDocument>
  {
    Documents(Kept(docs, query, topK, isWord, sqrt))
  }

  /** The ranking over the loaded list. */
  method Search(docs: seq<CmfDocument>, query: string, topK: nat, isWord: char -> bool, sqrt: real -> real)
    returns (r: seq<CmfDocument>)
    ensures r == Ranked(docs, query, topK, isWord, sqrt)
  {
    var scored := ScoreDocs(docs, query, isWord, sqrt);
    var sorted := Sorting.SortDesc(scored, First());
    var kept := Filter(Take(sorted, topK), IsPositive());
    r := DocumentsOf(kept);
  }

  /** The scoring loop of search_cmf. */
  method ScoreDocs(docs: seq<CmfDocument>, query: string, isWord: char -> bool, sqrt: real -> real)
    returns (scored: seq<Scored>)
    ensures scored == ScoredDocs(docs, query, isWord, sqrt)
  {
    scored := [];
    for i := 0 to |docs|
      invariant |scored| == i
      invariant forall k :: 0 <= k < i ==> scored[k] == (Score(query, docs[k], isWord, sqrt), docs[k])
    {
      scored := scored + [(Score(query, docs[i], isWord, sqrt), docs[i])];
    }
  }

  /** The list comprehension taking the documents of the kept pairs. */
  method DocumentsOf(kept: seq<Scored>) returns (r: seq<CmfDocument>)
    ensures r == Documents(kept)
  {
    r := [];
    for i := 0 to |kept|
      invariant |r| == i
      invariant forall k :: 0 <= k < i ==> r[k] == kept[k].1
    {
      r := r + [kept[i].1];
    }
  }

  /** Every kept pair is a document of the list with its own positive
      score. */
  lemma KeptMembers(docs: seq<CmfDocument>, query: string, topK: nat, isWord: char -> bool, sqrt: real -> real)
    ensures forall p :: p in Kept(docs, query, topK, isWord, sqrt) ==>
      p.1 in docs && p.0 == Score(query, p.1, isWord, sqrt) && p.0 > 0.0
  {
    var scored := ScoredDocs(docs, query, isWord, sqrt);
    Sorting.SortDescMembers(scored, First());
    forall p | p in scored ensures p.1 in docs && p.0 == Score(query, p.1, isWord, sqrt) {
      var i :| 0 <= i < |scored| && scored[i] == p;
    }
  }

  /** The kept pairs come in non-increasing score order. */
  lemma KeptSorted(docs: seq<CmfDocument>, query: string, topK: nat, isWord: char -> bool, sqrt: real -> real)
    ensures Sorting.NonIncreasing(Kept(docs, query, topK, isWord, sqrt), First())
  {
    var sorted := Sorting.SortDesc(ScoredDocs(docs, query, isWord, sqrt), First());
    Sorting.SortDescSorted(ScoredDocs(docs, query, isWord, sqrt), First());
    var top := Take(sorted, topK);
    var kept := Filter(top, IsPositive());
    FilterIsSubsequence(top, IsPositive());
    var idx: seq<nat> :| |idx| == |kept| && (forall k :: 0 <= k < |idx| ==> idx[k] < |top| && top[idx[k]] == kept[k])
      && (forall k, l :: 0 <= k < l < |idx| ==> idx[k] < idx[l]);
    forall i, j | 0 <= i < j < |kept| ensures kept[i].0 >= kept[j].0 {
      assert kept[i] == sorted[idx[i]] && kept[j] == sorted[idx[j]];
    }
  }

  /** At most `topK` documents, all from the list, all with a positive
      score, in non-increasing score order. */
  lemma RankedFacts(docs: seq<CmfDocument>, query: string, topK: nat, isWord: char -> bool, sqrt: real -> real)
    ensures |Ranked(docs, query, topK, isWord, sqrt)| <= topK
    ensures forall d :: d in Ranked(docs, query, topK, isWord, sqrt) ==> d in docs && Score(query, d, isWord, sqrt) > 0.0
    ensures Sorting.NonIncreasing(Ranked(docs, query, topK, isWord, sqrt), ScoreOf(query, isWord, sqrt))
  {
    var kept := Kept(docs, query, topK, isWord, sqrt);
    var r := Ranked(docs, query, topK, isWord, sqrt);
    KeptMembers(docs, query, topK, isWord, sqrt);
    KeptSorted(docs, query, topK, isWord, sqrt);
    forall i | 0 <= i < |r| ensures r[i] in docs && ScoreOf(query, isWord, sqrt)(r[i]) == kept[i].0 > 0.0 {
      assert kept[i] in kept;
    }
  }

  /** The documents with a positive score against the query. */
  function PositiveFor(query: string, isWord: char -> bool, sqrt: real -> real): CmfDocument -> bool
  {
    d => Score(query, d, isWord, sqrt) > 0.0
  }

  /** Scoring the documents keeps which of them score positive. */
  lemma {:induction false} ScoredPositives(docs: seq<CmfDocument>, query: string, isWord: char -> bool, sqrt: real -> real)
    ensures Count(ScoredDocs(docs, query, isWord, sqrt), IsPositive()) == Count(docs, PositiveFor(query, isWord, sqrt))
  {
    if |docs| > 0 {
      var front := docs[..|docs| - 1];
      ScoredPositives(front, query, isWord, sqrt);
      assert ScoredDocs(docs, query, isWord, sqrt)[..|docs| - 1] == ScoredDocs(front, query, isWord, sqrt);
    }
  }

  /** In a sorted list of pairs, a pair not kept by the cut and the
      positive filter scores no higher than any kept pair. */
  lemma KeptBeatsRest(sorted: seq<Scored>, topK: nat, pd: Scored, pe: Scored)
    requires Sorting.NonIncreasing(sorted, First())
    requires pd in sorted && pd !in Filter(Take(sorted, topK), IsPositive())
    requires pe in Filter(Take(sorted, topK), IsPositive())
    ensures pd.0 <= pe.0
  {
    var top := Take(sorted, topK);
    assert pe in top && pe.0 > 0.0;
    var a :| 0 <= a < |top| && top[a] == pe;
    var b :| 0 <= b < |sorted| && sorted[b] == pd;
    if b < |top| {
      assert pd in top;
      assert pd.0 <= 0.0;
    } else {
      assert sorted[a] == pe;
    }
  }

  /** search_cmf returns min(top_k, number of positive-score documents)
      documents. */
  lemma RankedCount(docs: seq<CmfDocument>, query: string, topK: nat, isWord: char -> bool, sqrt: real -> real)
    ensures |Ranked(docs, query, topK, isWord, sqrt)| == MinInt(topK, Count(docs, PositiveFor(query, isWord, sqrt)))
  {
    var scored := ScoredDocs(docs, query, isWord, sqrt);
    var sorted := Sorting.SortDesc(scored, First());
    Sorting.SortDescSorted(scored, First());
    Sorting.SortDescPermutation(scored, First());
    Sorting.CountPrefixClosed(sorted, IsPositive(), topK);
    CountPermutation(sorted, scored, IsPositive());
    ScoredPositives(docs, query, isWord, sqrt);
  }

  /** search_cmf returns the best documents: a listed document that is left
      out scores no higher than any returned one. */
  lemma RankedIsBest(docs: seq<CmfDocument>, query: string, topK: nat, isWord: char -> bool, sqrt: real -> real)
    ensures forall d, e :: (d in docs && d !in Ranked(docs, query, topK, isWord, sqrt)
      && e in Ranked(docs, query, topK, isWord, sqrt)) ==> Score(query, d, isWord, sqrt) <= Score(query, e, isWord, sqrt)
  {
    var scored := ScoredDocs(docs, query, isWord, sqrt);
    var sorted := Sorting.SortDesc(scored, First());
    Sorting.SortDescSorted(scored, First());
    Sorting.SortDescMembers(scored, First());
    var kept := Kept(docs, query, topK, isWord, sqrt);
    assert kept == Filter(Take(sorted, topK), IsPositive());
    var r := Ranked(docs, query, topK, isWord, sqrt);
    KeptMembers(docs, query, topK, isWord, sqrt);
    forall d, e | d in docs && d !in r && e in r
      ensures Score(query, d, isWord, sqrt) <= Score(query, e, isWord, sqrt)
    {
      var i :| 0 <= i < |r| && r[i] == e;
      assert kept[i] in kept;
      var k :| 0 <= k < |docs| && docs[k] == d;
      var pd := scored[k];
      assert pd in sorted;
      assert pd !in kept by {
        forall c | 0 <= c < |kept| ensures kept[c] != pd {
          assert r[c] == kept[c].1 && r[c] in r;
        }
      }
      KeptBeatsRest(sorted, topK, pd, kept[i]);
    }
  }

  /** The lines format_cmf_context writes for one document: its title and
      content, in Arabic iff `lang` is "ar", then its sanction when it has
      one. */
  function DocLines(d: CmfDocument, lang: string): (r: seq<string>)
    ensures |r| == if d.penalty != "" then 2 else 1
    ensures r[0] == if lang == "ar" then "- " + d.titleAr + ": " + d.contentAr else "- " + d.title + ": " + d.content
  {
    (if lang == "ar" then ["- " + d.titleAr + ": " + d.contentAr] else ["- " + d.title + ": " + d.content])
    + (if d.penalty != "" then ["  Sanction: " + d.penalty] else [])
  }

  function Sections(docs: seq<CmfDocument>, lang: string): seq<string>
  {
    if |docs| == 0 then [] else Sections(docs[..|docs| - 1], lang) + DocLines(docs[|docs| - 1], lang)
  }

  lemma AppendAssoc(a: seq<string>, b: seq<string>, c: seq<string>)
    ensures (a + b) + c == a + (b + c)
  {
  }

  /** Formatting one more document appends its lines. */
  lemma SectionsStep(docs: seq<CmfDocument>, i: nat, lang: string)
    requires i < |docs|
    ensures Sections(docs[..i + 1], lang) == Sections(docs[..i], lang) + DocLines(docs[i], lang)
  {
    assert docs[..i + 1][..i] == docs[..i];
  }

  /** One line per document plus one per sanction. */
  lemma {:induction false} SectionsLength(docs: seq<CmfDocument>, lang: string)
    ensures |Sections(docs, lang)| == |docs| + Count(docs, (d: CmfDocument) => d.penalty != "")
  {
    if |docs| > 0 {
      SectionsLength(docs[..|docs| - 1], lang);
    }
  }

  /** The context text for a search's documents. */
  function Context(docs: seq<CmfDocument>, lang: string): (r: string)
    ensures |docs| == 0 <==> r == ""
  {
    if |docs| == 0 then ""
    else
      var parts := ["CMF regulation excerpts:"] + Sections(docs, lang);
      assert Join(parts, "\n") != "" by {
        JoinNonEmpty(parts, "\n");
      }
      Join(parts, "\n")
  }

  /** format_cmf_context. */
  method FormatCmfContext(store: RegulationStore, file: Option<seq<RawRegulation>>, query: string, topK: nat,
                          lang: string, isWord: char -> bool, sqrt: real -> real)
    returns (r: Result<string, string>)
    modifies store
    ensures store.regulations == Loaded(old(store.regulations), file).regs
    ensures Loaded(old(store.regulations), file).error.Some? ==> r.Err?
    ensures Loaded(old(store.regulations), file).error.None? ==>
      r == Ok(Context(Ranked(store.regulations, query, topK, isWord, sqrt), lang))
  {
    var found := store.SearchCmf(file, query, topK, isWord, sqrt);
    if found.Err? {
      return Err(found.error);
    }
    var text := FormatDocs(found.value, lang);
    return Ok(text);
  }

  /** The context text for the found documents: nothing for no documents,
      otherwise the header line and each document's lines, joined by line
      breaks. */
  method FormatDocs(docs: seq<CmfDocument>, lang: string) returns (text: string)
    ensures text == Context(docs, lang)
  {
    if |docs| == 0 {
      return "";
    }
    var sections := ["CMF regulation excerpts:"];
    for i := 0 to |docs|
      invariant sections == ["CMF regulation excerpts:"] + Sections(docs[..i], lang)
    {
      SectionsStep(docs, i, lang);
      var lines := DocLines(docs[i], lang);
      AppendAssoc(["CMF regulation excerpts:"], Sections(docs[..i], lang), lines);
      sections := sections + lines;
    }
    assert docs[..|docs|] == docs;
    return Join(sections, "\n");
  }
}
