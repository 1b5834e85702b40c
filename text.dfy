/** String helpers shared by the Python and JavaScript models: case
    folding, whitespace trimming, splitting and joining. */
module Text {
  import opened Common

  /** Upper-case letters that Python's `str.lower` and JavaScript's
      `toLowerCase` map by adding 32: ASCII A-Z and Latin-1 À-Þ except ×. */
  predicate IsFoldableUpper(c: char)
  {
    ('A' <= c <= 'Z') || ('À' <= c <= 'Þ' && c != '×')
  }

  function LowerChar(c: char): (r: char)
    ensures !IsFoldableUpper(c) ==> r == c
  {
    if IsFoldableUpper(c) then (c as int + 32) as char else c
  }

  /** Lower-casing, character by character. */
  function Lower(s: string): (r: string)
    ensures |r| == |s|
    ensures forall i :: 0 <= i < |s| ==> r[i] == LowerChar(s[i])
  {
    seq(|s|, i requires 0 <= i < |s| => LowerChar(s[i]))
  }

  lemma LowerIdempotent(s: string)
    ensures Lower(Lower(s)) == Lower(s)
  {
  }

  /** Lower-case letters that `str.upper` maps by subtracting 32: ASCII a-z
      and Latin-1 à-þ except ÷. */
  predicate IsFoldableLower(c: char)
  {
    ('a' <= c <= 'z') || ('à' <= c <= 'þ' && c != '÷')
  }

  function UpperChar(c: char): (r: char)
    ensures !IsFoldableLower(c) ==> r == c
    ensures IsFoldableLower(c) ==> IsFoldableUpper(r) && LowerChar(r) == c
  {
    if IsFoldableLower(c) then (c as int - 32) as char else c
  }

  /** Upper-casing, character by character. */
  function Upper(s: string): (r: string)
    ensures |r| == |s|
    ensures forall i :: 0 <= i < |s| ==> r[i] == UpperChar(s[i])
  {
    seq(|s|, i requires 0 <= i < |s| => UpperChar(s[i]))
  }

  /** Python's `str.isspace` characters. */
  predicate IsPySpace(c: char)
  {
    c in {' ', '\t', '\n', '\r', '\U{000B}', '\U{000C}', '\U{001C}', '\U{001D}', '\U{001E}', '\U{001F}',
          '\U{0085}', '\U{00A0}', '\U{1680}', '\U{2028}', '\U{2029}', '\U{202F}', '\U{205F}', '\U{3000}'}
    || ('\U{2000}' <= c <= '\U{200A}')
  }

  /** The characters JavaScript's `String.prototype.trim` removes. */
  predicate IsJsSpace(c: char)
  {
    c in {' ', '\t', '\n', '\r', '\U{000B}', '\U{000C}', '\U{00A0}', '\U{1680}', '\U{2028}', '\U{2029}',
          '\U{202F}', '\U{205F}', '\U{3000}', '\U{FEFF}'}
    || ('\U{2000}' <= c <= '\U{200A}')
  }

  /** Number of leading characters of `s` that are spaces. */
  function LeadingSpaces(s: string, isSpace: char -> bool): (k: nat)
    ensures k <= |s|
    ensures forall i :: 0 <= i < k ==> isSpace(s[i])
    ensures k < |s| ==> !isSpace(s[k])
  {
    if |s| > 0 && isSpace(s[0]) then 1 + LeadingSpaces(s[1..], isSpace) else 0
  }

  /** Number of trailing characters of `s` that are spaces. */
  function TrailingSpaces(s: string, isSpace: char -> bool): (k: nat)
    ensures k <= |s|
    ensures forall i :: |s| - k <= i < |s| ==> isSpace(s[i])
    ensures k < |s| ==> !isSpace(s[|s| - 1 - k])
  {
    if |s| > 0 && isSpace(s[|s| - 1]) then 1 + TrailingSpaces(s[..|s| - 1], isSpace) else 0
  }

  function TrimStart(s: string, isSpace: char -> bool): string
  {
    s[LeadingSpaces(s, isSpace)..]
  }

  function TrimEnd(s: string, isSpace: char -> bool): string
  {
    s[..|s| - TrailingSpaces(s, isSpace)]
  }

  /** Python's `str.strip()`. */
  function Strip(s: string): string
  {
    TrimEnd(TrimStart(s, IsPySpace), IsPySpace)
  }

  /** JavaScript's `trim()`. */
  function Trim(s: string): string
  {
    TrimEnd(TrimStart(s, IsJsSpace), IsJsSpace)
  }

  /** A string trims to "" exactly when all its characters are spaces. */
  lemma {:induction false} TrimEmpty(s: string, isSpace: char -> bool)
    ensures TrimEnd(TrimStart(s, isSpace), isSpace) == "" <==> forall i :: 0 <= i < |s| ==> isSpace(s[i])
  {
    var k := LeadingSpaces(s, isSpace);
    var t := TrimStart(s, isSpace);
    if |t| > 0 {
      assert t[0] == s[k];
      assert TrailingSpaces(t, isSpace) < |t|;
    }
  }

  /** `s` split on every occurrence of `sep` (JavaScript's and Python's
      `split` with a one-character separator): never empty, no piece
      contains `sep`. */
  function Split(s: string, sep: char): (r: seq<string>)
    ensures |r| >= 1
    ensures forall i, j :: 0 <= i < |r| && 0 <= j < |r[i]| ==> r[i][j] != sep
    decreases |s|
  {
    if |s| == 0 then [""]
    else if s[0] == sep then [""] + Split(s[1..], sep)
    else
      var rest := Split(s[1..], sep);
      [[s[0]] + rest[0]] + rest[1..]
  }

  /** Pieces joined with a separator (`Array.prototype.join`, `str.join`). */
  function Join(parts: seq<string>, sep: string): string
  {
    if |parts| == 0 then ""
    else if |parts| == 1 then parts[0]
    else parts[0] + sep + Join(parts[1..], sep)
  }

  /** A join whose first piece is non-empty is non-empty. */
  lemma JoinNonEmpty(parts: seq<string>, sep: string)
    requires |parts| > 0 && parts[0] != ""
    ensures Join(parts, sep) != ""
  {
    if |parts| > 1 {
      assert Join(parts, sep) == parts[0] + sep + Join(parts[1..], sep);
      assert |Join(parts, sep)| >= |parts[0]|;
    }
  }

  /** Splitting and joining with the same character gives back the string. */
  lemma {:induction false} JoinSplit(s: string, sep: char)
    ensures Join(Split(s, sep), [sep]) == s
    decreases |s|
  {
    if |s| == 0 {
    } else if s[0] == sep {
      JoinSplit(s[1..], sep);
      var rest := Split(s[1..], sep);
      assert Split(s, sep) == [""] + rest;
      assert ([""] + rest)[1..] == rest;
    } else {
      JoinSplit(s[1..], sep);
      var rest := Split(s[1..], sep);
      var first := [s[0]] + rest[0];
      assert Split(s, sep) == [first] + rest[1..];
      if |rest| == 1 {
        assert s == [s[0]] + s[1..];
      } else {
        assert ([first] + rest[1..])[1..] == rest[1..];
        assert Join(rest, [sep]) == rest[0] + [sep] + Join(rest[1..], [sep]);
        assert s == [s[0]] + s[1..];
      }
    }
  }

  /** Joining pieces that do not contain the separator and splitting again
      gives back the pieces. */
  lemma {:induction false} SplitJoin(parts: seq<string>, sep: char)
    requires |parts| >= 1
    requires forall i, j :: 0 <= i < |parts| && 0 <= j < |parts[i]| ==> parts[i][j] != sep
    ensures Split(Join(parts, [sep]), sep) == parts
    decreases |parts|, |parts[0]|
  {
    if |parts| == 1 {
      SplitNoSep(parts[0], sep);
    } else {
      var p := parts[0];
      var tail := Join(parts[1..], [sep]);
      assert Join(parts, [sep]) == p + [sep] + tail;
      SplitJoin(parts[1..], sep);
      SplitPrefix(p, tail, sep);
      assert [""] + parts[1..] == [""] + Split(tail, sep);
      assert parts == [p] + parts[1..];
    }
  }

  lemma {:induction false} SplitNoSep(s: string, sep: char)
    requires forall j :: 0 <= j < |s| ==> s[j] != sep
    ensures Split(s, sep) == [s]
    decreases |s|
  {
    if |s| > 0 {
      SplitNoSep(s[1..], sep);
      assert [s[0]] + s[1..] == s;
    }
  }

  /** Splitting `p + sep + t` where `p` has no separator. */
  lemma {:induction false} SplitPrefix(p: string, t: string, sep: char)
    requires forall j :: 0 <= j < |p| ==> p[j] != sep
    ensures Split(p + [sep] + t, sep) == [p] + Split(t, sep)
    decreases |p|
  {
    if |p| == 0 {
      assert p + [sep] + t == [sep] + t;
      assert ([sep] + t)[1..] == t;
    } else {
      SplitPrefix(p[1..], t, sep);
      var s := p + [sep] + t;
      assert s[0] == p[0];
      assert s[1..] == p[1..] + [sep] + t;
      assert [p[0]] + p[1..] == p;
    }
  }

  /** Decimal digit value of a character, if it is one. */
  function DigitValue(c: char): (r: Option<nat>)
    ensures r.Some? <==> '0' <= c <= '9'
    ensures r.Some? ==> r.value < 10
  {
    if '0' <= c <= '9' then Some(c as int - '0' as int) else None
  }

  /** The decimal digits of a number. */
  function NatToString(n: nat): (s: string)
    ensures |s| >= 1 && forall i :: 0 <= i < |s| ==> '0' <= s[i] <= '9'
  {
    var d := ['0' + (n % 10) as char];
    if n < 10 then d else NatToString(n / 10) + d
  }

  /** A string that neither starts nor ends with a space strips to itself. */
  lemma StripEnds(s: string)
    requires |s| > 0 && !IsPySpace(s[0]) && !IsPySpace(s[|s| - 1])
    ensures Strip(s) == s
  {
    assert LeadingSpaces(s, IsPySpace) == 0;
    assert TrailingSpaces(s, IsPySpace) == 0;
  }

  /** A string with no whitespace strips to itself. */
  lemma StripNoSpace(s: string)
    requires forall i :: 0 <= i < |s| ==> !IsPySpace(s[i])
    ensures Strip(s) == s
  {
    assert LeadingSpaces(s, IsPySpace) == 0;
    assert TrailingSpaces(s, IsPySpace) == 0;
  }

  /** `s.toLowerCase().includes(query.toLowerCase())`: the search of the
      frontend's list pages. */
  predicate IncludesFolded(s: string, query: string)
  {
    Contains(Lower(s), Lower(query))
  }

  /** The empty query is found in every string. */
  lemma IncludesEmpty(s: string)
    ensures IncludesFolded(s, "")
  {
    assert OccursAt(Lower(s), Lower(""), 0);
  }
}
