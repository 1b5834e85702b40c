/** Numbers read from scraped or exported text: character replacement,
    decimal parsing as Python's float() and int() do it for plain decimal
    notation, and the regular-expression searches that pick a number out
    of a text. */
module Numbers {
  import opened Common
  import opened Text

  predicate IsDigit(c: char)
  {
    '0' <= c <= '9'
  }

  predicate AllDigits(s: string)
  {
    forall i :: 0 <= i < |s| ==> IsDigit(s[i])
  }

  /** `s.replace(a, b)` for single characters. */
  function Replace(s: string, a: char, b: char): (r: string)
    ensures |r| == |s|
    ensures forall i :: 0 <= i < |s| ==> r[i] == (if s[i] == a then b else s[i])
  {
    seq(|s|, i requires 0 <= i < |s| => if s[i] == a then b else s[i])
  }

  /** `s.replace(c, "")`. */
  function Remove(s: string, c: char): (r: string)
    ensures forall i :: 0 <= i < |r| ==> r[i] != c
    ensures |r| <= |s|
  {
    if |s| == 0 then "" else Remove(s[..|s| - 1], c) + (if s[|s| - 1] == c then "" else [s[|s| - 1]])
  }

  lemma {:induction false} RemoveConcat(s: string, t: string, c: char)
    ensures Remove(s + t, c) == Remove(s, c) + Remove(t, c)
    decreases |t|
  {
    if |t| == 0 {
      assert s + t == s;
    } else {
      assert (s + t)[..|s + t| - 1] == s + t[..|t| - 1];
      RemoveConcat(s, t[..|t| - 1], c);
    }
  }

  /** Removing a character the text does not contain changes nothing. */
  lemma {:induction false} RemoveAbsent(s: string, c: char)
    requires forall i :: 0 <= i < |s| ==> s[i] != c
    ensures Remove(s, c) == s
  {
    if |s| > 0 {
      RemoveAbsent(s[..|s| - 1], c);
      assert s[..|s| - 1] + [s[|s| - 1]] == s;
    }
  }

  function Pow10(n: nat): (r: nat)
    ensures r >= 1
  {
    if n == 0 then 1 else 10 * Pow10(n - 1)
  }

  /** The value of a string of decimal digits. */
  function DigitsValue(d: string): (r: nat)
    requires AllDigits(d)
    ensures r < Pow10(|d|)
  {
    if |d| == 0 then 0
    else DigitsValue(d[..|d| - 1]) * 10 + (d[|d| - 1] as int - '0' as int)
  }

  /** Unsigned plain decimal notation: digits, optionally a point and
      more digits, at least one digit in all. */
  function Unsigned(body: string): (r: Option<real>)
    ensures r.Some? ==> |body| > 0
  {
    var k := LeadingSpaces(body, IsDigit);
    WithFraction(k > 0, DigitsValue(body[..k]), body[k..])
  }

  /** The value of the digits after a decimal point. */
  function Fraction(d: string): (r: real)
    requires AllDigits(d)
    ensures 0.0 <= r
  {
    var n := DigitsValue(d) as real;
    var p := Pow10(|d|) as real;
    n / p
  }

  /** The value of a whole part (present or not) followed by `rest`, which
      must be empty or a point and digits. */
  function WithFraction(hasWhole: bool, whole: nat, rest: string): (r: Option<real>)
    ensures r.Some? ==> hasWhole || |rest| > 1
  {
    if |rest| == 0 then (if hasWhole then Some(whole as real) else None)
    else if rest[0] != '.' || !AllDigits(rest[1..]) || (!hasWhole && |rest| == 1) then None
    else Some(whole as real + Fraction(rest[1..]))
  }

  /** Plain decimal notation: an optional sign before unsigned notation.
      Anything else (an exponent, `inf`, `nan`, a stray character) is None. */
  function Decimal(s: string): (r: Option<real>)
    ensures r.Some? ==> |s| > 0
  {
    if |s| > 0 && (s[0] == '+' || s[0] == '-') then
      var m := Unsigned(s[1..]);
      if m.None? then None else Some(if s[0] == '-' then -m.value else m.value)
    else Unsigned(s)
  }

  /** Python's float() on plain decimal notation: surrounding whitespace is
      ignored; a ValueError is None. */
  function PyFloat(s: string): Option<real>
  {
    Decimal(Strip(s))
  }

  /** Python's int() on a string: surrounding whitespace ignored, an
      optional sign and digits only; a ValueError is None. */
  function PyInt(s: string): (r: Option<int>)
    ensures r.Some? ==> PyFloat(s) == Some(r.value as real)
  {
    var t := Strip(s);
    var body := if |t| > 0 && (t[0] == '+' || t[0] == '-') then t[1..] else t;
    if |body| == 0 || !AllDigits(body) then None
    else
      var v: int := DigitsValue(body);
      assert LeadingSpaces(body, IsDigit) == |body| by {
        AllRun(body);
      }
      assert body[..|body|] == body;
      Some(if |t| > 0 && t[0] == '-' then -v else v)
  }

  lemma {:induction false} AllRun(d: string)
    requires AllDigits(d)
    ensures LeadingSpaces(d, IsDigit) == |d|
  {
    if |d| > 0 {
      AllRun(d[1..]);
    }
  }

  /** A run of digits reads as its value. */
  lemma {:induction false} DecimalOfDigits(d: string)
    requires |d| > 0 && AllDigits(d) && d[0] != '+' && d[0] != '-'
    ensures Decimal(d) == Some(DigitsValue(d) as real)
  {
    AllRun(d);
    assert d[..|d|] == d;
    assert Decimal(d) == Unsigned(d);
  }

  /** Digits, a point and digits read as whole part plus fraction. */
  lemma {:induction false} DecimalParts(w: string, f: string)
    requires |w| > 0 && AllDigits(w) && AllDigits(f)
    ensures Decimal(w + "." + f) == Some(DigitsValue(w) as real + Fraction(f))
  {
    var s := w + "." + f;
    assert s[0] == w[0];
    assert Decimal(s) == Unsigned(s);
    assert s == w + ("." + f);
    AllRunPrefix(w, "." + f);
    assert s[..|w|] == w;
    assert s[|w|..] == "." + f;
    var v := Some(DigitsValue(w) as real + Fraction(f));
    assert WithFraction(true, DigitsValue(w), "." + f) == v by {
      PointFraction(DigitsValue(w), f);
    }
    assert Unsigned(s) == WithFraction(true, DigitsValue(w), "." + f);
    assert Unsigned(s) == v;
    assert Decimal(s) == v;
    assert Decimal(w + "." + f) == v;
  }

  lemma {:induction false} PointFraction(whole: nat, f: string)
    requires AllDigits(f)
    ensures WithFraction(true, whole, "." + f) == Some(whole as real + Fraction(f))
  {
    assert ("." + f)[1..] == f;
  }

  /** With ',' turned into '.', a comma is a decimal separator:
      `a,b` reads as a + b / 10^|b|. */
  lemma {:induction false} DecimalComma(a: string, b: string)
    requires |a| > 0 && AllDigits(a) && AllDigits(b)
    ensures Decimal(Replace(a + "," + b, ',', '.'))
      == Some(DigitsValue(a) as real + Fraction(b))
  {
    assert Replace(a + "," + b, ',', '.') == a + "." + b;
    DecimalParts(a, b);
  }

  /** The digit run at the front of `a + t` stops where `a` ends when `t`
      starts with a non-digit. */
  lemma {:induction false} AllRunPrefix(a: string, t: string)
    requires AllDigits(a) && |t| > 0 && !IsDigit(t[0])
    ensures LeadingSpaces(a + t, IsDigit) == |a|
  {
    if |a| == 0 {
      assert a + t == t;
    } else {
      assert (a + t)[1..] == a[1..] + t;
      AllRunPrefix(a[1..], t);
    }
  }

  /** The length of the match of `lead+[,.]?\d*` at the front of `s`, given
      that `s` starts with a `lead` character. */
  function NumberLength(s: string, lead: char -> bool): (n: nat)
    requires |s| > 0 && lead(s[0])
    ensures 1 <= n <= |s|
  {
    var k := LeadingSpaces(s, lead);
    if k < |s| && (s[k] == ',' || s[k] == '.') then k + 1 + LeadingSpaces(s[k + 1..], IsDigit) else k
  }

  /** The first index at which `start` holds, if any. */
  function FirstWhere(s: string, start: nat -> bool): (r: Option<nat>)
    ensures r.Some? ==> r.value < |s| && start(r.value)
    ensures r.Some? ==> forall j :: 0 <= j < r.value ==> !start(j)
    ensures r.None? ==> forall j :: 0 <= j < |s| ==> !start(j)
  {
    FirstFrom(s, start, 0)
  }

  /** The first position where `start` holds is the one before which it
      never holds. */
  lemma FirstWhereIs(s: string, start: nat -> bool, k: nat)
    requires k < |s| && start(k)
    requires forall j :: 0 <= j < k ==> !start(j)
    ensures FirstWhere(s, start) == Some(k)
  {
  }

  function FirstFrom(s: string, start: nat -> bool, i: nat): (r: Option<nat>)
    requires i <= |s|
    ensures r.Some? ==> i <= r.value < |s| && start(r.value)
    ensures r.Some? ==> forall j :: i <= j < r.value ==> !start(j)
    ensures r.None? ==> forall j :: i <= j < |s| ==> !start(j)
    decreases |s| - i
  {
    if i == |s| then None else if start(i) then Some(i) else FirstFrom(s, start, i + 1)
  }

  /** `re.search(r"(\d+[,.]?\d*)", s).group(1)`. */
  function MatchUnsigned(s: string): (r: Option<string>)
    ensures r.Some? ==> |r.value| > 0 && IsDigit(r.value[0])
  {
    var i := FirstWhere(s, DigitStarts(s));
    if i.None? then None
    else Some(s[i.value..i.value + NumberLength(s[i.value..], IsDigit)])
  }

  function DigitStarts(s: string): nat -> bool
  {
    (j: nat) => j < |s| && IsDigit(s[j])
  }

  predicate IsDigitOrSpace(c: char)
  {
    IsDigit(c) || IsPySpace(c)
  }

  /** `re.search(r"[\d\s]+[,.]?\d*", s).group()`. */
  function MatchSpaced(s: string): (r: Option<string>)
    ensures r.Some? ==> |r.value| > 0
  {
    var i := FirstWhere(s, SpacedStarts(s));
    if i.None? then None
    else Some(s[i.value..i.value + NumberLength(s[i.value..], IsDigitOrSpace)])
  }

  function SpacedStarts(s: string): nat -> bool
  {
    (j: nat) => j < |s| && IsDigitOrSpace(s[j])
  }

  /** `re.search(r"([\d\s]+)", s).group(1)`: the first run of digits and
      whitespace. */
  function MatchRun(s: string): (r: Option<string>)
    ensures r.Some? ==> |r.value| > 0 && forall k :: 0 <= k < |r.value| ==> IsDigitOrSpace(r.value[k])
  {
    var i := FirstWhere(s, SpacedStarts(s));
    if i.None? then None
    else Some(s[i.value..i.value + LeadingSpaces(s[i.value..], IsDigitOrSpace)])
  }

  /** Where `[+-]?\d` can start a match. */
  predicate SignedStart(s: string, j: nat)
  {
    (j < |s| && IsDigit(s[j])) || (j + 1 < |s| && (s[j] == '+' || s[j] == '-') && IsDigit(s[j + 1]))
  }

  function SignedStarts(s: string): nat -> bool
  {
    (j: nat) => SignedStart(s, j)
  }

  /** `re.search(r"([+-]?\d+[,.]?\d*)%?", s).group(1)`. */
  function MatchSigned(s: string): (r: Option<string>)
    ensures r.Some? ==> |r.value| > 0
  {
    var i := FirstWhere(s, SignedStarts(s));
    if i.None? then None else Some(SignedAt(s, i.value))
  }

  /** The signed number that starts at `j`. */
  function SignedAt(s: string, j: nat): (r: string)
    requires SignedStart(s, j)
    ensures |r| > 0
  {
    if IsDigit(s[j]) then s[j..j + NumberLength(s[j..], IsDigit)]
    else [s[j]] + s[j + 1..][..NumberLength(s[j + 1..], IsDigit)]
  }

  /** A matched number, with its comma turned into a point, always reads as
      a float. */
  lemma {:induction false} NumberMatchParses(s: string)
    requires |s| > 0 && IsDigit(s[0])
    ensures Decimal(Replace(s[..NumberLength(s, IsDigit)], ',', '.')).Some?
  {
    var k := LeadingSpaces(s, IsDigit);
    var n := NumberLength(s, IsDigit);
    var t := Replace(s[..n], ',', '.');
    var w := s[..k];
    if k < |s| && (s[k] == ',' || s[k] == '.') {
      var f := s[k + 1..n];
      assert f == s[k + 1..][..n - k - 1];
      assert t == w + "." + f;
      DecimalParts(w, f);
    } else {
      assert t == w;
      DecimalOfDigits(w);
    }
  }

  /** The unsigned match, with its comma turned into a point, always reads
      as a float. */
  lemma {:induction false} UnsignedMatchParses(s: string)
    requires MatchUnsigned(s).Some?
    ensures PyFloat(Replace(MatchUnsigned(s).value, ',', '.')).Some?
  {
    var i := FirstWhere(s, DigitStarts(s)).value;
    var tail := s[i..];
    assert MatchUnsigned(s).value == tail[..NumberLength(tail, IsDigit)];
    UnsignedParses(tail);
  }

  /** The signed match, with its comma turned into a point, always reads as
      a float. */
  lemma {:induction false} SignedMatchParses(s: string)
    requires MatchSigned(s).Some?
    ensures PyFloat(Replace(MatchSigned(s).value, ',', '.')).Some?
  {
    SignedAtParses(s, FirstWhere(s, SignedStarts(s)).value);
  }

  /** A signed number match reads as a float wherever it starts. */
  lemma {:induction false} SignedAtParses(s: string, j: nat)
    requires SignedStart(s, j)
    ensures PyFloat(Replace(SignedAt(s, j), ',', '.')).Some?
  {
    if IsDigit(s[j]) {
      var tail := s[j..];
      assert SignedAt(s, j) == tail[..NumberLength(tail, IsDigit)];
      UnsignedParses(tail);
    } else {
      var tail := s[j + 1..];
      SignParses(s[j], tail);
    }
  }

  /** An unsigned number match reads as a float. */
  lemma {:induction false} UnsignedParses(tail: string)
    requires |tail| > 0 && IsDigit(tail[0])
    ensures PyFloat(Replace(tail[..NumberLength(tail, IsDigit)], ',', '.')).Some?
  {
    var t := Replace(tail[..NumberLength(tail, IsDigit)], ',', '.');
    NumberMatchParses(tail);
    ReplacedEnds(tail);
    StripNumber(t);
  }

  /** A number match, commas replaced, neither begins nor ends in
      whitespace. */
  lemma ReplacedEnds(s: string)
    requires |s| > 0 && IsDigit(s[0])
    ensures var t := Replace(s[..NumberLength(s, IsDigit)], ',', '.');
      |t| > 0 && !IsPySpace(t[0]) && !IsPySpace(t[|t| - 1])
  {
    NumberEnd(s);
  }

  /** A sign before a number match reads as a float. */
  lemma {:induction false} SignParses(sign: char, tail: string)
    requires sign == '+' || sign == '-'
    requires |tail| > 0 && IsDigit(tail[0])
    ensures PyFloat(Replace([sign] + tail[..NumberLength(tail, IsDigit)], ',', '.')).Some?
  {
    var t := Replace([sign] + tail[..NumberLength(tail, IsDigit)], ',', '.');
    SignDecimal(sign, tail);
    SignedEnds(sign, tail);
    StripNumber(t);
  }

  /** The same with a sign in front. */
  lemma SignedEnds(sign: char, tail: string)
    requires sign == '+' || sign == '-'
    requires |tail| > 0 && IsDigit(tail[0])
    ensures var t := Replace([sign] + tail[..NumberLength(tail, IsDigit)], ',', '.');
      |t| > 0 && !IsPySpace(t[0]) && !IsPySpace(t[|t| - 1])
  {
    var n := NumberLength(tail, IsDigit);
    var x := [sign] + tail[..n];
    NumberEnd(tail);
    assert x[|x| - 1] == tail[n - 1];
  }

  lemma {:induction false} SignDecimal(sign: char, tail: string)
    requires sign == '+' || sign == '-'
    requires |tail| > 0 && IsDigit(tail[0])
    ensures Decimal(Replace([sign] + tail[..NumberLength(tail, IsDigit)], ',', '.')).Some?
  {
    var n := NumberLength(tail, IsDigit);
    var u := Replace(tail[..n], ',', '.');
    var t := Replace([sign] + tail[..n], ',', '.');
    assert t == [sign] + u;
    NumberMatchParses(tail);
    SignedDecimal(sign, u);
  }

  /** A sign in front of an unsigned decimal still parses. */
  lemma SignedDecimal(sign: char, u: string)
    requires sign == '+' || sign == '-'
    requires |u| > 0 && IsDigit(u[0]) && Decimal(u).Some?
    ensures Decimal([sign] + u).Some?
  {
    assert ([sign] + u)[1..] == u;
  }

  /** A number match ends in a digit, a comma or a point. */
  lemma {:induction false} NumberEnd(s: string)
    requires |s| > 0 && IsDigit(s[0])
    ensures var n := NumberLength(s, IsDigit); IsDigit(s[n - 1]) || s[n - 1] == ',' || s[n - 1] == '.'
  {
  }

  /** Text that begins and ends without whitespace strips to itself. */
  lemma {:induction false} StripNumber(t: string)
    requires |t| > 0 && !IsPySpace(t[0]) && !IsPySpace(t[|t| - 1])
    ensures Strip(t) == t
  {
    assert LeadingSpaces(t, IsPySpace) == 0;
    assert t[0..] == t;
    assert TrailingSpaces(t, IsPySpace) == 0;
  }
}
