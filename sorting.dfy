/** Python's `sorted(xs, key=..., reverse=True)` and JavaScript's
    `[...xs].sort((a, b) => key(b) - key(a))`: a stable sort into
    non-increasing key order, written as an insertion sort. */
module Sorting {
  import opened Common

  predicate NonIncreasing<T>(s: seq<T>, key: T -> real)
  {
    forall i, j :: 0 <= i < j < |s| ==> key(s[i]) >= key(s[j])
  }

  /** `x` placed before the first element with a smaller key, that is after
      every element whose key is at least its own. */
  function InsertDesc<T>(x: T, s: seq<T>, key: T -> real): (r: seq<T>)
    ensures |r| == |s| + 1
    ensures forall y :: y in r ==> y == x || y in s
  {
    if |s| == 0 then [x]
    else if key(s[0]) < key(x) then [x] + s
    else [s[0]] + InsertDesc(x, s[1..], key)
  }

  /** The elements of `s` in non-increasing key order, equal keys in their
      original order. */
  function SortDesc<T>(s: seq<T>, key: T -> real): (r: seq<T>)
    ensures |r| == |s|
  {
    if |s| == 0 then [] else InsertDesc(s[|s| - 1], SortDesc(s[..|s| - 1], key), key)
  }

  lemma {:induction false} InsertDescSorted<T>(x: T, s: seq<T>, key: T -> real)
    requires NonIncreasing(s, key)
    ensures NonIncreasing(InsertDesc(x, s, key), key)
  {
    if |s| > 0 && key(s[0]) >= key(x) {
      var rest := InsertDesc(x, s[1..], key);
      InsertDescSorted(x, s[1..], key);
      var r := [s[0]] + rest;
      forall i, j | 0 <= i < j < |r| ensures key(r[i]) >= key(r[j]) {
        if i == 0 {
          assert r[j] in rest;
        } else {
          assert r[i] == rest[i - 1] && r[j] == rest[j - 1];
        }
      }
    }
  }

  lemma {:induction false} InsertDescMultiset<T>(x: T, s: seq<T>, key: T -> real)
    ensures multiset(InsertDesc(x, s, key)) == multiset(s) + multiset{x}
  {
    if |s| > 0 && key(s[0]) >= key(x) {
      InsertDescMultiset(x, s[1..], key);
      assert s == [s[0]] + s[1..];
    }
  }

  /** The result is sorted. */
  lemma {:induction false} SortDescSorted<T>(s: seq<T>, key: T -> real)
    ensures NonIncreasing(SortDesc(s, key), key)
  {
    if |s| > 0 {
      SortDescSorted(s[..|s| - 1], key);
      InsertDescSorted(s[|s| - 1], SortDesc(s[..|s| - 1], key), key);
    }
  }

  /** The result is a permutation of the input. */
  lemma {:induction false} SortDescPermutation<T>(s: seq<T>, key: T -> real)
    ensures multiset(SortDesc(s, key)) == multiset(s)
  {
    if |s| > 0 {
      SortDescPermutation(s[..|s| - 1], key);
      InsertDescMultiset(s[|s| - 1], SortDesc(s[..|s| - 1], key), key);
      assert s == s[..|s| - 1] + [s[|s| - 1]];
    }
  }

  /** The elements whose key is `k`. */
  function KeyIs<T>(key: T -> real, k: real): T -> bool
  {
    (x: T) => key(x) == k
  }

  /** An element placed in front of a sorted sequence of smaller keys is
      filtered after them too: none of them has its key. */
  lemma FrontStable<T>(x: T, s: seq<T>, key: T -> real, k: real)
    requires NonIncreasing(s, key)
    requires |s| > 0 && key(s[0]) < key(x)
    ensures Filter([x] + s, KeyIs(key, k)) == Filter(s, KeyIs(key, k)) + Filter([x], KeyIs(key, k))
  {
    var p := KeyIs(key, k);
    FilterConcat([x], s, p);
    if key(x) == k {
      SmallerKeysOut(s, key, k);
    } else {
      FilterNone([x], p);
    }
  }

  /** A sorted sequence whose largest key is below `k` has none of key `k`. */
  lemma SmallerKeysOut<T>(s: seq<T>, key: T -> real, k: real)
    requires NonIncreasing(s, key)
    requires |s| > 0 && key(s[0]) < k
    ensures Filter(s, KeyIs(key, k)) == []
  {
    forall i | 0 <= i < |s|
      ensures !KeyIs(key, k)(s[i])
    {
      assert key(s[i]) <= key(s[0]);
    }
    FilterNone(s, KeyIs(key, k));
  }

  /** Inserting into a sorted sequence puts `x` after every element of the
      same key. */
  lemma {:induction false} InsertDescStable<T>(x: T, s: seq<T>, key: T -> real, k: real)
    requires NonIncreasing(s, key)
    ensures Filter(InsertDesc(x, s, key), KeyIs(key, k)) == Filter(s, KeyIs(key, k)) + Filter([x], KeyIs(key, k))
  {
    if |s| == 0 {
      assert InsertDesc(x, s, key) == [x];
    } else if key(s[0]) < key(x) {
      assert InsertDesc(x, s, key) == [x] + s;
      FrontStable(x, s, key, k);
    } else {
      assert NonIncreasing(s[1..], key);
      InsertDescStable(x, s[1..], key, k);
      BehindStable(x, s, key, k);
    }
  }

  /** The step of `InsertDescStable` past the first element. */
  lemma BehindStable<T>(x: T, s: seq<T>, key: T -> real, k: real)
    requires |s| > 0 && key(s[0]) >= key(x)
    requires Filter(InsertDesc(x, s[1..], key), KeyIs(key, k)) == Filter(s[1..], KeyIs(key, k)) + Filter([x], KeyIs(key, k))
    ensures Filter(InsertDesc(x, s, key), KeyIs(key, k)) == Filter(s, KeyIs(key, k)) + Filter([x], KeyIs(key, k))
  {
    var rest := InsertDesc(x, s[1..], key);
    assert InsertDesc(x, s, key) == [s[0]] + rest;
    ConsFiltered(s, rest, [x], KeyIs(key, k));
  }

  /** Putting the first element of `s` in front of a sequence that filters
      like the rest of `s` followed by `xs` filters like `s` followed by
      `xs`. */
  lemma ConsFiltered<T>(s: seq<T>, rest: seq<T>, xs: seq<T>, p: T -> bool)
    requires |s| > 0 && Filter(rest, p) == Filter(s[1..], p) + Filter(xs, p)
    ensures Filter([s[0]] + rest, p) == Filter(s, p) + Filter(xs, p)
  {
    FilterConcat([s[0]], rest, p);
    assert s == [s[0]] + s[1..];
    FilterConcat([s[0]], s[1..], p);
    ConcatAssoc(Filter([s[0]], p), Filter(s[1..], p), Filter(xs, p));
  }

  /** The sort is stable: the elements of each key keep their input order. */
  lemma {:induction false} SortDescStable<T>(s: seq<T>, key: T -> real, k: real)
    ensures Filter(SortDesc(s, key), KeyIs(key, k)) == Filter(s, KeyIs(key, k))
  {
    if |s| > 0 {
      var front := s[..|s| - 1];
      var x := s[|s| - 1];
      SortDescStable(front, key, k);
      SortDescSorted(front, key);
      InsertDescStable(x, SortDesc(front, key), key, k);
      assert [x][..0] == [];
    }
  }

  /** Sorting keeps exactly the elements of the input. */
  lemma SortDescMembers<T>(s: seq<T>, key: T -> real)
    ensures forall e :: e in SortDesc(s, key) <==> e in s
  {
    SortDescPermutation(s, key);
    assert forall e :: e in SortDesc(s, key) <==> e in multiset(SortDesc(s, key));
    assert forall e :: e in s <==> e in multiset(s);
  }

  /** In a sorted sequence the first `n` keys are at least every other key
      and the last `n` keys at most every other key. */
  lemma TopAndBottom<T>(s: seq<T>, key: T -> real, n: nat)
    requires NonIncreasing(s, key)
    ensures forall i, j :: 0 <= i < MinInt(|s|, n) <= j < |s| ==> key(s[i]) >= key(s[j])
    ensures forall i, j :: 0 <= i < |s| - MinInt(|s|, n) <= j < |s| ==> key(s[i]) >= key(s[j])
  {
  }

  /** The i-th element of the reversed last `n` is the i-th from the end. */
  lemma ReversedTail<T>(s: seq<T>, n: nat)
    ensures forall i :: 0 <= i < |Reverse(Last(s, n))| ==> Reverse(Last(s, n))[i] == s[|s| - 1 - i]
  {
    var tail := Last(s, n);
    forall i | 0 <= i < |Reverse(tail)| ensures Reverse(tail)[i] == s[|s| - 1 - i] {
      assert Reverse(tail)[i] == tail[|tail| - 1 - i];
    }
  }

  /** The last `n` elements of a sorted sequence, reversed, come in
      non-decreasing order. */
  lemma SortedEnds<T>(s: seq<T>, key: T -> real, n: nat)
    requires NonIncreasing(s, key)
    ensures forall i, j :: 0 <= i < j < |Reverse(Last(s, n))| ==>
      key(Reverse(Last(s, n))[i]) <= key(Reverse(Last(s, n))[j])
  {
    var r := Reverse(Last(s, n));
    ReversedTail(s, n);
    forall i, j | 0 <= i < j < |r| ensures key(r[i]) <= key(r[j]) {
      assert r[i] == s[|s| - 1 - i] && r[j] == s[|s| - 1 - j];
    }
  }

  /** The first `n` elements of a sorted sequence are sorted. */
  lemma SortedPrefix<T>(s: seq<T>, key: T -> real, n: nat)
    requires NonIncreasing(s, key)
    ensures NonIncreasing(Take(s, n), key)
  {
    var t := Take(s, n);
    forall i, j | 0 <= i < j < |t| ensures key(t[i]) >= key(t[j]) {
      assert t[i] == s[i] && t[j] == s[j];
    }
  }

  /** When `p` holding of an element makes it hold of every earlier one,
      the first `n` elements hold min(n, all) of its matches. */
  lemma {:induction false} CountPrefixClosed<T>(s: seq<T>, p: T -> bool, n: nat)
    requires forall i, j :: 0 <= i < j < |s| && p(s[j]) ==> p(s[i])
    ensures Count(Take(s, n), p) == MinInt(n, Count(s, p))
  {
    if |s| > 0 && n < |s| {
      var front := s[..|s| - 1];
      var x := s[|s| - 1];
      assert forall i, j :: 0 <= i < j < |front| && p(front[j]) ==> p(front[i]) by {
        assert forall i :: 0 <= i < |front| ==> front[i] == s[i];
      }
      CountPrefixClosed(front, p, n);
      assert Take(s, n) == Take(front, n);
      if p(x) {
        assert forall i :: 0 <= i < |front| ==> p(front[i]) by {
          assert forall i :: 0 <= i < |front| ==> front[i] == s[i];
        }
        CountAll(front, p);
      }
    }
  }

  /** The reversed sequence. */
  function Reverse<T>(s: seq<T>): (r: seq<T>)
    ensures |r| == |s|
    ensures forall i :: 0 <= i < |s| ==> r[i] == s[|s| - 1 - i]
  {
    if |s| == 0 then [] else [s[|s| - 1]] + Reverse(s[..|s| - 1])
  }
}
