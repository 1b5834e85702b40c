/** Shared building blocks: an Option type, sums and means over reals,
    counting, and the small numeric helpers (abs, min, max) that Python's
    and JavaScript's standard libraries provide. */
module Common {

  datatype Option<+T> = None | Some(value: T) {
    /** Python's `x or default` / JavaScript's `x ?? default`. */
    function GetOr(default: T): T {
      match this
      case Some(v) => v
      case None => default
    }
  }

  /** A value or the error a Python function raises / a JavaScript promise
      rejects with. */
  datatype Result<+T, +E> = Ok(value: T) | Err(error: E)

  function Abs(x: real): (r: real)
    ensures r >= 0.0 && (r == x || r == -x)
  {
    if x < 0.0 then -x else x
  }

  function Min(a: real, b: real): (r: real)
    ensures r <= a && r <= b && (r == a || r == b)
  {
    if a <= b then a else b
  }

  function Max(a: real, b: real): (r: real)
    ensures r >= a && r >= b && (r == a || r == b)
  {
    if a >= b then a else b
  }

  function MinInt(a: int, b: int): (r: int)
    ensures r <= a && r <= b && (r == a || r == b)
  {
    if a <= b then a else b
  }

  function MaxInt(a: int, b: int): (r: int)
    ensures r >= a && r >= b && (r == a || r == b)
  {
    if a >= b then a else b
  }

  /** Left-to-right sum, peeled from the end so that a loop adding
      `s[i]` to a running total keeps `total == Sum(s[..i])`. */
  function Sum(s: seq<real>): real
  {
    if |s| == 0 then 0.0 else Sum(s[..|s| - 1]) + s[|s| - 1]
  }

  /** Arithmetic mean, 0 for the empty sequence. */
  function Mean(s: seq<real>): real
  {
    if |s| == 0 then 0.0 else Sum(s) / (|s| as real)
  }

  /** Concatenation is associative. */
  lemma ConcatAssoc<T>(a: seq<T>, b: seq<T>, c: seq<T>)
    ensures (a + b) + c == a + (b + c)
  {
  }

  /** The keys of a sequence's elements. */
  function KeySet<T>(s: seq<T>, key: T -> int): (r: set<int>)
    ensures forall i :: 0 <= i < |s| ==> key(s[i]) in r
  {
    set i | 0 <= i < |s| :: key(s[i])
  }

  /** Strictly increasing keys are pairwise distinct, so a sequence has as
      many keys as elements. */
  lemma {:induction false} IncreasingKeysSetSize<T>(s: seq<T>, key: T -> int)
    requires forall i, j :: 0 <= i < j < |s| ==> key(s[i]) < key(s[j])
    ensures |KeySet(s, key)| == |s|
  {
    if |s| > 0 {
      var front := s[..|s| - 1];
      IncreasingKeysSetSize(front, key);
      KeySetSnoc(s, key);
      LastKeyIsNew(s, key);
    }
  }

  /** The keys of a non-empty sequence: those of its front and the last. */
  lemma KeySetSnoc<T>(s: seq<T>, key: T -> int)
    requires |s| > 0
    ensures KeySet(s, key) == KeySet(s[..|s| - 1], key) + {key(s[|s| - 1])}
  {
    var front := s[..|s| - 1];
    forall h | h in KeySet(s, key) ensures h in KeySet(front, key) + {key(s[|s| - 1])} {
      var i :| 0 <= i < |s| && key(s[i]) == h;
      if i < |front| {
        assert key(front[i]) == h;
      }
    }
    forall h | h in KeySet(front, key) ensures h in KeySet(s, key) {
      var i :| 0 <= i < |front| && key(front[i]) == h;
      assert key(s[i]) == h;
    }
  }

  /** With strictly increasing keys the last key is not among the front's. */
  lemma LastKeyIsNew<T>(s: seq<T>, key: T -> int)
    requires |s| > 0
    requires forall i, j :: 0 <= i < j < |s| ==> key(s[i]) < key(s[j])
    ensures key(s[|s| - 1]) !in KeySet(s[..|s| - 1], key)
  {
    var front := s[..|s| - 1];
    forall i | 0 <= i < |front| ensures key(front[i]) != key(s[|s| - 1]) {
      assert front[i] == s[i];
    }
  }

  /** A relation holding pairwise between two sequences holds between the
      first `n` elements of the first and the second. */
  lemma TakeKeeps<A, B>(xs: seq<A>, ys: seq<B>, n: nat, p: (A, B) -> bool)
    requires |xs| == |ys|
    requires forall i :: 0 <= i < |xs| ==> p(xs[i], ys[i])
    ensures forall i :: 0 <= i < |Take(xs, n)| ==> p(Take(xs, n)[i], ys[i])
  {
  }

  /** Appending an element related to the next partner extends a pairwise
      relation by one. */
  lemma PairsSnoc<A, B>(xs: seq<A>, ys: seq<B>, p: (A, B) -> bool, x: A)
    requires |xs| < |ys|
    requires forall k :: 0 <= k < |xs| ==> p(xs[k], ys[k])
    requires p(x, ys[|xs|])
    ensures forall k :: 0 <= k < |xs| + 1 ==> p((xs + [x])[k], ys[k])
  {
    forall k | 0 <= k < |xs| + 1 ensures p((xs + [x])[k], ys[k]) {
      if k < |xs| {
        assert (xs + [x])[k] == xs[k];
      }
    }
  }

  lemma {:induction false} SumAppend(s: seq<real>, x: real)
    ensures Sum(s + [x]) == Sum(s) + x
  {
    assert (s + [x])[..|s + [x]| - 1] == s;
  }

  lemma {:induction false} SumConcat(s: seq<real>, t: seq<real>)
    ensures Sum(s + t) == Sum(s) + Sum(t)
  {
    if |t| == 0 {
      assert s + t == s;
    } else {
      var t' := t[..|t| - 1];
      assert s + t == (s + t') + [t[|t| - 1]];
      SumAppend(s + t', t[|t| - 1]);
      SumConcat(s, t');
    }
  }

  lemma {:induction false} SumBounds(s: seq<real>, lo: real, hi: real)
    requires forall i :: 0 <= i < |s| ==> lo <= s[i] <= hi
    ensures (|s| as real) * lo <= Sum(s) <= (|s| as real) * hi
  {
    if |s| > 0 {
      SumBounds(s[..|s| - 1], lo, hi);
    }
  }

  lemma {:induction false} SumNonNegative(s: seq<real>)
    requires forall i :: 0 <= i < |s| ==> s[i] >= 0.0
    ensures Sum(s) >= 0.0
  {
    if |s| > 0 {
      SumNonNegative(s[..|s| - 1]);
    }
  }

  /** A quotient of a non-negative number by a positive one is not negative. */
  lemma DivNonNegative(x: real, n: real)
    requires n > 0.0 && x >= 0.0
    ensures x / n >= 0.0
  {
    if x > 0.0 {
      DivPositive(x, n);
    }
  }

  lemma {:induction false} SumPositive(s: seq<real>)
    requires |s| > 0
    requires forall i :: 0 <= i < |s| ==> s[i] > 0.0
    ensures Sum(s) > 0.0
  {
    if |s| > 1 {
      SumPositive(s[..|s| - 1]);
    }
  }

  /** A mean of values that all lie in [lo, hi] lies in [lo, hi]. */
  lemma MeanBounds(s: seq<real>, lo: real, hi: real)
    requires |s| > 0
    requires forall i :: 0 <= i < |s| ==> lo <= s[i] <= hi
    ensures lo <= Mean(s) <= hi
  {
    SumBounds(s, lo, hi);
    var n := |s| as real;
    assert Mean(s) == Sum(s) / n;
    assert Sum(s) / n >= lo by { assert Sum(s) >= n * lo; }
    assert Sum(s) / n <= hi by { assert Sum(s) <= n * hi; }
  }

  lemma DivPositive(x: real, n: real)
    requires n > 0.0 && x > 0.0
    ensures x / n > 0.0
  {
  }

  lemma RatioBounds(x: real, n: real)
    requires n > 0.0 && 0.0 <= x <= n
    ensures 0.0 <= x / n <= 1.0
  {
    assert x / n * n == x;
  }

  /** With a positive factor, a product has the sign of the other factor. */
  lemma SignOfProduct(a: real, t: real)
    requires t > 0.0
    ensures a * t > 0.0 <==> a > 0.0
    ensures a * t < 0.0 <==> a < 0.0
  {
  }

  /** A quotient d / t with |d| <= t lies in [-1, 1], has the sign of d, and
      is 1 or -1 exactly at the ends. */
  lemma QuotientFacts(d: real, t: real)
    requires t > 0.0 && -t <= d <= t
    ensures (d / t) * t == d && -1.0 <= d / t <= 1.0
    ensures d / t > 0.0 <==> d > 0.0
    ensures d / t < 0.0 <==> d < 0.0
    ensures d / t == 1.0 <==> d == t
    ensures d / t == -1.0 <==> d == -t
  {
    var q := d / t;
    assert q * t == d;
    SignOfProduct(q, t);
    assert (1.0 - q) * t == t - d;
    SignOfProduct(1.0 - q, t);
    assert (q + 1.0) * t == d + t;
    SignOfProduct(q + 1.0, t);
  }

  /** The smallest value. */
  function Smallest(s: seq<real>): (m: real)
    requires |s| > 0
    ensures m in s && forall x :: x in s ==> m <= x
  {
    if |s| == 1 then s[0]
    else
      assert forall x :: x in s ==> x == s[0] || x in s[1..] by {
        assert s == [s[0]] + s[1..];
      }
      Min(s[0], Smallest(s[1..]))
  }

  /** The largest value. */
  function Largest(s: seq<real>): (m: real)
    requires |s| > 0
    ensures m in s && forall x :: x in s ==> m >= x
  {
    if |s| == 1 then s[0]
    else
      assert forall x :: x in s ==> x == s[0] || x in s[1..] by {
        assert s == [s[0]] + s[1..];
      }
      Max(s[0], Largest(s[1..]))
  }

  /** Number of elements that satisfy `p` (Python's `sum(1 for x in s if p(x))`). */
  function Count<T>(s: seq<T>, p: T -> bool): (n: nat)
    ensures n <= |s|
  {
    if |s| == 0 then 0 else Count(s[..|s| - 1], p) + (if p(s[|s| - 1]) then 1 else 0)
  }

  /** Some element satisfies `p` exactly when the count is positive. */
  lemma {:induction false} CountPositive<T>(s: seq<T>, p: T -> bool)
    ensures Count(s, p) > 0 <==> exists x :: x in s && p(x)
  {
    if |s| > 0 {
      var front := s[..|s| - 1];
      CountPositive(front, p);
      assert s == front + [s[|s| - 1]];
      assert forall x :: x in s <==> x in front || x == s[|s| - 1];
    }
  }

  /** Counting over a concatenation adds the counts. */
  lemma {:induction false} CountConcat<T>(a: seq<T>, b: seq<T>, p: T -> bool)
    ensures Count(a + b, p) == Count(a, p) + Count(b, p)
  {
    if |b| == 0 {
      assert a + b == a;
    } else {
      var front := b[..|b| - 1];
      CountConcat(a, front, p);
      assert (a + b)[..|a + b| - 1] == a + front;
      assert (a + b)[|a + b| - 1] == b[|b| - 1];
    }
  }

  /** Sequences with the same elements count the same. */
  lemma {:induction false} CountPermutation<T>(a: seq<T>, b: seq<T>, p: T -> bool)
    requires multiset(a) == multiset(b)
    ensures Count(a, p) == Count(b, p)
  {
    if |a| > 0 {
      var front := a[..|a| - 1];
      var x := a[|a| - 1];
      assert a == front + [x];
      assert x in multiset(b);
      var j :| 0 <= j < |b| && b[j] == x;
      var rest := b[..j] + b[j + 1..];
      MultisetWithout(b, j);
      assert multiset(front) == multiset(a) - multiset([x]);
      CountPermutation(front, rest, p);
      CountWithout(b, j, p);
      CountConcat(front, [x], p);
      assert Count([x], p) == (if p(x) then 1 else 0) by {
        assert [x][..0] == [];
      }
    }
  }

  /** Removing the element at `j` removes one copy of it. */
  lemma MultisetWithout<T>(b: seq<T>, j: nat)
    requires j < |b|
    ensures multiset(b[..j] + b[j + 1..]) == multiset(b) - multiset([b[j]])
  {
    assert b == b[..j] + [b[j]] + b[j + 1..];
    assert multiset(b) == multiset(b[..j]) + multiset([b[j]]) + multiset(b[j + 1..]);
  }

  /** Removing the element at `j` counts it out. */
  lemma CountWithout<T>(b: seq<T>, j: nat, p: T -> bool)
    requires j < |b|
    ensures Count(b, p) == Count(b[..j] + b[j + 1..], p) + (if p(b[j]) then 1 else 0)
  {
    var x := b[j];
    var left := b[..j];
    var right := b[j + 1..];
    assert b[..j + 1] == left + [x];
    assert b == b[..j + 1] + right;
    CountConcat(b[..j + 1], right, p);
    CountConcat(left, [x], p);
    CountConcat(left, right, p);
    assert Count([x], p) == (if p(x) then 1 else 0) by {
      assert [x][..0] == [];
    }
  }

  /** A predicate holding of every element counts them all. */
  lemma {:induction false} CountAll<T>(s: seq<T>, p: T -> bool)
    requires forall i :: 0 <= i < |s| ==> p(s[i])
    ensures Count(s, p) == |s|
  {
    FilterAll(s, p);
  }

  /** Order-preserving filter (Python's comprehension with `if`, JavaScript's
      `Array.prototype.filter`). */
  function Filter<T>(s: seq<T>, p: T -> bool): (r: seq<T>)
    ensures |r| == Count(s, p)
    ensures forall i :: 0 <= i < |r| ==> p(r[i])
    ensures forall x :: x in s && p(x) ==> x in r
    ensures forall x :: x in r ==> x in s
  {
    if |s| == 0 then []
    else Filter(s[..|s| - 1], p) + (if p(s[|s| - 1]) then [s[|s| - 1]] else [])
  }

  /** `Filter` keeps every element when the predicate holds of all of them. */
  lemma {:induction false} FilterAll<T>(s: seq<T>, p: T -> bool)
    requires forall i :: 0 <= i < |s| ==> p(s[i])
    ensures Filter(s, p) == s
  {
    if |s| > 0 {
      FilterAll(s[..|s| - 1], p);
      assert s[..|s| - 1] + [s[|s| - 1]] == s;
    }
  }

  /** Filtering a concatenation concatenates the filtered parts. */
  lemma {:induction false} FilterConcat<T>(a: seq<T>, b: seq<T>, p: T -> bool)
    ensures Filter(a + b, p) == Filter(a, p) + Filter(b, p)
  {
    if |b| == 0 {
      assert a + b == a;
    } else {
      var front := b[..|b| - 1];
      FilterConcat(a, front, p);
      assert (a + b)[..|a + b| - 1] == a + front;
      assert (a + b)[|a + b| - 1] == b[|b| - 1];
    }
  }

  /** `Filter` keeps nothing when the predicate holds of no element. */
  lemma {:induction false} FilterNone<T>(s: seq<T>, p: T -> bool)
    requires forall i :: 0 <= i < |s| ==> !p(s[i])
    ensures Filter(s, p) == []
  {
    if |s| > 0 {
      FilterNone(s[..|s| - 1], p);
    }
  }

  /** Two predicates that never hold together count no more than the
      elements. */
  lemma {:induction false} CountDisjoint<T>(s: seq<T>, p: T -> bool, q: T -> bool)
    requires forall x :: !(p(x) && q(x))
    ensures Count(s, p) + Count(s, q) <= |s|
  {
    if |s| > 0 {
      CountDisjoint(s[..|s| - 1], p, q);
    }
  }

  /** A predicate that implies another on the elements counts no more. */
  lemma {:induction false} CountImplies<T>(s: seq<T>, p: T -> bool, q: T -> bool)
    requires forall i :: 0 <= i < |s| && p(s[i]) ==> q(s[i])
    ensures Count(s, p) <= Count(s, q)
  {
    if |s| > 0 {
      CountImplies(s[..|s| - 1], p, q);
    }
  }

  /** Predicates that agree on the elements count the same. */
  lemma {:induction false} CountSame<T>(s: seq<T>, p: T -> bool, q: T -> bool)
    requires forall i :: 0 <= i < |s| ==> p(s[i]) == q(s[i])
    ensures Count(s, p) == Count(s, q)
  {
    if |s| > 0 {
      CountSame(s[..|s| - 1], p, q);
    }
  }

  /** Counting in a filtered list finds no more than in the whole list. */
  lemma {:induction false} CountOfFilter<T>(s: seq<T>, p: T -> bool, q: T -> bool)
    ensures Count(Filter(s, p), q) <= Count(s, q)
  {
    if |s| > 0 {
      var front := s[..|s| - 1];
      var x := s[|s| - 1];
      var ff := Filter(front, p);
      CountOfFilter(front, p, q);
      assert Count(s, q) == Count(front, q) + (if q(x) then 1 else 0);
      if p(x) {
        var f := ff + [x];
        assert Filter(s, p) == f;
        assert f[..|f| - 1] == ff;
        assert Count(f, q) == Count(ff, q) + (if q(x) then 1 else 0);
      } else {
        assert Filter(s, p) == ff;
      }
    }
  }

  /** When each element satisfies exactly one of three predicates, their
      counts add up to the length. */
  lemma {:induction false} CountPartition3<T>(s: seq<T>, p: T -> bool, q: T -> bool, r: T -> bool)
    requires forall i :: 0 <= i < |s| ==> p(s[i]) || q(s[i]) || r(s[i])
    requires forall x :: !(p(x) && q(x)) && !(p(x) && r(x)) && !(q(x) && r(x))
    ensures Count(s, p) + Count(s, q) + Count(s, r) == |s|
  {
    if |s| > 0 {
      CountPartition3(s[..|s| - 1], p, q, r);
    }
  }

  /** `t` can be obtained from `s` by deleting elements. */
  ghost predicate IsSubsequence<T>(t: seq<T>, s: seq<T>)
  {
    exists idx: seq<nat> ::
      |idx| == |t| &&
      (forall k :: 0 <= k < |idx| ==> idx[k] < |s| && s[idx[k]] == t[k]) &&
      (forall k, l :: 0 <= k < l < |idx| ==> idx[k] < idx[l])
  }

  /** The empty sequence is a subsequence of any sequence. */
  lemma SubsequenceEmpty<T>(t: seq<T>, s: seq<T>)
    requires |t| == 0
    ensures IsSubsequence(t, s)
  {
    var idx: seq<nat> := [];
    assert |idx| == |t|;
  }

  /** Appending an element that is left out keeps a subsequence one. */
  lemma SubsequenceSkip<T>(t: seq<T>, s: seq<T>, x: T)
    requires IsSubsequence(t, s)
    ensures IsSubsequence(t, s + [x])
  {
    var idx: seq<nat> :| |idx| == |t| &&
      (forall k :: 0 <= k < |idx| ==> idx[k] < |s| && s[idx[k]] == t[k]) &&
      (forall k, l :: 0 <= k < l < |idx| ==> idx[k] < idx[l]);
    assert forall k :: 0 <= k < |idx| ==> (s + [x])[idx[k]] == s[idx[k]];
  }

  /** Appending the same element to both keeps a subsequence one. */
  lemma SubsequenceKeep<T>(t: seq<T>, s: seq<T>, x: T)
    requires IsSubsequence(t, s)
    ensures IsSubsequence(t + [x], s + [x])
  {
    var idx: seq<nat> :| |idx| == |t| &&
      (forall k :: 0 <= k < |idx| ==> idx[k] < |s| && s[idx[k]] == t[k]) &&
      (forall k, l :: 0 <= k < l < |idx| ==> idx[k] < idx[l]);
    var idx' := idx + [|s|];
    assert forall k :: 0 <= k < |idx| ==> idx'[k] == idx[k] && (s + [x])[idx[k]] == s[idx[k]] && (t + [x])[k] == t[k];
    assert (s + [x])[|s|] == x && (t + [x])[|t|] == x;
    assert forall k :: 0 <= k < |idx'| ==> idx'[k] < |s + [x]| && (s + [x])[idx'[k]] == (t + [x])[k];
  }

  lemma {:induction false} FilterIsSubsequence<T>(s: seq<T>, p: T -> bool)
    ensures IsSubsequence(Filter(s, p), s)
  {
    if |s| == 0 {
      SubsequenceEmpty(Filter(s, p), s);
    } else {
      var s' := s[..|s| - 1];
      var x := s[|s| - 1];
      FilterIsSubsequence(s', p);
      assert s == s' + [x];
      if p(x) {
        SubsequenceKeep(Filter(s', p), s', x);
      } else {
        SubsequenceSkip(Filter(s', p), s', x);
      }
    }
  }

  /** `f` applied to the first `n` pairs of `xs` and `ys`, in order. */
  function MapPairs<A, B, C>(xs: seq<A>, ys: seq<B>, f: (A, B) -> C, n: nat): (r: seq<C>)
    requires n <= |xs| && n <= |ys|
    ensures |r| == n
    ensures forall i :: 0 <= i < n ==> r[i] == f(xs[i], ys[i])
  {
    if n == 0 then [] else MapPairs(xs, ys, f, n - 1) + [f(xs[n - 1], ys[n - 1])]
  }

  /** The first `n` elements, or all of `s` when it is shorter (Python's
      `s[:n]`, JavaScript's `slice(0, n)`). */
  function Take<T>(s: seq<T>, n: nat): (r: seq<T>)
    ensures |r| == MinInt(|s|, n) && r == s[..|r|]
  {
    if |s| <= n then s else s[..n]
  }

  /** The last `n` elements, or all of `s` when it is shorter (Python's
      `s[-n:]`). */
  function Last<T>(s: seq<T>, n: nat): (r: seq<T>)
    ensures |r| == MinInt(|s|, n) && r == s[|s| - |r|..]
  {
    if |s| >= n then s[|s| - n..] else s
  }

  /** `a` occurs in `s` as a contiguous block (JavaScript's `includes`,
      Python's `in` on strings). */
  predicate Contains<T(==)>(s: seq<T>, a: seq<T>)
  {
    exists i :: 0 <= i <= |s| - |a| && OccursAt(s, a, i)
  }

  /** `a` occurs in `s` starting at index `i`. */
  predicate OccursAt<T(==)>(s: seq<T>, a: seq<T>, i: int)
  {
    0 <= i <= |s| - |a| && s[i..i + |a|] == a
  }

  /** `p` is a prefix of `s` (`startsWith`). */
  predicate StartsWith<T(==)>(s: seq<T>, p: seq<T>)
  {
    |p| <= |s| && s[..|p|] == p
  }
}
