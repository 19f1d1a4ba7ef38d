/**
 * The array methods the storefront uses on its lists: `filter`, `slice(0, n)` and the
 * stable `sort` that JavaScript engines have guaranteed since ES2019, the last modelled as
 * a stable insertion sort driven by a "less or equal" comparator.
 */
module Seqs {

  /** `s.filter(p)`: the elements satisfying `p`, in their original order. */
  function Filter<T(!new)>(s: seq<T>, p: T -> bool): (r: seq<T>)
    ensures |r| <= |s|
    ensures forall i :: 0 <= i < |r| ==> p(r[i])
    ensures forall x :: multiset(r)[x] == if p(x) then multiset(s)[x] else 0
  {
    if |s| == 0 then []
    else
      assert s == [s[0]] + s[1..];
      (if p(s[0]) then [s[0]] else []) + Filter(s[1..], p)
  }

  /** Every element of a filtered list comes from the original list. */
  lemma FilterSubset<T(!new)>(s: seq<T>, p: T -> bool, k: int)
    requires 0 <= k < |Filter(s, p)|
    ensures Filter(s, p)[k] in s
  {
    var r := Filter(s, p);
    assert r[k] in multiset(r);
    assert multiset(s)[r[k]] > 0;
  }

  /** Filtering a list whose elements all pass changes nothing. */
  lemma {:induction false} FilterAllPass<T(!new)>(s: seq<T>, p: T -> bool)
    requires forall i :: 0 <= i < |s| ==> p(s[i])
    ensures Filter(s, p) == s
  {
    if |s| > 0 {
      FilterAllPass(s[1..], p);
    }
  }

  lemma ConcatAssoc<T>(a: seq<T>, b: seq<T>, c: seq<T>)
    ensures a + (b + c) == (a + b) + c
  {
  }

  /** Taking no more than the first part holds from the first part alone. */
  lemma TakeConcat<T>(a: seq<T>, b: seq<T>, n: nat)
    requires n <= |a|
    ensures Take(a + b, n) == Take(a, n)
  {
    assert (a + b)[..n] == a[..n];
  }

  lemma InitLast<T>(s: seq<T>)
    requires |s| > 0
    ensures s == s[..|s| - 1] + [s[|s| - 1]]
  {
  }

  /** Filtering keeps the relative order: it distributes over concatenation. */
  lemma {:induction false} FilterConcat<T(!new)>(a: seq<T>, b: seq<T>, p: T -> bool)
    ensures Filter(a + b, p) == Filter(a, p) + Filter(b, p)
  {
    if |a| > 0 {
      var head := if p(a[0]) then [a[0]] else [];
      assert (a + b)[0] == a[0] && (a + b)[1..] == a[1..] + b;
      FilterConcat(a[1..], b, p);
      calc {
        Filter(a + b, p);
        head + Filter(a[1..] + b, p);
        head + (Filter(a[1..], p) + Filter(b, p));
        { ConcatAssoc(head, Filter(a[1..], p), Filter(b, p)); }
        (head + Filter(a[1..], p)) + Filter(b, p);
        Filter(a, p) + Filter(b, p);
      }
    } else {
      assert a + b == b;
    }
  }

  /** A filter that lets through everything a stricter one does keeps at least as many elements. */
  lemma {:induction false} FilterMono<T(!new)>(s: seq<T>, p: T -> bool, q: T -> bool)
    requires forall x :: p(x) ==> q(x)
    ensures |Filter(s, p)| <= |Filter(s, q)|
  {
    if |s| > 0 {
      FilterMono(s[1..], p, q);
    }
  }

  /** Filtering by predicates that agree everywhere gives the same list. */
  lemma {:induction false} FilterExt<T(!new)>(s: seq<T>, p: T -> bool, q: T -> bool)
    requires forall x :: p(x) == q(x)
    ensures Filter(s, p) == Filter(s, q)
  {
    if |s| > 0 {
      FilterExt(s[1..], p, q);
    }
  }

  /** Two filters in a row keep what passes both. */
  lemma {:induction false} FilterFilter<T(!new)>(s: seq<T>, p: T -> bool, q: T -> bool)
    ensures Filter(Filter(s, p), q) == Filter(s, x => p(x) && q(x))
  {
    if |s| > 0 {
      FilterFilter(s[1..], p, q);
      var fs := Filter(s, p);
      var rest := Filter(s[1..], p);
      if p(s[0]) {
        assert fs == [s[0]] + rest;
        assert fs[0] == s[0] && fs[1..] == rest;
      } else {
        assert fs == rest;
      }
    }
  }

  /**
   * One stage of a filter pipeline: a filter by `f` that runs only when `on`, applied to
   * what the earlier stages (`prev`) let through, leaves what `next` lets through.
   */
  lemma FilterStage<T(!new)>(s: seq<T>, prev: T -> bool, on: bool, f: T -> bool, next: T -> bool)
    requires forall x :: next(x) == (prev(x) && (!on || f(x)))
    ensures on ==> Filter(Filter(s, prev), f) == Filter(s, next)
    ensures !on ==> Filter(s, prev) == Filter(s, next)
  {
    if on {
      FilterFilter(s, prev, f);
      FilterExt(s, x => prev(x) && f(x), next);
    } else {
      FilterExt(s, prev, next);
    }
  }

  function Min(a: int, b: int): int { if a <= b then a else b }

  /** `s.slice(0, n)`. */
  function Take<T>(s: seq<T>, n: nat): (r: seq<T>)
    ensures |r| == Min(n, |s|)
    ensures forall i :: 0 <= i < |r| ==> r[i] == s[i]
  {
    s[..Min(n, |s|)]
  }

  /** `leq` is total and transitive: a comparator that `sort` can use consistently. */
  ghost predicate TotalPreorder<T(!new)>(leq: (T, T) -> bool) {
    && (forall a, b :: leq(a, b) || leq(b, a))
    && (forall a, b, c :: leq(a, b) && leq(b, c) ==> leq(a, c))
  }

  predicate SortedBy<T>(s: seq<T>, leq: (T, T) -> bool) {
    forall i, j :: 0 <= i < j < |s| ==> leq(s[i], s[j])
  }

  /**
   * Inserts `x` behind every element of `t` that is not strictly greater than it, so that
   * elements that compare equal keep their order.
   */
  function Insert<T>(t: seq<T>, x: T, leq: (T, T) -> bool): (r: seq<T>)
    ensures multiset(r) == multiset(t) + multiset{x}
    ensures |r| == |t| + 1
  {
    if |t| == 0 || leq(t[|t| - 1], x) then t + [x]
    else
      assert t == t[..|t| - 1] + [t[|t| - 1]];
      Insert(t[..|t| - 1], x, leq) + [t[|t| - 1]]
  }

  /** `s.sort(cmp)` for the comparator whose "less or equal" is `leq`: a stable sort. */
  function SortBy<T>(s: seq<T>, leq: (T, T) -> bool): (r: seq<T>)
    ensures multiset(r) == multiset(s)
    ensures |r| == |s|
  {
    if |s| == 0 then []
    else
      assert s == s[..|s| - 1] + [s[|s| - 1]];
      Insert(SortBy(s[..|s| - 1], leq), s[|s| - 1], leq)
  }

  lemma {:induction false} InsertSorted<T(!new)>(t: seq<T>, x: T, leq: (T, T) -> bool)
    requires TotalPreorder(leq)
    requires SortedBy(t, leq)
    ensures SortedBy(Insert(t, x, leq), leq)
  {
    if |t| == 0 || leq(t[|t| - 1], x) {
    } else {
      var init, last := t[..|t| - 1], t[|t| - 1];
      InsertSorted(init, x, leq);
      var u := Insert(init, x, leq);
      forall i | 0 <= i < |u|
        ensures leq(u[i], last)
      {
        assert u[i] in multiset(u);
        assert u[i] in multiset(init) || u[i] == x;
        if u[i] != x {
          var k :| 0 <= k < |init| && init[k] == u[i];
          assert t[k] == init[k];
        }
      }
    }
  }

  /** The result of `SortBy` is ordered by `leq` whenever `leq` is a total preorder. */
  lemma {:induction false} SortBySorted<T(!new)>(s: seq<T>, leq: (T, T) -> bool)
    requires TotalPreorder(leq)
    ensures SortedBy(SortBy(s, leq), leq)
  {
    if |s| > 0 {
      SortBySorted(s[..|s| - 1], leq);
      InsertSorted(SortBy(s[..|s| - 1], leq), s[|s| - 1], leq);
    }
  }

  /** Every prefix of an ordered list is ordered. */
  lemma SortedInit<T>(s: seq<T>, leq: (T, T) -> bool)
    requires |s| > 0 && SortedBy(s, leq)
    ensures SortedBy(s[..|s| - 1], leq)
  {
    var init := s[..|s| - 1];
    forall i, j | 0 <= i < j < |init|
      ensures leq(init[i], init[j])
    {
      assert init[i] == s[i] && init[j] == s[j];
    }
  }

  /** Sorting an already ordered list returns it unchanged (the sort is stable). */
  lemma {:induction false} SortByOfSorted<T>(s: seq<T>, leq: (T, T) -> bool)
    requires SortedBy(s, leq)
    ensures SortBy(s, leq) == s
  {
    if |s| > 0 {
      var init, last := s[..|s| - 1], s[|s| - 1];
      SortedInit(s, leq);
      SortByOfSorted(init, leq);
      assert Insert(init, last, leq) == init + [last] by {
        if |init| > 0 {
          assert init[|init| - 1] == s[|s| - 2];
          assert leq(s[|s| - 2], s[|s| - 1]);
        }
      }
      assert s == init + [last];
    }
  }

  /** `s` read back to front. */
  function Reverse<T>(s: seq<T>): (r: seq<T>)
    ensures |r| == |s|
    ensures forall i :: 0 <= i < |s| ==> r[i] == s[|s| - 1 - i]
  {
    seq(|s|, i requires 0 <= i < |s| => s[|s| - 1 - i])
  }

  /** No two positions of `s` share a key. */
  predicate DistinctKeys<T>(s: seq<T>, key: T -> int) {
    forall i, j :: 0 <= i < j < |s| ==> key(s[i]) != key(s[j])
  }

  /** An element that occurs twice in a list occupies two positions of it. */
  lemma TwoPositions<T>(s: seq<T>, x: T)
    requires multiset(s)[x] >= 2
    ensures exists i, j :: 0 <= i < j < |s| && s[i] == x && s[j] == x
  {
    assert x in multiset(s);
    var k :| 0 <= k < |s| && s[k] == x;
    assert s == s[..k] + [x] + s[k + 1..];
    assert multiset(s) == multiset(s[..k]) + multiset{x} + multiset(s[k + 1..]);
    if x in multiset(s[..k]) {
      var i :| 0 <= i < k && s[..k][i] == x;
      assert s[i] == x;
    } else {
      assert x in multiset(s[k + 1..]);
      var j :| 0 <= j < |s| - k - 1 && s[k + 1..][j] == x;
      assert s[k + 1 + j] == x;
    }
  }

  /** Distinct keys survive a permutation. */
  lemma DistinctKeysPermutation<T>(s: seq<T>, t: seq<T>, key: T -> int)
    requires multiset(s) == multiset(t) && DistinctKeys(s, key)
    ensures DistinctKeys(t, key)
  {
    forall i, j | 0 <= i < j < |t|
      ensures key(t[i]) != key(t[j])
    {
      if t[i] == t[j] {
        assert multiset(t)[t[i]] >= 2 by {
          assert t == t[..j] + [t[j]] + t[j + 1..];
          assert t[..j][i] == t[i];
          assert t[i] in multiset(t[..j]);
        }
        TwoPositions(s, t[i]);
      } else {
        assert t[i] in multiset(s) && t[j] in multiset(s);
        var k :| 0 <= k < |s| && s[k] == t[i];
        var l :| 0 <= l < |s| && s[l] == t[j];
        assert k != l;
      }
    }
  }

  /** Taking the same element off the end of one list and the front of the other keeps them permutations. */
  lemma DropEnds<T>(a: seq<T>, b: seq<T>)
    requires multiset(a) == multiset(b) && |a| > 0 && |b| > 0 && a[|a| - 1] == b[0]
    ensures multiset(a[..|a| - 1]) == multiset(b[1..])
  {
    var x := b[0];
    var a', b' := a[..|a| - 1], b[1..];
    assert a == a' + [x];
    assert b == [x] + b';
    var m := multiset(a);
    assert multiset(a') + multiset{x} == m;
    assert multiset(b') + multiset{x} == m;
    forall y
      ensures multiset(a')[y] == multiset(b')[y]
    {
      assert multiset(a')[y] + multiset{x}[y] == m[y];
      assert multiset(b')[y] + multiset{x}[y] == m[y];
    }
  }

  /** The element with the largest key ends the rising list and starts the falling one. */
  lemma LargestKeyAtEnds<T>(a: seq<T>, b: seq<T>, key: T -> int)
    requires multiset(a) == multiset(b) && |a| > 0 && |b| > 0
    requires forall i, j :: 0 <= i < j < |a| ==> key(a[i]) < key(a[j])
    requires forall i, j :: 0 <= i < j < |b| ==> key(b[i]) > key(b[j])
    ensures a[|a| - 1] == b[0]
  {
    var n := |a|;
    assert b[0] in multiset(a) && a[n - 1] in multiset(b);
    var k :| 0 <= k < n && a[k] == b[0];
    var m :| 0 <= m < |b| && b[m] == a[n - 1];
    assert key(b[m]) <= key(b[0]);
    assert key(a[k]) <= key(a[n - 1]);
  }

  /**
   * Two orderings of the same elements, one with keys strictly rising and the other with
   * keys strictly falling, are each other's reverse.
   */
  lemma {:induction false} OppositeOrdersReverse<T>(a: seq<T>, b: seq<T>, key: T -> int)
    requires multiset(a) == multiset(b)
    requires forall i, j :: 0 <= i < j < |a| ==> key(a[i]) < key(a[j])
    requires forall i, j :: 0 <= i < j < |b| ==> key(b[i]) > key(b[j])
    ensures b == Reverse(a)
    decreases |a|
  {
    assert |a| == |multiset(a)| == |multiset(b)| == |b|;
    if |a| > 0 {
      var n := |a|;
      LargestKeyAtEnds(a, b, key);
      var a', b' := a[..n - 1], b[1..];
      DropEnds(a, b);
      OppositeOrdersReverse(a', b', key);
      var r := Reverse(a);
      forall i | 0 <= i < n
        ensures b[i] == r[i]
      {
        if i > 0 {
          assert b[i] == b'[i - 1];
          assert a'[n - 2 - (i - 1)] == a[n - 1 - i];
        }
      }
    }
  }
}
