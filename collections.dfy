/**
 * Generic helpers for query results: the keys of a table in newest-first
 * order, sorting by an integer key, and sums over rows.
 */
module Seqs {

  /** Keys of `m` below `n` whose row satisfies `p`, largest (newest) first. */
  function KeysDesc<T>(m: map<nat, T>, n: nat, p: (nat, T) -> bool): (r: seq<nat>)
    ensures forall i :: 0 <= i < |r| ==> r[i] in m && r[i] < n && p(r[i], m[r[i]])
    ensures forall k :: k in m && k < n && p(k, m[k]) ==> k in r
    ensures forall i, j :: 0 <= i < j < |r| ==> r[i] > r[j]
    decreases n
  {
    if n == 0 then []
    else
      var k := n - 1;
      (if k in m && p(k, m[k]) then [k] else []) + KeysDesc(m, k, p)
  }

  /** Keys of `m` below `n` whose row satisfies `p`, smallest (oldest) first. */
  function KeysAsc<T>(m: map<nat, T>, n: nat, p: (nat, T) -> bool): (r: seq<nat>)
    ensures forall i :: 0 <= i < |r| ==> r[i] in m && r[i] < n && p(r[i], m[r[i]])
    ensures forall k :: k in m && k < n && p(k, m[k]) ==> k in r
    ensures forall i, j :: 0 <= i < j < |r| ==> r[i] < r[j]
    decreases n
  {
    if n == 0 then []
    else
      var k := n - 1;
      KeysAsc(m, k, p) + (if k in m && p(k, m[k]) then [k] else [])
  }

  /** No key below `n` satisfies `p`, so the query finds nothing. */
  lemma {:induction false} KeysAscNone<T>(m: map<nat, T>, n: nat, p: (nat, T) -> bool)
    requires forall k :: k in m && k < n ==> !p(k, m[k])
    ensures KeysAsc(m, n, p) == []
    decreases n
  {
    if n > 0 {
      KeysAscNone(m, n - 1, p);
    }
  }

  predicate SortedDesc<T>(xs: seq<T>, key: T -> int) {
    forall i, j :: 0 <= i < j < |xs| ==> key(xs[i]) >= key(xs[j])
  }

  /** A strictly ascending sequence that holds `x` and nothing else is `[x]`. */
  lemma AscendingSingleton(r: seq<nat>, x: nat)
    requires x in r
    requires forall i :: 0 <= i < |r| ==> r[i] == x
    requires forall i, j :: 0 <= i < j < |r| ==> r[i] < r[j]
    ensures r == [x]
  {
    assert r[|r| - 1] == r[0];
  }

  /** Inserts `x` into a list sorted by non-increasing `key`. */
  function InsertDesc<T>(x: T, xs: seq<T>, key: T -> int): (r: seq<T>)
    requires SortedDesc(xs, key)
    ensures SortedDesc(r, key)
    ensures multiset(r) == multiset(xs) + multiset{x}
    ensures |r| == |xs| + 1
    decreases |xs|
  {
    if |xs| == 0 then [x]
    else if key(xs[0]) >= key(x) then
      var rest := InsertDesc(x, xs[1..], key);
      assert xs == [xs[0]] + xs[1..];
      HeadBounds(xs[0], x, xs[1..], rest, key);
      [xs[0]] + rest
    else [x] + xs
  }

  /** A head at least as large as every element it is put in front of keeps the list sorted. */
  lemma HeadBounds<T>(h: T, x: T, tail: seq<T>, rest: seq<T>, key: T -> int)
    requires SortedDesc([h] + tail, key) && key(h) >= key(x)
    requires SortedDesc(rest, key) && multiset(rest) == multiset(tail) + multiset{x}
    ensures SortedDesc([h] + rest, key)
  {
    forall i | 0 <= i < |rest| ensures key(h) >= key(rest[i]) {
      assert rest[i] in multiset(rest);
      if rest[i] != x {
        assert rest[i] in multiset(tail);
        var j :| 0 <= j < |tail| && tail[j] == rest[i];
        assert ([h] + tail)[0] == h && ([h] + tail)[j + 1] == tail[j];
      }
    }
    var s := [h] + rest;
    forall i, j | 0 <= i < j < |s| ensures key(s[i]) >= key(s[j]) {
      if i > 0 {
        assert s[i] == rest[i - 1] && s[j] == rest[j - 1];
      } else {
        assert s[j] == rest[j - 1];
      }
    }
  }

  /** `sorted(xs, key=key, reverse=True)` up to the order of equal keys. */
  function SortDesc<T>(xs: seq<T>, key: T -> int): (r: seq<T>)
    ensures SortedDesc(r, key)
    ensures multiset(r) == multiset(xs)
    ensures |r| == |xs|
    decreases |xs|
  {
    if |xs| == 0 then []
    else
      assert xs == [xs[0]] + xs[1..];
      InsertDesc(xs[0], SortDesc(xs[1..], key), key)
  }

  ghost predicate Distinct<T>(xs: seq<T>) {
    forall i, j :: 0 <= i < j < |xs| ==> xs[i] != xs[j]
  }

  /** In a list without repeats every value occurs at most once. */
  lemma {:induction false} DistinctOnce<T>(xs: seq<T>, x: T)
    requires Distinct(xs)
    ensures multiset(xs)[x] <= 1
    decreases |xs|
  {
    if |xs| > 0 {
      assert xs == [xs[0]] + xs[1..];
      DistinctOnce(xs[1..], x);
      if xs[0] == x {
        assert x !in xs[1..];
      }
    }
  }

  /** Reordering a list without repeats gives a list without repeats. */
  lemma PermutationDistinct<T>(xs: seq<T>, ys: seq<T>)
    requires Distinct(xs) && multiset(ys) == multiset(xs)
    ensures Distinct(ys)
  {
    forall i, j | 0 <= i < j < |ys| ensures ys[i] != ys[j] {
      if ys[i] == ys[j] {
        assert ys == ys[..i] + [ys[i]] + ys[i + 1..j] + [ys[j]] + ys[j + 1..];
        DistinctOnce(xs, ys[i]);
        assert false;
      }
    }
  }

  /** Σ f(x) over the list. */
  function SumOf<T>(xs: seq<T>, f: T -> int): int
    decreases |xs|
  {
    if |xs| == 0 then 0 else f(xs[0]) + SumOf(xs[1..], f)
  }

  lemma {:induction false} SumOfAppend<T>(xs: seq<T>, ys: seq<T>, f: T -> int)
    ensures SumOf(xs + ys, f) == SumOf(xs, f) + SumOf(ys, f)
    decreases |xs|
  {
    if |xs| == 0 {
      assert xs + ys == ys;
    } else {
      assert (xs + ys)[0] == xs[0];
      assert (xs + ys)[1..] == xs[1..] + ys;
      SumOfAppend(xs[1..], ys, f);
    }
  }

  lemma {:induction false} SumOfNonNegative<T>(xs: seq<T>, f: T -> int)
    requires forall i :: 0 <= i < |xs| ==> f(xs[i]) >= 0
    ensures SumOf(xs, f) >= 0
    decreases |xs|
  {
    if |xs| > 0 {
      SumOfNonNegative(xs[1..], f);
    }
  }
}
