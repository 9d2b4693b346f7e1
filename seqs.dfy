/** Sequences as the handlers use them: a list comprehension with a guard, and the values of a
    dictionary listed in its insertion order. */
module Seqs {

  /** `[x for x in s if p(x)]`. */
  function Filter<T(==)>(s: seq<T>, p: T -> bool): (r: seq<T>)
    ensures |r| <= |s|
    ensures forall i :: 0 <= i < |r| ==> r[i] in s && p(r[i])
    ensures forall i :: 0 <= i < |s| && p(s[i]) ==> s[i] in r
  {
    if s == [] then []
    else if p(s[0]) then [s[0]] + Filter(s[1..], p)
    else Filter(s[1..], p)
  }

  /** `a` is `b` with some elements left out and the rest in their order. */
  predicate IsSubsequence<T(==)>(a: seq<T>, b: seq<T>)
    decreases |b|
  {
    if a == [] then true
    else if b == [] then false
    else if a[0] == b[0] then IsSubsequence(a[1..], b[1..])
    else IsSubsequence(a, b[1..])
  }

  /** No value occurs twice. */
  predicate NoDup<T(==)>(s: seq<T>) {
    forall i, j :: 0 <= i < j < |s| ==> s[i] != s[j]
  }

  /** A comprehension keeps the order of what it keeps. */
  lemma {:induction false} FilterIsSubsequence<T>(s: seq<T>, p: T -> bool)
    ensures IsSubsequence(Filter(s, p), s)
  {
    if s != [] {
      FilterIsSubsequence(s[1..], p);
      var r := Filter(s, p);
      if !p(s[0]) && r != [] {
        assert r[0] in r;
      }
    }
  }

  /** Two guards that agree everywhere keep the same elements. */
  lemma {:induction false} FilterExt<T>(s: seq<T>, p: T -> bool, q: T -> bool)
    requires forall x :: p(x) == q(x)
    ensures Filter(s, p) == Filter(s, q)
  {
    if s != [] {
      FilterExt(s[1..], p, q);
    }
  }

  /** A guard every element passes keeps everything. */
  lemma {:induction false} FilterKeepsAll<T>(s: seq<T>, p: T -> bool)
    requires forall i :: 0 <= i < |s| ==> p(s[i])
    ensures Filter(s, p) == s
  {
    if s != [] {
      FilterKeepsAll(s[1..], p);
    }
  }

  /** Filtering twice is filtering once by the conjunction of the two guards. */
  lemma {:induction false} FilterTwice<T>(s: seq<T>, p: T -> bool, q: T -> bool, both: T -> bool)
    requires forall x :: both(x) == (p(x) && q(x))
    ensures Filter(Filter(s, p), q) == Filter(s, both)
  {
    if s != [] {
      FilterTwice(s[1..], p, q, both);
      if p(s[0]) {
        assert Filter(s, p) == [s[0]] + Filter(s[1..], p);
        assert Filter(s, p)[1..] == Filter(s[1..], p);
      }
    }
  }

  /** A comprehension drops something exactly when some element fails the guard: the length
      check of a pruning loop tells whether anything was pruned. */
  lemma {:induction false} FilterShorterIff<T>(s: seq<T>, p: T -> bool)
    ensures |Filter(s, p)| < |s| <==> exists i :: 0 <= i < |s| && !p(s[i])
  {
    if s != [] {
      FilterShorterIff(s[1..], p);
      if exists i :: 0 <= i < |s[1..]| && !p(s[1..][i]) {
        var i :| 0 <= i < |s[1..]| && !p(s[1..][i]);
        assert !p(s[i + 1]);
      }
      if exists i :: 0 <= i < |s| && !p(s[i]) {
        var i :| 0 <= i < |s| && !p(s[i]);
        if i > 0 {
          assert !p(s[1..][i - 1]);
        }
      }
    }
  }

  /** A comprehension over a list without repeats has none either. */
  lemma {:induction false} FilterNoDup<T>(s: seq<T>, p: T -> bool)
    requires NoDup(s)
    ensures NoDup(Filter(s, p))
  {
    if s != [] {
      NoDupTail(s);
      FilterNoDup(s[1..], p);
      if p(s[0]) {
        var rest := Filter(s[1..], p);
        assert s[0] !in rest;
        NoDupCons(s[0], rest);
      }
    }
  }

  /** The tail of a list without repeats has none, and does not hold the head. */
  lemma NoDupTail<T>(s: seq<T>)
    requires s != [] && NoDup(s)
    ensures NoDup(s[1..]) && s[0] !in s[1..]
  {
    forall i, j | 0 <= i < j < |s[1..]|
      ensures s[1..][i] != s[1..][j]
    {
      assert s[1..][i] == s[i + 1] && s[1..][j] == s[j + 1];
    }
    forall k | 0 <= k < |s[1..]|
      ensures s[1..][k] != s[0]
    {
      assert s[1..][k] == s[k + 1];
    }
  }

  /** Putting a new value in front of a list without repeats keeps it without repeats. */
  lemma NoDupCons<T>(x: T, s: seq<T>)
    requires NoDup(s) && x !in s
    ensures NoDup([x] + s)
  {
    var r := [x] + s;
    forall i, j | 0 <= i < j < |r|
      ensures r[i] != r[j]
    {
      assert r[j] == s[j - 1];
      if i > 0 {
        assert r[i] == s[i - 1];
      }
    }
  }

  /** `list(m.values())` for a dictionary whose keys, in insertion order, are `order`; with any
      list of keys of `m`, the lookup `[m[k] for k in order]`. */
  function Values<K, V>(order: seq<K>, m: map<K, V>): seq<V>
    requires forall i :: 0 <= i < |order| ==> order[i] in m
  {
    seq(|order|, i requires 0 <= i < |order| && order[i] in m => m[order[i]])
  }

  /** Inserting a new key appends its value to the listing. */
  lemma ValuesAppend<K, V>(order: seq<K>, m: map<K, V>, k: K, v: V)
    requires forall i :: 0 <= i < |order| ==> order[i] in m
    requires k !in order
    ensures Values(order + [k], m[k := v]) == Values(order, m) + [v]
  {
    var r := Values(order + [k], m[k := v]);
    forall i | 0 <= i < |order|
      ensures r[i] == Values(order, m)[i]
    {
      assert (order + [k])[i] == order[i];
      assert order[i] != k by { assert order[i] in order; }
    }
  }

  /** Listing only the keys a guard keeps lists only the values the matching guard keeps. */
  lemma {:induction false} ValuesFilter<K, V>(order: seq<K>, m: map<K, V>, keep: K -> bool, keepValue: V -> bool)
    requires forall i :: 0 <= i < |order| ==> order[i] in m
    requires forall i :: 0 <= i < |order| ==> keep(order[i]) == keepValue(m[order[i]])
    ensures forall i :: 0 <= i < |Filter(order, keep)| ==> Filter(order, keep)[i] in m
    ensures Values(Filter(order, keep), m) == Filter(Values(order, m), keepValue)
  {
    if order != [] {
      var tail := order[1..];
      assert forall i :: 0 <= i < |tail| ==> tail[i] == order[i + 1];
      ValuesFilter(tail, m, keep, keepValue);
      assert order == [order[0]] + tail;
      ValuesCons(order[0], tail, m);
      FilterCons(order[0], tail, keep);
      FilterCons(m[order[0]], Values(tail, m), keepValue);
      if keep(order[0]) {
        ValuesCons(order[0], Filter(tail, keep), m);
      }
    }
  }

  /** A comprehension over `[x] + s` is `[x]` if `x` passes, then the comprehension over `s`. */
  lemma FilterCons<T>(x: T, s: seq<T>, p: T -> bool)
    ensures Filter([x] + s, p) == (if p(x) then [x] else []) + Filter(s, p)
  {
    assert ([x] + s)[1..] == s;
  }

  /** Listing `[x] + s` lists the value under `x`, then the listing of `s`. */
  lemma ValuesCons<K, V>(x: K, s: seq<K>, m: map<K, V>)
    requires x in m && forall i :: 0 <= i < |s| ==> s[i] in m
    ensures Values([x] + s, m) == [m[x]] + Values(s, m)
  {
  }

  /** Listing a map from which a key that is not listed was removed changes nothing. */
  lemma ValuesWithout<K, V>(order: seq<K>, m: map<K, V>, k: K)
    requires forall i :: 0 <= i < |order| ==> order[i] in m && order[i] != k
    ensures Values(order, m - {k}) == Values(order, m)
  {
  }
}
