/** The JavaScript array operations the portal relies on, as functions on
    sequences: `filter`, `findIndex`, `find` and the stable
    `Array.prototype.sort` (stable since ECMAScript 2019), modelled as an
    insertion sort on an integer key. */
module Sequences {
  import opened Types

  /** `r` is `s` with some elements left out: the rest keep their order. */
  ghost predicate Subsequence<T>(r: seq<T>, s: seq<T>)
    decreases |s|
  {
    if r == [] then true
    else if s == [] then false
    else if r[0] == s[0] then Subsequence(r[1..], s[1..])
    else Subsequence(r, s[1..])
  }

  /** `s.filter(p)`: the elements that satisfy `p`, in their original order. */
  function Filter<T(!new)>(s: seq<T>, p: T -> bool): (r: seq<T>)
    ensures |r| <= |s|
    ensures forall x :: x in r <==> x in s && p(x)
    ensures Subsequence(r, s)
    decreases |s|
  {
    if s == [] then []
    else
      var rest := Filter(s[1..], p);
      assert s == [s[0]] + s[1..];
      if p(s[0]) then
        assert ([s[0]] + rest)[1..] == rest;
        [s[0]] + rest
      else
        assert rest != [] ==> rest[0] in rest && rest[0] != s[0];
        rest
  }

  /** Filtering keeps every occurrence of a selected element and none of
      the others. */
  lemma {:induction false} FilterMultiset<T(!new)>(s: seq<T>, p: T -> bool)
    ensures forall x :: multiset(Filter(s, p))[x] == if p(x) then multiset(s)[x] else 0
    decreases |s|
  {
    if s != [] {
      FilterMultiset(s[1..], p);
      assert s == [s[0]] + s[1..];
    }
  }

  /** Filtering distributes over concatenation: the kept elements keep the
      order they have in the input. */
  lemma {:induction false} FilterAppend<T(!new)>(a: seq<T>, b: seq<T>, p: T -> bool)
    ensures Filter(a + b, p) == Filter(a, p) + Filter(b, p)
    decreases |a|
  {
    if a == [] {
      assert a + b == b;
    } else {
      assert (a + b)[1..] == a[1..] + b;
      assert (a + b)[0] == a[0];
      FilterAppend(a[1..], b, p);
    }
  }

  /** Filtering a sequence whose first element is `x`. */
  lemma FilterCons<T(!new)>(x: T, s: seq<T>, p: T -> bool)
    ensures Filter([x] + s, p) == (if p(x) then [x] else []) + Filter(s, p)
  {
    assert ([x] + s)[1..] == s;
  }

  /** Two predicates that agree everywhere select the same subsequence. */
  lemma {:induction false} FilterCongruent<T(!new)>(s: seq<T>, p: T -> bool, q: T -> bool)
    requires forall x :: p(x) == q(x)
    ensures Filter(s, p) == Filter(s, q)
    decreases |s|
  {
    if s != [] {
      FilterCongruent(s[1..], p, q);
    }
  }

  /** A predicate that holds of every element keeps the whole sequence. */
  lemma {:induction false} FilterKeepsAll<T(!new)>(s: seq<T>, p: T -> bool)
    requires forall i :: 0 <= i < |s| ==> p(s[i])
    ensures Filter(s, p) == s
    decreases |s|
  {
    if s != [] {
      FilterKeepsAll(s[1..], p);
    }
  }

  /** `s.findIndex(p)`: the first index whose element satisfies `p`, or -1. */
  function FindIndex<T(!new)>(s: seq<T>, p: T -> bool): (k: int)
    ensures -1 <= k < |s|
    ensures k == -1 <==> forall i :: 0 <= i < |s| ==> !p(s[i])
    ensures 0 <= k ==> p(s[k]) && forall i :: 0 <= i < k ==> !p(s[i])
    decreases |s|
  {
    if s == [] then -1
    else if p(s[0]) then 0
    else
      var k := FindIndex(s[1..], p);
      if k == -1 then -1 else k + 1
  }

  /** Appending an element does not move the first match, and the
      appended element is the first match when nothing before it matches. */
  lemma {:induction false} FindIndexAppend<T(!new)>(s: seq<T>, x: T, p: T -> bool)
    ensures FindIndex(s + [x], p)
         == if FindIndex(s, p) >= 0 then FindIndex(s, p) else if p(x) then |s| else -1
    decreases |s|
  {
    if s != [] {
      assert (s + [x])[0] == s[0];
      assert (s + [x])[1..] == s[1..] + [x];
      FindIndexAppend(s[1..], x, p);
    } else {
      assert s + [x] == [x];
    }
  }

  /** `s.find(p)`: the first element that satisfies `p`, or nothing. */
  function Find<T(!new)>(s: seq<T>, p: T -> bool): (r: Option<T>)
    ensures r.None? <==> forall i :: 0 <= i < |s| ==> !p(s[i])
    ensures r.Some? ==> 0 <= FindIndex(s, p) && r.value == s[FindIndex(s, p)] && p(r.value)
  {
    var k := FindIndex(s, p);
    if k < 0 then None else Some(s[k])
  }

  /** Ascending order of `key`. */
  ghost predicate SortedBy<T(!new)>(s: seq<T>, key: T -> int) {
    forall i, j :: 0 <= i < j < |s| ==> key(s[i]) <= key(s[j])
  }

  /** The elements whose key is `k`, in order: the "ties" of a sort. */
  function WithKey<T(!new)>(s: seq<T>, key: T -> int, k: int): seq<T> {
    Filter(s, x => key(x) == k)
  }

  /** The ties of a sequence whose first element is `x`. */
  lemma WithKeyCons<T(!new)>(x: T, s: seq<T>, key: T -> int, k: int)
    ensures WithKey([x] + s, key, k) == (if key(x) == k then [x] else []) + WithKey(s, key, k)
  {
    assert ([x] + s)[1..] == s;
  }

  /** Inserts `x` before the first element whose key is not smaller, so
      that `x` precedes the elements it ties with. */
  function InsertBy<T(!new)>(x: T, s: seq<T>, key: T -> int): (r: seq<T>)
    ensures |r| == |s| + 1
    ensures multiset(r) == multiset(s) + multiset{x}
    decreases |s|
  {
    if s == [] then [x]
    else if key(x) <= key(s[0]) then [x] + s
    else
      assert s == [s[0]] + s[1..];
      [s[0]] + InsertBy(x, s[1..], key)
  }

  /** Inserting into an ascending sequence keeps it ascending. */
  lemma {:induction false} InsertBySorted<T(!new)>(x: T, s: seq<T>, key: T -> int)
    requires SortedBy(s, key)
    ensures SortedBy(InsertBy(x, s, key), key)
    decreases |s|
  {
    if s != [] && key(s[0]) < key(x) {
      var rest := InsertBy(x, s[1..], key);
      InsertBySorted(x, s[1..], key);
      forall j | 0 <= j < |rest| ensures key(s[0]) <= key(rest[j]) {
        assert rest[j] in multiset(rest);
        if rest[j] != x {
          assert rest[j] in multiset(s[1..]);
          var i :| 0 <= i < |s[1..]| && s[1..][i] == rest[j];
          assert s[i + 1] == rest[j];
        }
      }
    }
  }

  /** The inserted element comes first among the elements it ties with;
      the ties already present keep their order. */
  lemma {:induction false} InsertByTies<T(!new)>(x: T, s: seq<T>, key: T -> int, k: int)
    ensures WithKey(InsertBy(x, s, key), key, k) == (if key(x) == k then [x] else []) + WithKey(s, key, k)
    decreases |s|
  {
    if s == [] || key(x) <= key(s[0]) {
      WithKeyCons(x, s, key, k);
    } else {
      var s0, s1 := s[0], s[1..];
      var rest := InsertBy(x, s1, key);
      assert s == [s0] + s1;
      assert InsertBy(x, s, key) == [s0] + rest;
      InsertByTies(x, s1, key, k);
      WithKeyCons(s0, rest, key, k);
      WithKeyCons(s0, s1, key, k);
      TiesCommute(x, s0, WithKey(s1, key, k), key, k);
    }
  }

  /** Two elements with different keys never both belong to one tie group. */
  lemma TiesCommute<T(!new)>(x: T, y: T, t: seq<T>, key: T -> int, k: int)
    requires key(y) < key(x)
    ensures (if key(y) == k then [y] else []) + ((if key(x) == k then [x] else []) + t)
         == (if key(x) == k then [x] else []) + ((if key(y) == k then [y] else []) + t)
  {
  }

  /** The stable sort: ascending by `key`, a permutation of the input, and
      elements with equal keys stay in input order. */
  function SortBy<T(!new)>(s: seq<T>, key: T -> int): (r: seq<T>)
    ensures |r| == |s|
    ensures multiset(r) == multiset(s)
    ensures SortedBy(r, key)
    ensures forall k :: WithKey(r, key, k) == WithKey(s, key, k)
    decreases |s|
  {
    if s == [] then []
    else
      var rest := SortBy(s[1..], key);
      var r := InsertBy(s[0], rest, key);
      assert s == [s[0]] + s[1..];
      InsertBySorted(s[0], rest, key);
      forall k ensures WithKey(r, key, k) == WithKey(s, key, k) {
        InsertByTies(s[0], rest, key, k);
        WithKeyCons(s[0], s[1..], key, k);
      }
      r
  }

  /** Inserting an element whose key is at most that of the last element
      happens before the last element. */
  lemma {:induction false} InsertByBeforeLast<T(!new)>(y: T, t: seq<T>, x: T, key: T -> int)
    requires key(y) <= key(x)
    ensures InsertBy(y, t + [x], key) == InsertBy(y, t, key) + [x]
    decreases |t|
  {
    if t == [] {
      assert t + [x] == [x];
    } else {
      var t0, t1 := t[0], t[1..];
      assert t + [x] == [t0] + (t1 + [x]);
      if key(y) <= key(t0) {
        assert InsertBy(y, t, key) == [y] + t;
        assert InsertBy(y, t + [x], key) == [y] + (t + [x]);
      } else {
        InsertByBeforeLast(y, t1, x, key);
        assert InsertBy(y, t, key) == [t0] + InsertBy(y, t1, key);
        assert InsertBy(y, t + [x], key) == [t0] + InsertBy(y, t1 + [x], key);
      }
    }
  }

  /** Sorting a sequence whose last element has the largest key leaves that
      element last. */
  lemma {:induction false} SortByAppendLatest<T(!new)>(s: seq<T>, x: T, key: T -> int)
    requires forall i :: 0 <= i < |s| ==> key(s[i]) <= key(x)
    ensures SortBy(s + [x], key) == SortBy(s, key) + [x]
    decreases |s|
  {
    if s == [] {
      assert s + [x] == [x];
    } else {
      assert (s + [x])[0] == s[0];
      assert (s + [x])[1..] == s[1..] + [x];
      SortByAppendLatest(s[1..], x, key);
      InsertByBeforeLast(s[0], SortBy(s[1..], key), x, key);
    }
  }
}
