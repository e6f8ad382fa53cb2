/**
 * The array methods the application uses on its tables, as functions on sequences:
 * `filter`, `find`, `findIndex`, `some`, and the stable `sort` with a numeric
 * comparator `(a, b) => key(a) - key(b)`.
 */
module Seqs {
  import opened Wrappers

  /** `r` is `s` with some elements removed and the rest kept in order. */
  ghost predicate IsSubseq<T>(r: seq<T>, s: seq<T>)
    decreases |s|
  {
    r == [] || (s != [] && ((r[0] == s[0] && IsSubseq(r[1..], s[1..])) || IsSubseq(r, s[1..])))
  }

  /** Every sequence is a subsequence of itself. */
  lemma {:induction false} SubseqRefl<T>(s: seq<T>)
    ensures IsSubseq(s, s)
  {
    if s != [] {
      SubseqRefl(s[1..]);
    }
  }

  /** Number of elements of `s` that satisfy `p`. */
  function Count<T>(s: seq<T>, p: T -> bool): nat {
    if s == [] then 0 else (if p(s[0]) then 1 else 0) + Count(s[1..], p)
  }

  /** `s.filter(p)`: exactly the elements that satisfy `p`, in their original order. */
  function Filter<T>(s: seq<T>, p: T -> bool): (r: seq<T>)
    ensures IsSubseq(r, s)
    ensures forall i :: 0 <= i < |r| ==> r[i] in s && p(r[i])
    ensures forall i :: 0 <= i < |s| && p(s[i]) ==> s[i] in r
    ensures |r| == Count(s, p) <= |s|
  {
    if s == [] then []
    else if p(s[0]) then
      var rest := Filter(s[1..], p);
      assert ([s[0]] + rest)[1..] == rest;
      [s[0]] + rest
    else Filter(s[1..], p)
  }

  /** A filter that every element passes returns the whole sequence. */
  lemma {:induction false} FilterAllPass<T>(s: seq<T>, p: T -> bool)
    requires forall i :: 0 <= i < |s| ==> p(s[i])
    ensures Filter(s, p) == s
  {
    if s != [] {
      assert p(s[0]);
      FilterAllPass(s[1..], p);
    }
  }

  /** Filters with predicates that agree on every element give the same result. */
  lemma {:induction false} FilterCongruent<T>(s: seq<T>, p: T -> bool, q: T -> bool)
    requires forall i :: 0 <= i < |s| ==> p(s[i]) == q(s[i])
    ensures Filter(s, p) == Filter(s, q)
  {
    if s != [] {
      assert p(s[0]) == q(s[0]);
      FilterCongruent(s[1..], p, q);
    }
  }

  /** Filtering by `p` and then by `q` is filtering once by their conjunction `pq`. */
  lemma {:induction false} FilterFilter<T>(s: seq<T>, p: T -> bool, q: T -> bool, pq: T -> bool)
    requires forall i :: 0 <= i < |s| ==> pq(s[i]) == (p(s[i]) && q(s[i]))
    ensures Filter(Filter(s, p), q) == Filter(s, pq)
  {
    if s != [] {
      assert pq(s[0]) == (p(s[0]) && q(s[0]));
      FilterFilter(s[1..], p, q, pq);
      if p(s[0]) {
        var rest := Filter(s[1..], p);
        assert Filter(s, p) == [s[0]] + rest;
        assert ([s[0]] + rest)[1..] == rest;
      }
    }
  }

  /** `s.findIndex(p)`: the position of the first element satisfying `p`, or -1. */
  function FindIndex<T>(s: seq<T>, p: T -> bool): (r: int)
    ensures -1 <= r < |s|
    ensures r == -1 <==> forall i :: 0 <= i < |s| ==> !p(s[i])
    ensures r >= 0 ==> p(s[r]) && forall i :: 0 <= i < r ==> !p(s[i])
  {
    if s == [] then -1
    else if p(s[0]) then 0
    else
      var k := FindIndex(s[1..], p);
      if k < 0 then -1 else k + 1
  }

  /** `s.find(p)`: the first element satisfying `p`, or nothing. */
  function Find<T>(s: seq<T>, p: T -> bool): (r: Option<T>)
    ensures r.None? <==> forall i :: 0 <= i < |s| ==> !p(s[i])
    ensures r.Some? ==> exists i :: 0 <= i < |s| && s[i] == r.value && p(s[i]) && IsFirst(s, p, i)
  {
    var k := FindIndex(s, p);
    if k < 0 then None else Some(s[k])
  }

  /** No element before position `i` satisfies `p`. */
  ghost predicate IsFirst<T>(s: seq<T>, p: T -> bool, i: int)
    requires 0 <= i <= |s|
  {
    forall j :: 0 <= j < i ==> !p(s[j])
  }

  /** `s.some(p)`. */
  predicate Any<T>(s: seq<T>, p: T -> bool) {
    exists i :: 0 <= i < |s| && p(s[i])
  }

  /** Non-decreasing by `key`. */
  ghost predicate SortedBy<T>(s: seq<T>, key: T -> int) {
    forall i, j :: 0 <= i < j < |s| ==> key(s[i]) <= key(s[j])
  }

  /** A prefix of a sorted sequence is sorted. */
  lemma {:induction false} PrefixSorted<T>(s: seq<T>, key: T -> int, k: nat)
    requires SortedBy(s, key) && k <= |s|
    ensures SortedBy(s[..k], key)
  {
    assert forall i :: 0 <= i < k ==> s[..k][i] == s[i];
  }

  /** Places `x` in front of the first element of `s` whose key is not smaller. */
  function Insert<T>(x: T, s: seq<T>, key: T -> int): (r: seq<T>)
    requires SortedBy(s, key)
    ensures SortedBy(r, key)
    ensures multiset(r) == multiset(s) + multiset{x}
    ensures |r| == |s| + 1
    ensures r[0] == x || (s != [] && r[0] == s[0])
  {
    if s == [] then [x]
    else if key(x) <= key(s[0]) then [x] + s
    else
      var rest := Insert(x, s[1..], key);
      InsertBehindHead(x, s, rest, key);
      [s[0]] + rest
  }

  /** Inserting behind a smaller head: the head followed by the insertion into the tail. */
  lemma {:induction false} InsertBehindHead<T>(x: T, s: seq<T>, rest: seq<T>, key: T -> int)
    requires s != [] && SortedBy(s, key) && key(s[0]) < key(x)
    requires SortedBy(rest, key) && multiset(rest) == multiset(s[1..]) + multiset{x}
    requires rest != [] && (rest[0] == x || (|s| > 1 && rest[0] == s[1]))
    ensures SortedBy([s[0]] + rest, key)
    ensures multiset([s[0]] + rest) == multiset(s) + multiset{x}
  {
    assert s == [s[0]] + s[1..];
    ConsSorted(s[0], rest, key);
  }

  /** Putting an element no larger than the head in front keeps a sequence sorted. */
  lemma {:induction false} ConsSorted<T>(h: T, r: seq<T>, key: T -> int)
    requires SortedBy(r, key) && (r != [] ==> key(h) <= key(r[0]))
    ensures SortedBy([h] + r, key)
  {
    var t := [h] + r;
    forall i, j | 0 <= i < j < |t|
      ensures key(t[i]) <= key(t[j])
    {
      if i > 0 {
        assert t[i] == r[i - 1] && t[j] == r[j - 1];
      } else {
        assert t[j] == r[j - 1];
      }
    }
  }

  /** `[...s].sort((a, b) => key(a) - key(b))`: JavaScript's sort is stable, modelled as insertion sort. */
  function SortBy<T>(s: seq<T>, key: T -> int): (r: seq<T>)
    ensures SortedBy(r, key)
    ensures multiset(r) == multiset(s)
    ensures |r| == |s|
  {
    if s == [] then []
    else
      assert s == [s[0]] + s[1..];
      Insert(s[0], SortBy(s[1..], key), key)
  }

  /** Sorting a list that is already in key order returns it unchanged. */
  lemma {:induction false} SortBySorted<T>(s: seq<T>, key: T -> int)
    requires SortedBy(s, key)
    ensures SortBy(s, key) == s
  {
    if s != [] {
      assert SortedBy(s[1..], key);
      SortBySorted(s[1..], key);
      var t := SortBy(s[1..], key);
      if t != [] {
        assert key(s[0]) <= key(t[0]);
      }
    }
  }

  /** Sorting twice is sorting once. */
  lemma {:induction false} SortByIdempotent<T>(s: seq<T>, key: T -> int)
    ensures SortBy(SortBy(s, key), key) == SortBy(s, key)
  {
    SortBySorted(SortBy(s, key), key);
  }

  /** The elements whose key is `k`. */
  function SameKey<T>(key: T -> int, k: int): T -> bool {
    (y: T) => key(y) == k
  }

  /** Filtering a list with a head: the head, when it passes, in front of the filtered tail. */
  lemma {:induction false} FilterCons<T>(h: T, t: seq<T>, p: T -> bool)
    ensures Filter([h] + t, p) == if p(h) then [h] + Filter(t, p) else Filter(t, p)
  {
    assert ([h] + t)[1..] == t;
  }

  /** Inserting into a sorted list puts `x` in front of every element with its key. */
  lemma {:induction false} FilterInsert<T>(x: T, t: seq<T>, key: T -> int, k: int)
    requires SortedBy(t, key)
    ensures Filter(Insert(x, t, key), SameKey(key, k)) ==
      if key(x) == k then [x] + Filter(t, SameKey(key, k)) else Filter(t, SameKey(key, k))
  {
    var p := SameKey(key, k);
    if t == [] {
      FilterCons(x, [], p);
    } else if key(x) <= key(t[0]) {
      FilterCons(x, t, p);
      if key(x) == k {
        FilterCons(t[0], t[1..], p);
        assert t == [t[0]] + t[1..];
      }
    } else {
      assert SortedBy(t[1..], key);
      var rest := Insert(x, t[1..], key);
      FilterInsert(x, t[1..], key, k);
      FilterCons(t[0], rest, p);
      FilterCons(t[0], t[1..], p);
      assert t == [t[0]] + t[1..];
    }
  }

  /** The sort is stable: the elements of any one key keep their input order. */
  lemma {:induction false} SortByStable<T>(s: seq<T>, key: T -> int, k: int)
    ensures Filter(SortBy(s, key), SameKey(key, k)) == Filter(s, SameKey(key, k))
  {
    if s != [] {
      SortByStable(s[1..], key, k);
      FilterInsert(s[0], SortBy(s[1..], key), key, k);
      FilterCons(s[0], s[1..], SameKey(key, k));
      assert s == [s[0]] + s[1..];
    }
  }

  /**
   * The first `k` elements of a key-sorted permutation of `s` are `k` elements of `s`
   * with keys no larger than those of every element left out.
   */
  lemma {:induction false} SortedPrefixIsSmallest<T>(s: seq<T>, key: T -> int, k: nat)
    requires k <= |s|
    ensures var r := SortBy(s, key)[..k];
      multiset(r) <= multiset(s) &&
      (forall x, y :: x in r && y in multiset(s) - multiset(r) ==> key(x) <= key(y))
  {
    var t := SortBy(s, key);
    SplitMultiset(t, k);
    SortedSplit(t, key, k);
  }

  /** Cutting a sequence splits its multiset. */
  lemma {:induction false} SplitMultiset<T>(t: seq<T>, k: nat)
    requires k <= |t|
    ensures multiset(t[..k]) <= multiset(t)
    ensures multiset(t) - multiset(t[..k]) == multiset(t[k..])
  {
    assert t == t[..k] + t[k..];
  }

  /** In a key-sorted sequence, nothing before a cut has a larger key than anything after it. */
  lemma {:induction false} SortedSplit<T>(t: seq<T>, key: T -> int, k: nat)
    requires SortedBy(t, key) && k <= |t|
    ensures forall x, y :: x in t[..k] && y in t[k..] ==> key(x) <= key(y)
  {
    forall x, y | x in t[..k] && y in t[k..]
      ensures key(x) <= key(y)
    {
      var i :| 0 <= i < k && t[..k][i] == x;
      var j :| 0 <= j < |t[k..]| && t[k..][j] == y;
      assert t[i] == x && t[k + j] == y;
    }
  }
}
