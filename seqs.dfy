/** The collection operations behind the store's queries and the device list: `filter`,
    `findFirst`, and ordering by a numeric key, newest first (`orderBy: { key: "desc" }`). */
module Seqs {
  import opened Common

  /** `s.filter(p)`. */
  function Filter<T>(s: seq<T>, p: T -> bool): (r: seq<T>)
    ensures |r| <= |s|
    ensures forall i :: 0 <= i < |r| ==> p(r[i]) && r[i] in s
  {
    if s == [] then []
    else if p(s[|s| - 1]) then Filter(s[..|s| - 1], p) + [s[|s| - 1]]
    else Filter(s[..|s| - 1], p)
  }

  /** An element is kept exactly when it is in `s` and passes `p`. */
  lemma {:induction false} FilterMembership<T>(s: seq<T>, p: T -> bool, x: T)
    ensures x in Filter(s, p) <==> x in s && p(x)
  {
    if s != [] {
      FilterMembership(s[..|s| - 1], p, x);
      assert s == s[..|s| - 1] + [s[|s| - 1]];
    }
  }

  /** `r` is `s` with some elements dropped, the rest in their original order. */
  ghost predicate Subsequence<T>(r: seq<T>, s: seq<T>) {
    exists idx: seq<nat> ::
      |idx| == |r| &&
      (forall k :: 0 <= k < |idx| ==> idx[k] < |s| && s[idx[k]] == r[k]) &&
      (forall k, l :: 0 <= k < l < |idx| ==> idx[k] < idx[l])
  }

  /** Appending an element to the larger sequence keeps the relation, with or without
      appending it to the smaller one too. */
  lemma SubsequenceExtend<T>(r: seq<T>, s: seq<T>, x: T)
    requires Subsequence(r, s)
    ensures Subsequence(r + [x], s + [x]) && Subsequence(r, s + [x])
  {
    var idx: seq<nat> :|
      |idx| == |r| &&
      (forall k :: 0 <= k < |idx| ==> idx[k] < |s| && s[idx[k]] == r[k]) &&
      (forall k, l :: 0 <= k < l < |idx| ==> idx[k] < idx[l]);
    var t := s + [x];
    assert forall k :: 0 <= k < |idx| ==> idx[k] < |t| && t[idx[k]] == r[k];
    var idx1 := idx + [|s|];
    assert forall k :: 0 <= k < |idx1| ==> idx1[k] < |t| && t[idx1[k]] == (r + [x])[k];
    assert forall k, l :: 0 <= k < l < |idx1| ==> idx1[k] < idx1[l];
  }

  /** The filter keeps the order of the elements it keeps. */
  lemma {:induction false} FilterIsSubsequence<T>(s: seq<T>, p: T -> bool)
    ensures Subsequence(Filter(s, p), s)
  {
    if s == [] {
      var idx: seq<nat> := [];
      assert |idx| == |Filter(s, p)|;
    } else {
      var init, last := s[..|s| - 1], s[|s| - 1];
      FilterIsSubsequence(init, p);
      SubsequenceExtend(Filter(init, p), init, last);
      assert s == init + [last];
    }
  }

  /** A predicate true of every element keeps everything. */
  lemma {:induction false} FilterAll<T>(s: seq<T>, p: T -> bool)
    requires forall i :: 0 <= i < |s| ==> p(s[i])
    ensures Filter(s, p) == s
  {
    if s != [] {
      FilterAll(s[..|s| - 1], p);
      assert s == s[..|s| - 1] + [s[|s| - 1]];
    }
  }

  /** Filtering depends only on what the predicate answers on the elements. */
  lemma {:induction false} FilterCongruent<T>(s: seq<T>, p: T -> bool, q: T -> bool)
    requires forall i :: 0 <= i < |s| ==> p(s[i]) == q(s[i])
    ensures Filter(s, p) == Filter(s, q)
  {
    if s != [] {
      FilterCongruent(s[..|s| - 1], p, q);
    }
  }

  /** Filtering is counted element by element: as a multiset, the result is the part of
      `s` that passes `p`. */
  lemma {:induction false} FilterMultiset<T>(s: seq<T>, p: T -> bool, x: T)
    ensures multiset(Filter(s, p))[x] == if p(x) then multiset(s)[x] else 0
  {
    if s != [] {
      FilterMultiset(s[..|s| - 1], p, x);
      assert s == s[..|s| - 1] + [s[|s| - 1]];
    }
  }

  /** Two predicates that never hold together split a sequence into disjoint parts. */
  lemma FilterDisjoint<T>(s: seq<T>, p: T -> bool, q: T -> bool)
    requires forall i :: 0 <= i < |s| ==> !(p(s[i]) && q(s[i]))
    ensures forall x :: x in Filter(s, p) ==> x !in Filter(s, q)
  {
    forall x | x in Filter(s, p) ensures x !in Filter(s, q) {
      FilterMembership(s, p, x);
      FilterMembership(s, q, x);
    }
  }

  /** Filtering, then ordering by `key`: as a multiset the result is the part of `s` that
      passes `p`, and each of its elements passes `p` and comes from `s`. */
  lemma SortedFilter<T>(s: seq<T>, p: T -> bool, key: T -> int)
    ensures var r := SortDesc(Filter(s, p), key);
      (forall x :: multiset(r)[x] == if p(x) then multiset(s)[x] else 0) &&
      (forall k :: 0 <= k < |r| ==> r[k] in s && p(r[k]))
  {
    var f := Filter(s, p);
    var r := SortDesc(f, key);
    forall x ensures multiset(r)[x] == if p(x) then multiset(s)[x] else 0 {
      FilterMultiset(s, p, x);
    }
    forall k | 0 <= k < |r| ensures r[k] in s && p(r[k]) {
      assert r[k] in multiset(r);
      assert r[k] in f;
    }
  }

  /** `s.find(p)`: the first element passing `p`, if any. */
  function FindFirst<T>(s: seq<T>, p: T -> bool): (r: Option<T>)
    ensures r.Some? ==> p(r.value) && r.value in s
    ensures r.None? ==> forall i :: 0 <= i < |s| ==> !p(s[i])
    ensures r.Some? ==> exists i :: 0 <= i < |s| && s[i] == r.value && forall j :: 0 <= j < i ==> !p(s[j])
  {
    if s == [] then None
    else if p(s[0]) then Some(s[0])
    else
      var r := FindFirst(s[1..], p);
      assert r.Some? ==> exists i :: 0 < i < |s| && s[i] == r.value && forall j :: 0 <= j < i ==> !p(s[j]) by {
        if r.Some? {
          var i :| 0 <= i < |s[1..]| && s[1..][i] == r.value && forall j :: 0 <= j < i ==> !p(s[1..][j]);
          assert s[i + 1] == r.value;
          assert forall j :: 0 <= j < i + 1 ==> !p(s[j]) by {
            forall j | 0 <= j < i + 1 ensures !p(s[j]) {
              if j > 0 { assert s[j] == s[1..][j - 1]; }
            }
          }
        }
      }
      r
  }

  /** The elements of `s` are in non-increasing order of `key`. */
  predicate SortedDesc<T>(s: seq<T>, key: T -> int) {
    forall i, j :: 0 <= i < j < |s| ==> key(s[i]) >= key(s[j])
  }

  /** Puts `x` in front of the first element of `s` whose key is not larger. */
  function Insert<T(==)>(x: T, s: seq<T>, key: T -> int): (r: seq<T>)
    ensures multiset(r) == multiset(s) + multiset{x}
    ensures |r| == |s| + 1
    ensures r[0] == x || (s != [] && r[0] == s[0])
  {
    if s == [] || key(x) >= key(s[0]) then [x] + s
    else
      var t := Insert(x, s[1..], key);
      assert s == [s[0]] + s[1..];
      [s[0]] + t
  }

  /** Inserting into a sorted sequence keeps it sorted. */
  lemma {:induction false} InsertSorted<T>(x: T, s: seq<T>, key: T -> int)
    requires SortedDesc(s, key)
    ensures SortedDesc(Insert(x, s, key), key)
  {
    if s != [] && key(x) < key(s[0]) {
      var t := Insert(x, s[1..], key);
      InsertSorted(x, s[1..], key);
      var r := [s[0]] + t;
      assert r == Insert(x, s, key);
      assert key(t[0]) <= key(s[0]);
      forall i, j | 0 <= i < j < |r| ensures key(r[i]) >= key(r[j]) {
        if i > 0 {
          assert r[i] == t[i - 1] && r[j] == t[j - 1];
        } else {
          assert r[j] == t[j - 1];
          assert key(t[j - 1]) <= key(t[0]) || j - 1 == 0;
        }
      }
    }
  }

  /** Orders `s` newest first by `key`, as `orderBy: { key: "desc" }` does. */
  function SortDesc<T(==)>(s: seq<T>, key: T -> int): (r: seq<T>)
    ensures SortedDesc(r, key)
    ensures multiset(r) == multiset(s)
    ensures |r| == |s|
  {
    if s == [] then []
    else
      assert s == [s[0]] + s[1..];
      InsertSorted(s[0], SortDesc(s[1..], key), key);
      Insert(s[0], SortDesc(s[1..], key), key)
  }

  /** The sorted sequence holds exactly the elements of `s`. */
  lemma SortDescMembership<T>(s: seq<T>, key: T -> int, x: T)
    ensures x in SortDesc(s, key) <==> x in s
  {
    assert x in SortDesc(s, key) <==> x in multiset(SortDesc(s, key));
    assert x in s <==> x in multiset(s);
  }

  /** The first `n` elements (`take: n`). */
  function Take<T>(s: seq<T>, n: nat): (r: seq<T>)
    ensures |r| == if |s| < n then |s| else n
    ensures r <= s
  {
    if |s| <= n then s else s[..n]
  }
}
