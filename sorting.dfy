/** Row-set operations the two mapper tables share: `WHERE` as a filter,
    `ORDER BY key DESC` as a stable insertion sort (rows with equal keys
    keep table order), and `LIMIT`/`OFFSET` as a page of the result. */
module Sorting {

  ghost predicate SortedDesc<T>(s: seq<T>, key: T -> int) {
    forall i, j :: 0 <= i < j < |s| ==> key(s[i]) >= key(s[j])
  }

  /** Puts `x` before the first element whose key is not larger. */
  function InsertDesc<T>(x: T, s: seq<T>, key: T -> int): (r: seq<T>)
    ensures |r| == |s| + 1
    ensures multiset(r) == multiset(s) + multiset{x}
  {
    if s == [] || key(s[0]) <= key(x) then [x] + s
    else
      assert s == [s[0]] + s[1..];
      [s[0]] + InsertDesc(x, s[1..], key)
  }

  /** Inserting never raises the largest key above that of `x` or of `s`. */
  lemma {:induction false} InsertDescBound<T>(x: T, s: seq<T>, key: T -> int, b: int)
    requires key(x) <= b
    requires forall k :: 0 <= k < |s| ==> key(s[k]) <= b
    ensures forall k :: 0 <= k < |s| + 1 ==> key(InsertDesc(x, s, key)[k]) <= b
    decreases |s|
  {
    if s != [] && key(s[0]) > key(x) {
      InsertDescBound(x, s[1..], key, b);
    }
  }

  lemma {:induction false} InsertDescSorted<T>(x: T, s: seq<T>, key: T -> int)
    requires SortedDesc(s, key)
    ensures SortedDesc(InsertDesc(x, s, key), key)
    decreases |s|
  {
    if s != [] && key(s[0]) > key(x) {
      InsertDescSorted(x, s[1..], key);
      InsertDescBound(x, s[1..], key, key(s[0]));
    }
  }

  /** `ORDER BY key DESC`: sorted, and a permutation of the input. */
  function SortDesc<T>(s: seq<T>, key: T -> int): (r: seq<T>)
    ensures SortedDesc(r, key)
    ensures multiset(r) == multiset(s)
    ensures |r| == |s|
  {
    if s == [] then []
    else
      assert s == [s[0]] + s[1..];
      var rest := SortDesc(s[1..], key);
      InsertDescSorted(s[0], rest, key);
      InsertDesc(s[0], rest, key)
  }

  /** `WHERE p`: the rows satisfying `p`, in table order. */
  function Where<T>(s: seq<T>, p: T -> bool): (r: seq<T>)
    ensures |r| <= |s|
    ensures forall x :: x in r ==> x in s && p(x)
    ensures forall x :: x in s && p(x) ==> x in r
  {
    if s == [] then []
    else (if p(s[0]) then [s[0]] else []) + Where(s[1..], p)
  }

  /** No element satisfies `p`: nothing is selected. */
  lemma {:induction false} WhereNone<T>(s: seq<T>, p: T -> bool)
    requires forall j :: 0 <= j < |s| ==> !p(s[j])
    ensures Where(s, p) == []
    decreases |s|
  {
    if s != [] {
      WhereNone(s[1..], p);
    }
  }

  /** Every element satisfies `p`: everything is selected. */
  lemma {:induction false} WhereAll<T>(s: seq<T>, p: T -> bool)
    requires forall j :: 0 <= j < |s| ==> p(s[j])
    ensures Where(s, p) == s
    decreases |s|
  {
    if s != [] {
      WhereAll(s[1..], p);
      assert [s[0]] + s[1..] == s;
    }
  }

  /** Exactly one element satisfies `p`: it alone is selected. */
  lemma {:induction false} WhereSingle<T>(s: seq<T>, p: T -> bool, i: nat)
    requires i < |s| && p(s[i])
    requires forall j :: 0 <= j < |s| && j != i ==> !p(s[j])
    ensures Where(s, p) == [s[i]]
    decreases |s|
  {
    if i == 0 {
      WhereNone(s[1..], p);
    } else {
      WhereSingle(s[1..], p, i - 1);
    }
  }

  /** Two selected elements come from two positions of the input. */
  lemma {:induction false} WhereTwo<T>(s: seq<T>, p: T -> bool) returns (i: nat, j: nat)
    requires |Where(s, p)| >= 2
    ensures i < j < |s| && p(s[i]) && p(s[j])
    decreases |s|
  {
    var rest := Where(s[1..], p);
    if p(s[0]) {
      assert Where(s, p) == [s[0]] + rest;
      assert rest[0] in rest;
      var k :| 0 <= k < |s[1..]| && s[1..][k] == rest[0];
      i, j := 0, k + 1;
    } else {
      assert Where(s, p) == rest;
      var i', j' := WhereTwo(s[1..], p);
      i, j := i' + 1, j' + 1;
    }
  }

  /** What a lookup needs to know about the selected elements: none means
      no element satisfies `p`, every satisfying element is selected, and
      two selected ones sit at two positions. */
  lemma WhereFacts<T>(s: seq<T>, p: T -> bool)
    ensures Where(s, p) == [] <==> forall i :: 0 <= i < |s| ==> !p(s[i])
    ensures forall i :: 0 <= i < |s| && p(s[i]) ==> s[i] in Where(s, p)
    ensures |Where(s, p)| >= 2 ==> exists i, j :: 0 <= i < j < |s| && p(s[i]) && p(s[j])
  {
    if |Where(s, p)| >= 2 {
      var i, j := WhereTwo(s, p);
    }
    forall i | 0 <= i < |s| && p(s[i])
      ensures s[i] in Where(s, p)
    {
      assert s[i] in s;
    }
    if Where(s, p) != [] {
      assert Where(s, p)[0] in s;
    }
  }

  /** The rows kept and the rows dropped add up to the input. */
  lemma {:induction false} WhereCount<T>(s: seq<T>, p: T -> bool, q: T -> bool)
    requires forall x :: q(x) <==> !p(x)
    ensures |Where(s, p)| + |Where(s, q)| == |s|
    decreases |s|
  {
    if s != [] {
      WhereCount(s[1..], p, q);
    }
  }

  ghost predicate Pairwise<T>(s: seq<T>, rel: (T, T) -> bool) {
    forall i, j :: 0 <= i < j < |s| ==> rel(s[i], s[j])
  }

  /** Selecting keeps a relation that held between every two elements. */
  lemma {:induction false} WherePairwise<T>(s: seq<T>, p: T -> bool, rel: (T, T) -> bool)
    requires Pairwise(s, rel)
    ensures Pairwise(Where(s, p), rel)
    decreases |s|
  {
    if s != [] {
      WherePairwise(s[1..], p, rel);
      var rest := Where(s[1..], p);
      if p(s[0]) {
        var r := Where(s, p);
        assert r == [s[0]] + rest;
        forall j | 0 < j < |r|
          ensures rel(s[0], r[j])
        {
          assert r[j] in s[1..];
          var k :| 0 <= k < |s[1..]| && s[1..][k] == r[j];
          assert s[k + 1] == r[j];
        }
      }
    }
  }

  /** `LIMIT limit OFFSET offset`. */
  function Page<T>(s: seq<T>, offset: nat, limit: nat): (r: seq<T>)
    ensures |r| <= limit
    ensures offset <= |s| ==> |r| == if |s| - offset < limit then |s| - offset else limit
    ensures offset >= |s| ==> r == []
    ensures forall k :: 0 <= k < |r| ==> r[k] == s[offset + k]
  {
    var rest := if offset <= |s| then s[offset..] else [];
    if |rest| <= limit then rest else rest[..limit]
  }

  /** A page holds elements of the sequence, none more often than there. */
  lemma PageSubMultiset<T>(s: seq<T>, offset: nat, limit: nat)
    ensures multiset(Page(s, offset, limit)) <= multiset(s)
  {
    if offset <= |s| {
      var rest := s[offset..];
      assert s == s[..offset] + rest;
      if limit < |rest| {
        assert rest == rest[..limit] + rest[limit..];
      }
    }
  }

  /** The first page of a sorted sequence holds its largest keys: every
      element left out is no larger than every element kept. */
  lemma FirstPageIsTop<T>(s: seq<T>, limit: nat, key: T -> int)
    requires SortedDesc(s, key)
    ensures forall x, y :: x in Page(s, 0, limit) && y in s && y !in Page(s, 0, limit) ==> key(x) >= key(y)
  {
    var r := Page(s, 0, limit);
    forall k | 0 <= k < |r|
      ensures s[k] in r
    {
      assert r[k] == s[k];
    }
    forall x, y | x in r && y in s && y !in r
      ensures key(x) >= key(y)
    {
      var i :| 0 <= i < |r| && r[i] == x;
      var j :| 0 <= j < |s| && s[j] == y;
      assert r[i] == s[i];
    }
  }

  /** A page of a sorted sequence is sorted. */
  lemma PageSorted<T>(s: seq<T>, offset: nat, limit: nat, key: T -> int)
    requires SortedDesc(s, key)
    ensures SortedDesc(Page(s, offset, limit), key)
  {
    var r := Page(s, offset, limit);
    forall i, j | 0 <= i < j < |r|
      ensures key(r[i]) >= key(r[j])
    {
      assert r[i] == s[offset + i] && r[j] == s[offset + j];
    }
  }
}
