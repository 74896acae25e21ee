/** The array operations the pipelines rely on: removing repeats while keeping first
    occurrences, filtering, and the stable sort of `Array.prototype.sort`. */
module Lists {

  predicate Distinct<T(==)>(s: seq<T>) {
    forall i, j :: 0 <= i < j < |s| ==> s[i] != s[j]
  }

  /** The index of the first occurrence of `x` in `s` (`indexOf`). */
  function FirstIndex<T(==)>(s: seq<T>, x: T): (k: nat)
    requires x in s
    ensures k < |s| && s[k] == x && x !in s[..k]
  {
    if s[0] == x then 0 else 1 + FirstIndex(s[1..], x)
  }

  /** `s` without repeats, each value at its first occurrence
      (`s.filter((v, i) => s.indexOf(v) === i)`, or `Array.from(new Set(s))`). */
  function Dedupe<T(==,!new)>(s: seq<T>): (r: seq<T>)
    ensures forall x :: x in r <==> x in s
    ensures Distinct(r)
  {
    if s == [] then []
    else
      var front := Dedupe(s[..|s| - 1]);
      if s[|s| - 1] in s[..|s| - 1] then front else front + [s[|s| - 1]]
  }

  /** A value already present before the last position is first found there. */
  lemma FirstIndexOfPrefix<T>(s: seq<T>, x: T)
    requires |s| > 0 && x in s[..|s| - 1]
    ensures FirstIndex(s, x) == FirstIndex(s[..|s| - 1], x)
  {
    var p := s[..|s| - 1];
    var k := FirstIndex(p, x);
    forall j | 0 <= j < k
      ensures s[j] != x
    {
      assert p[..k][j] == s[j];
    }
  }

  /** `Dedupe` lists the values of `s` in the order of their first occurrences. */
  lemma {:induction false} DedupeKeepsFirstOrder<T(!new)>(s: seq<T>)
    ensures forall i, j :: 0 <= i < j < |Dedupe(s)| ==>
      FirstIndex(s, Dedupe(s)[i]) < FirstIndex(s, Dedupe(s)[j])
  {
    if s != [] {
      var p := s[..|s| - 1];
      var x := s[|s| - 1];
      DedupeKeepsFirstOrder(p);
      var r := Dedupe(s);
      var front := Dedupe(p);
      forall i | 0 <= i < |front|
        ensures FirstIndex(s, front[i]) == FirstIndex(p, front[i])
      {
        FirstIndexOfPrefix(s, front[i]);
      }
      forall i, j | 0 <= i < j < |r|
        ensures FirstIndex(s, r[i]) < FirstIndex(s, r[j])
      {
        assert r[i] == front[i];
        assert FirstIndex(s, front[i]) == FirstIndex(p, front[i]) < |p|;
        if j < |front| {
          assert r[j] == front[j];
        } else {
          assert r == front + [x] && r[j] == x;
        }
      }
    }
  }

  /** The values of `s` that satisfy `keep`, in order (`filter`). */
  function Filter<T>(s: seq<T>, keep: T -> bool): (r: seq<T>)
    ensures |r| <= |s|
    ensures forall i :: 0 <= i < |r| ==> keep(r[i])
    ensures multiset(r) <= multiset(s)
  {
    if s == [] then []
    else
      var front := Filter(s[..|s| - 1], keep);
      assert s == s[..|s| - 1] + [s[|s| - 1]];
      if keep(s[|s| - 1]) then front + [s[|s| - 1]] else front
  }

  /** Every value of `s` that satisfies `keep` survives the filter. */
  lemma {:induction false} FilterKeepsAll<T>(s: seq<T>, keep: T -> bool)
    ensures forall x :: x in s && keep(x) ==> x in Filter(s, keep)
  {
    if s != [] {
      FilterKeepsAll(s[..|s| - 1], keep);
      assert s == s[..|s| - 1] + [s[|s| - 1]];
    }
  }

  /** The concatenation of `f` over `s`, in order (a `forEach` that appends to one list). */
  function FlatMap<T, U>(s: seq<T>, f: T -> seq<U>): seq<U> {
    if s == [] then [] else FlatMap(s[..|s| - 1], f) + f(s[|s| - 1])
  }

  /** A value is in the concatenation exactly when one of the parts holds it. */
  lemma {:induction false} FlatMapMembership<T, U>(s: seq<T>, f: T -> seq<U>)
    ensures forall x :: x in FlatMap(s, f) <==> exists i :: 0 <= i < |s| && x in f(s[i])
  {
    if s != [] {
      var front := s[..|s| - 1];
      FlatMapMembership(front, f);
      forall x ensures x in FlatMap(s, f) <==> exists i :: 0 <= i < |s| && x in f(s[i]) {
        if exists i :: 0 <= i < |s| && x in f(s[i]) {
          var i :| 0 <= i < |s| && x in f(s[i]);
          if i < |front| {
            assert front[i] == s[i];
          }
        }
        if x in FlatMap(front, f) {
          var i :| 0 <= i < |front| && x in f(front[i]);
          assert s[i] == front[i];
        }
      }
    }
  }

  /** A value survives the filter exactly when it is in `s` and satisfies `keep`. */
  lemma FilterMembers<T>(s: seq<T>, keep: T -> bool, x: T)
    ensures x in Filter(s, keep) <==> x in s && keep(x)
  {
    FilterKeepsAll(s, keep);
    if x in Filter(s, keep) {
      assert x in multiset(Filter(s, keep));
    }
  }

  predicate SortedBy<T>(s: seq<T>, key: T -> int) {
    forall i, j :: 0 <= i < j < |s| ==> key(s[i]) <= key(s[j])
  }

  /** `x` placed after every value of the sorted `s` whose key is at most its own. */
  function InsertBy<T>(s: seq<T>, x: T, key: T -> int): (r: seq<T>)
    requires SortedBy(s, key)
    ensures SortedBy(r, key)
    ensures multiset(r) == multiset(s) + multiset{x}
    decreases |s|, 0
  {
    if s == [] || key(s[|s| - 1]) <= key(x) then s + [x]
    else
      var front := s[..|s| - 1];
      assert s == front + [s[|s| - 1]];
      InsertByBounded(front, x, key, key(s[|s| - 1]));
      InsertBy(front, x, key) + [s[|s| - 1]]
  }

  /** Inserting keeps every key under a bound that the list and `x` respect. */
  lemma {:induction false} InsertByBounded<T>(s: seq<T>, x: T, key: T -> int, bound: int)
    requires SortedBy(s, key)
    requires forall i :: 0 <= i < |s| ==> key(s[i]) <= bound
    requires key(x) <= bound
    ensures forall i :: 0 <= i < |InsertBy(s, x, key)| ==> key(InsertBy(s, x, key)[i]) <= bound
    decreases |s|, 1
  {
    if s != [] && key(s[|s| - 1]) > key(x) {
      InsertByBounded(s[..|s| - 1], x, key, bound);
    }
  }

  /** The stable sort of `s` by `key`: insertion in order of the input. */
  function SortBy<T>(s: seq<T>, key: T -> int): (r: seq<T>)
    ensures SortedBy(r, key)
    ensures multiset(r) == multiset(s)
  {
    if s == [] then []
    else
      assert s == s[..|s| - 1] + [s[|s| - 1]];
      InsertBy(SortBy(s[..|s| - 1], key), s[|s| - 1], key)
  }

  /** Sorting neither adds nor loses a value. */
  lemma SortByMembers<T>(s: seq<T>, key: T -> int, x: T)
    ensures x in SortBy(s, key) <==> x in s
  {
    assert x in SortBy(s, key) <==> x in multiset(SortBy(s, key));
  }

  function Identity(x: int): int { x }

  /** A list in ascending order without repeats is strictly ascending. */
  lemma SortedDistinctAscending(s: seq<int>)
    requires SortedBy(s, Identity) && Distinct(s)
    ensures forall i, j :: 0 <= i < j < |s| ==> s[i] < s[j]
  {
  }
}
