/** The stable sort of the JavaScript runtime (`Array.prototype.sort` with a
    numeric comparator, stable since ECMAScript 2019), written as an insertion
    sort on an integer key. A stable sort's output is determined by its input,
    so this is an exact model of the runtime's result, not one admissible
    ordering among several. */
module Sorting {

  predicate SortedByKey<T>(s: seq<T>, key: T -> int)
  {
    forall i, j :: 0 <= i < j < |s| ==> key(s[i]) <= key(s[j])
  }

  /** Places `x` after every element of `t` whose key is at most `key(x)`. */
  function InsertByKey<T>(t: seq<T>, x: T, key: T -> int): (r: seq<T>)
    ensures |r| == |t| + 1
  {
    if t == [] || key(t[|t| - 1]) <= key(x) then t + [x]
    else InsertByKey(t[..|t| - 1], x, key) + [t[|t| - 1]]
  }

  /** Sorts ascending by `key`; elements with equal keys keep their input order. */
  function SortByKey<T>(s: seq<T>, key: T -> int): (r: seq<T>)
    ensures |r| == |s|
  {
    if s == [] then [] else InsertByKey(SortByKey(s[..|s| - 1], key), s[|s| - 1], key)
  }

  lemma {:induction false} InsertPermutes<T>(t: seq<T>, x: T, key: T -> int)
    ensures multiset(InsertByKey(t, x, key)) == multiset(t) + multiset{x}
  {
    if t != [] && key(t[|t| - 1]) > key(x) {
      InsertPermutes(t[..|t| - 1], x, key);
      assert t == t[..|t| - 1] + [t[|t| - 1]];
    }
  }

  /** The sorted sequence is a permutation of its input. */
  lemma {:induction false} SortPermutes<T>(s: seq<T>, key: T -> int)
    ensures multiset(SortByKey(s, key)) == multiset(s)
  {
    if s != [] {
      SortPermutes(s[..|s| - 1], key);
      InsertPermutes(SortByKey(s[..|s| - 1], key), s[|s| - 1], key);
      assert s == s[..|s| - 1] + [s[|s| - 1]];
    }
  }

  lemma {:induction false} InsertSorted<T>(t: seq<T>, x: T, key: T -> int)
    requires SortedByKey(t, key)
    ensures SortedByKey(InsertByKey(t, x, key), key)
  {
    if t != [] && key(t[|t| - 1]) > key(x) {
      var n := |t| - 1;
      var u := InsertByKey(t[..n], x, key);
      InsertSorted(t[..n], x, key);
      InsertPermutes(t[..n], x, key);
      forall i | 0 <= i < |u|
        ensures key(u[i]) <= key(t[n])
      {
        assert u[i] in multiset(u);
        if u[i] != x {
          assert u[i] in multiset(t[..n]);
          var j :| 0 <= j < n && t[..n][j] == u[i];
          assert t[j] == u[i];
        }
      }
    }
  }

  /** The sorted sequence is ordered by key. */
  lemma {:induction false} SortSorted<T>(s: seq<T>, key: T -> int)
    ensures SortedByKey(SortByKey(s, key), key)
  {
    if s != [] {
      SortSorted(s[..|s| - 1], key);
      InsertSorted(SortByKey(s[..|s| - 1], key), s[|s| - 1], key);
    }
  }

  /** The index of the last element, in input order, among those with the largest key. */
  function LastMaxIndex<T>(s: seq<T>, key: T -> int): (k: nat)
    requires |s| > 0
    ensures k < |s|
    ensures forall j :: 0 <= j < |s| ==> key(s[j]) <= key(s[k])
    ensures forall j :: k < j < |s| ==> key(s[j]) < key(s[k])
  {
    if |s| == 1 then 0
    else
      var k := LastMaxIndex(s[..|s| - 1], key);
      if key(s[k]) <= key(s[|s| - 1]) then |s| - 1 else k
  }

  /** After a stable sort the last element is the last-listed one of largest key. */
  lemma {:induction false} SortLast<T>(s: seq<T>, key: T -> int)
    requires |s| > 0
    ensures SortByKey(s, key)[|s| - 1] == s[LastMaxIndex(s, key)]
  {
    if |s| > 1 {
      var p := s[..|s| - 1];
      SortLast(p, key);
      assert SortByKey(p, key)[|p| - 1] == p[LastMaxIndex(p, key)];
    }
  }
}
