/** A stable sort by an integer key, largest key first. It stands for Python's
    `list.sort(key=..., reverse=True)`, which keeps equal keys in their original order,
    and (with the key negated) for SQL `ORDER BY id`. */
module Sorting {

  predicate SortedDesc<T>(s: seq<T>, key: T -> int) {
    forall i, j :: 0 <= i < j < |s| ==> key(s[i]) >= key(s[j])
  }

  predicate Ascending<T>(s: seq<T>, key: T -> int) {
    forall i, j :: 0 <= i < j < |s| ==> key(s[i]) <= key(s[j])
  }

  /** Ordered by `key` descending and, among equal keys, by `tie` ascending. */
  predicate LexSorted<T>(s: seq<T>, key: T -> int, tie: T -> int) {
    forall i, j :: 0 <= i < j < |s| ==>
      key(s[i]) > key(s[j]) || (key(s[i]) == key(s[j]) && tie(s[i]) <= tie(s[j]))
  }

  /** Places `x` after every element whose key is at least `x`'s. */
  function Insert<T>(s: seq<T>, x: T, key: T -> int): seq<T>
    decreases |s|
  {
    if s == [] then [x]
    else if key(s[|s| - 1]) >= key(x) then s + [x]
    else Insert(s[..|s| - 1], x, key) + [s[|s| - 1]]
  }

  function SortDesc<T>(s: seq<T>, key: T -> int): seq<T>
    decreases |s|
  {
    if s == [] then [] else Insert(SortDesc(s[..|s| - 1], key), s[|s| - 1], key)
  }

  lemma {:induction false} InsertPermutes<T>(s: seq<T>, x: T, key: T -> int)
    ensures multiset(Insert(s, x, key)) == multiset(s) + multiset{x}
    decreases |s|
  {
    if s != [] && key(s[|s| - 1]) < key(x) {
      InsertPermutes(s[..|s| - 1], x, key);
      assert s == s[..|s| - 1] + [s[|s| - 1]];
    }
  }

  /** The sort returns a permutation of its input. */
  lemma {:induction false} SortPermutes<T>(s: seq<T>, key: T -> int)
    ensures multiset(SortDesc(s, key)) == multiset(s)
    ensures |SortDesc(s, key)| == |s|
    decreases |s|
  {
    if s != [] {
      SortPermutes(s[..|s| - 1], key);
      InsertPermutes(SortDesc(s[..|s| - 1], key), s[|s| - 1], key);
      assert s == s[..|s| - 1] + [s[|s| - 1]];
    }
    assert |multiset(SortDesc(s, key))| == |multiset(s)|;
  }

  lemma {:induction false} InsertSorted<T>(s: seq<T>, x: T, key: T -> int)
    requires SortedDesc(s, key)
    ensures SortedDesc(Insert(s, x, key), key)
    decreases |s|
  {
    if s != [] && key(s[|s| - 1]) < key(x) {
      var init, last := s[..|s| - 1], s[|s| - 1];
      InsertSorted(init, x, key);
      InsertPermutes(init, x, key);
      var r := Insert(init, x, key);
      forall i | 0 <= i < |r| ensures key(r[i]) >= key(last) {
        assert r[i] in multiset(init) + multiset{x};
      }
    }
  }

  /** The sort returns its input ordered by non-increasing key. */
  lemma {:induction false} SortSorted<T>(s: seq<T>, key: T -> int)
    ensures SortedDesc(SortDesc(s, key), key)
    decreases |s|
  {
    if s != [] {
      SortSorted(s[..|s| - 1], key);
      InsertSorted(SortDesc(s[..|s| - 1], key), s[|s| - 1], key);
    }
  }

  lemma {:induction false} InsertLex<T>(s: seq<T>, x: T, key: T -> int, tie: T -> int)
    requires LexSorted(s, key, tie)
    requires forall e :: e in s ==> tie(e) <= tie(x)
    ensures LexSorted(Insert(s, x, key), key, tie)
    decreases |s|
  {
    if s != [] && key(s[|s| - 1]) < key(x) {
      var init, last := s[..|s| - 1], s[|s| - 1];
      InsertLex(init, x, key, tie);
      InsertPermutes(init, x, key);
      var r := Insert(init, x, key);
      forall i | 0 <= i < |r| ensures key(r[i]) > key(last) || (key(r[i]) == key(last) && tie(r[i]) <= tie(last)) {
        assert r[i] in multiset(init) + multiset{x};
      }
    }
  }

  /** Stability: sorting a list that is already in ascending `tie` order yields the
      order "key descending, then tie ascending". */
  lemma {:induction false} SortLex<T>(s: seq<T>, key: T -> int, tie: T -> int)
    requires Ascending(s, tie)
    ensures LexSorted(SortDesc(s, key), key, tie)
    decreases |s|
  {
    if s != [] {
      var init := s[..|s| - 1];
      SortLex(init, key, tie);
      SortPermutes(init, key);
      forall e | e in SortDesc(init, key) ensures tie(e) <= tie(s[|s| - 1]) {
        assert e in multiset(init);
      }
      InsertLex(SortDesc(init, key), s[|s| - 1], key, tie);
    }
  }

  lemma LexIsSorted<T>(s: seq<T>, key: T -> int, tie: T -> int)
    requires LexSorted(s, key, tie)
    ensures SortedDesc(s, key)
  {
  }

  lemma NegatedAscending<T>(s: seq<T>, key: T -> int, neg: T -> int)
    requires SortedDesc(s, neg)
    requires forall e :: neg(e) == -key(e)
    ensures Ascending(s, key)
  {
  }
  /** In a list sorted by non-increasing key, an element of a prefix has a key at least
      that of any element outside the prefix. */
  lemma PrefixDominates<T>(s: seq<T>, n: nat, key: T -> int, x: T, y: T)
    requires SortedDesc(s, key) && n <= |s|
    requires x in s[..n] && y in s && y !in s[..n]
    ensures key(x) >= key(y)
  {
    var k :| 0 <= k < n && s[..n][k] == x;
    var j :| 0 <= j < |s| && s[j] == y;
    assert forall i :: 0 <= i < n ==> s[..n][i] == s[i];
    assert s[k] == x;
  }
}
