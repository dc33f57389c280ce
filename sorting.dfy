/** The stable descending sort that `Array.prototype.sort` performs with a
    comparator of the form `(a, b) => key(b) - key(a)`: the largest key first,
    and elements with equal keys in their original order. */
module Sorting {

  ghost predicate SortedDesc<T>(s: seq<T>, key: T -> real)
  {
    forall i, j :: 0 <= i < j < |s| ==> key(s[i]) >= key(s[j])
  }

  /** The elements of s whose key is v, in their order in s. */
  function WithKey<T>(s: seq<T>, key: T -> real, v: real): seq<T>
  {
    if s == [] then [] else (if key(s[0]) == v then [s[0]] else []) + WithKey(s[1..], key, v)
  }

  /** Puts x in front of the first element of s whose key is not larger than x's. */
  function Insert<T>(x: T, s: seq<T>, key: T -> real): seq<T>
  {
    if s == [] || key(x) >= key(s[0]) then [x] + s else [s[0]] + Insert(x, s[1..], key)
  }

  function SortDesc<T>(s: seq<T>, key: T -> real): (r: seq<T>)
    ensures |r| == |s|
    ensures multiset(r) == multiset(s)
  {
    if s == [] then [] else
      assert s == [s[0]] + s[1..];
      InsertPermutes(s[0], SortDesc(s[1..], key), key);
      Insert(s[0], SortDesc(s[1..], key), key)
  }

  lemma {:induction false} InsertPermutes<T>(x: T, s: seq<T>, key: T -> real)
    ensures |Insert(x, s, key)| == |s| + 1
    ensures multiset(Insert(x, s, key)) == multiset(s) + multiset{x}
  {
    if s != [] && key(x) < key(s[0]) {
      InsertPermutes(x, s[1..], key);
      assert s == [s[0]] + s[1..];
    }
  }

  lemma {:induction false} InsertSorted<T>(x: T, s: seq<T>, key: T -> real)
    requires SortedDesc(s, key)
    ensures SortedDesc(Insert(x, s, key), key)
    ensures Insert(x, s, key) != [] && (Insert(x, s, key)[0] == x || Insert(x, s, key)[0] == s[0])
  {
    InsertPermutes(x, s, key);
    if s != [] && key(x) < key(s[0]) {
      InsertSorted(x, s[1..], key);
      var t := Insert(x, s[1..], key);
      InsertPermutes(x, s[1..], key);
      assert t[0] == x || t[0] == s[1];
      forall j | 0 < j < |t| + 1 ensures key(s[0]) >= key(([s[0]] + t)[j]) {
        assert ([s[0]] + t)[j] == t[j - 1];
        assert t[j - 1] in multiset(t);
        assert t[j - 1] in multiset(s[1..]) + multiset{x};
        if t[j - 1] != x {
          assert t[j - 1] in s[1..];
        }
      }
    }
  }

  lemma {:induction false} InsertTies<T>(x: T, s: seq<T>, key: T -> real, v: real)
    requires SortedDesc(s, key)
    ensures WithKey(Insert(x, s, key), key, v) == (if key(x) == v then [x] else []) + WithKey(s, key, v)
  {
    if s != [] && key(x) < key(s[0]) {
      SortedTail(s, key);
      InsertTies(x, s[1..], key, v);
      var t := Insert(x, s[1..], key);
      var u := [s[0]] + t;
      assert u[0] == s[0] && u[1..] == t;
      assert WithKey(u, key, v) == (if key(s[0]) == v then [s[0]] else []) + WithKey(t, key, v);
      assert WithKey(s, key, v) == (if key(s[0]) == v then [s[0]] else []) + WithKey(s[1..], key, v);
      // x cannot tie with s[0], which is strictly larger
      assert key(x) == v ==> key(s[0]) != v;
    }
  }

  lemma SortedTail<T>(s: seq<T>, key: T -> real)
    requires s != [] && SortedDesc(s, key)
    ensures SortedDesc(s[1..], key)
  {
    forall i, j | 0 <= i < j < |s| - 1 ensures key(s[1..][i]) >= key(s[1..][j]) {
      assert s[1..][i] == s[i + 1] && s[1..][j] == s[j + 1];
    }
  }

  lemma {:induction false} SortDescSorted<T>(s: seq<T>, key: T -> real)
    ensures SortedDesc(SortDesc(s, key), key)
  {
    if s != [] {
      SortDescSorted(s[1..], key);
      InsertSorted(s[0], SortDesc(s[1..], key), key);
    }
  }

  /** Stability: for every key value, the elements with that key keep their order. */
  lemma {:induction false} SortDescStable<T>(s: seq<T>, key: T -> real, v: real)
    ensures WithKey(SortDesc(s, key), key, v) == WithKey(s, key, v)
  {
    if s != [] {
      SortDescStable(s[1..], key, v);
      SortDescSorted(s[1..], key);
      InsertTies(s[0], SortDesc(s[1..], key), key, v);
    }
  }

  /** A sorted, stable permutation is unique: sorting an already sorted list changes nothing. */
  lemma {:induction false} SortDescOfSorted<T>(s: seq<T>, key: T -> real)
    requires SortedDesc(s, key)
    ensures SortDesc(s, key) == s
  {
    if s != [] {
      SortDescOfSorted(s[1..], key);
      assert SortDesc(s[1..], key) == s[1..];
      assert s == [s[0]] + s[1..];
    }
  }
}
