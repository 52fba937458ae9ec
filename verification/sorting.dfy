/** Python's `sorted(s, key=...)` and `list.sort(key=...)`: a stable sort. It is
    written here as an insertion sort, and what callers rely on is proved about it:
    the result is ordered, a permutation, and keeps elements with equal keys in
    their input order; its first element is the first minimum and its last
    element the last maximum. `reverse=True` is the same stable sort on the
    negated key. */
module Sorting {

  /** Keys never decrease along `s`. */
  ghost predicate Ascending<T>(s: seq<T>, key: T -> int) {
    forall i, j :: 0 <= i < j < |s| ==> key(s[i]) <= key(s[j])
  }

  /** Keys never increase along `s`. */
  ghost predicate Descending<T>(s: seq<T>, key: T -> int) {
    forall i, j :: 0 <= i < j < |s| ==> key(s[i]) >= key(s[j])
  }

  /** Puts `x` in front of the first element of `t` whose key is not smaller. */
  function Insert<T>(x: T, t: seq<T>, key: T -> int): (r: seq<T>)
    ensures |r| == |t| + 1 && multiset(r) == multiset(t) + multiset{x}
  {
    if t == [] || key(x) <= key(t[0]) then [x] + t
    else
      assert t == [t[0]] + t[1..];
      [t[0]] + Insert(x, t[1..], key)
  }

  lemma {:induction false} InsertAscending<T>(x: T, t: seq<T>, key: T -> int)
    requires Ascending(t, key)
    ensures Ascending(Insert(x, t, key), key)
  {
    if t != [] && key(x) > key(t[0]) {
      var r' := Insert(x, t[1..], key);
      InsertAscending(x, t[1..], key);
      forall k | 0 <= k < |r'| ensures key(t[0]) <= key(r'[k]) {
        assert r'[k] in multiset(r');
        if r'[k] != x {
          assert r'[k] in t[1..];
        }
      }
    }
  }

  /** `sorted(s, key=key)`. */
  function SortBy<T>(s: seq<T>, key: T -> int): (r: seq<T>)
    ensures |r| == |s| && multiset(r) == multiset(s)
    ensures Ascending(r, key)
  {
    if s == [] then []
    else
      assert s == [s[0]] + s[1..];
      InsertAscending(s[0], SortBy(s[1..], key), key);
      Insert(s[0], SortBy(s[1..], key), key)
  }

  function Negated<T>(key: T -> int): T -> int {
    x => -key(x)
  }

  /** `sorted(s, key=key, reverse=True)`: Python keeps equal keys in input order
      under `reverse=True` as well. */
  function SortByDesc<T>(s: seq<T>, key: T -> int): (r: seq<T>)
    ensures |r| == |s| && multiset(r) == multiset(s)
    ensures Descending(r, key)
  {
    var r := SortBy(s, Negated(key));
    assert forall i, j :: 0 <= i < j < |r| ==> Negated(key)(r[i]) <= Negated(key)(r[j]);
    r
  }

  // ---------------------------------------------------------------------------
  // Stability

  /** The elements of `s` whose key is `v`, in order. */
  function WithKey<T>(s: seq<T>, key: T -> int, v: int): seq<T> {
    if s == [] then [] else (if key(s[0]) == v then [s[0]] else []) + WithKey(s[1..], key, v)
  }

  lemma {:induction false} InsertWithKey<T>(x: T, t: seq<T>, key: T -> int, v: int)
    ensures WithKey(Insert(x, t, key), key, v) == (if key(x) == v then [x] else []) + WithKey(t, key, v)
  {
    var r := Insert(x, t, key);
    if t == [] || key(x) <= key(t[0]) {
      assert r == [x] + t && r[1..] == t;
    } else {
      var r' := Insert(x, t[1..], key);
      assert r == [t[0]] + r' && r[1..] == r';
      InsertWithKey(x, t[1..], key, v);
      assert WithKey(t, key, v) == (if key(t[0]) == v then [t[0]] else []) + WithKey(t[1..], key, v);
    }
  }

  /** A stable sort: the elements sharing any one key keep their input order. */
  lemma {:induction false} SortByStable<T>(s: seq<T>, key: T -> int, v: int)
    ensures WithKey(SortBy(s, key), key, v) == WithKey(s, key, v)
  {
    if s != [] {
      SortByStable(s[1..], key, v);
      InsertWithKey(s[0], SortBy(s[1..], key), key, v);
    }
  }

  lemma {:induction false} WithNegatedKey<T>(s: seq<T>, key: T -> int, v: int)
    ensures WithKey(s, Negated(key), -v) == WithKey(s, key, v)
  {
    if s != [] {
      WithNegatedKey(s[1..], key, v);
    }
  }

  /** `reverse=True` is stable too. */
  lemma SortByDescStable<T>(s: seq<T>, key: T -> int, v: int)
    ensures WithKey(SortByDesc(s, key), key, v) == WithKey(s, key, v)
  {
    SortByStable(s, Negated(key), -v);
    WithNegatedKey(SortByDesc(s, key), key, v);
    WithNegatedKey(s, key, v);
  }

  // ---------------------------------------------------------------------------
  // Extremal elements

  /** Index of the first element of `s` with the smallest key. */
  function FirstMinIndex<T>(s: seq<T>, key: T -> int): (k: nat)
    requires |s| > 0
    ensures k < |s|
    ensures forall j :: 0 <= j < |s| ==> key(s[k]) <= key(s[j])
    ensures forall j :: 0 <= j < k ==> key(s[j]) > key(s[k])
  {
    if |s| == 1 then 0
    else
      var k := 1 + FirstMinIndex(s[1..], key);
      assert forall j :: 1 <= j < |s| ==> s[j] == s[1..][j - 1];
      if key(s[0]) <= key(s[k]) then 0 else k
  }

  /** Index of the last element of `s` with the largest key. */
  function LastMaxIndex<T>(s: seq<T>, key: T -> int): (k: nat)
    requires |s| > 0
    ensures k < |s|
    ensures forall j :: 0 <= j < |s| ==> key(s[k]) >= key(s[j])
    ensures forall j :: k < j < |s| ==> key(s[j]) < key(s[k])
  {
    if |s| == 1 then 0
    else
      var k := 1 + LastMaxIndex(s[1..], key);
      assert forall j :: 1 <= j < |s| ==> s[j] == s[1..][j - 1];
      if key(s[k]) >= key(s[0]) then k else 0
  }

  /** Index of the first element of `s` with the largest key. */
  function FirstMaxIndex<T>(s: seq<T>, key: T -> int): (k: nat)
    requires |s| > 0
    ensures k < |s|
    ensures forall j :: 0 <= j < |s| ==> key(s[k]) >= key(s[j])
    ensures forall j :: 0 <= j < k ==> key(s[j]) < key(s[k])
  {
    if |s| == 1 then 0
    else
      var k := 1 + FirstMaxIndex(s[1..], key);
      assert forall j :: 1 <= j < |s| ==> s[j] == s[1..][j - 1];
      if key(s[0]) >= key(s[k]) then 0 else k
  }

  /** `sorted(s, key=key)[0]` is the first element with the smallest key. */
  lemma {:induction false} SortByHead<T>(s: seq<T>, key: T -> int)
    requires |s| > 0
    ensures SortBy(s, key)[0] == s[FirstMinIndex(s, key)]
  {
    if |s| > 1 {
      SortByHead(s[1..], key);
    }
  }

  lemma {:induction false} InsertLast<T>(x: T, t: seq<T>, key: T -> int)
    requires Ascending(t, key)
    ensures var r := Insert(x, t, key);
      r[|r| - 1] == if t == [] || key(x) > key(t[|t| - 1]) then x else t[|t| - 1]
  {
    if t != [] && key(x) > key(t[0]) {
      InsertLast(x, t[1..], key);
    }
  }

  /** `sorted(s, key=key)[-1]` is the last element with the largest key. */
  lemma {:induction false} SortByLast<T>(s: seq<T>, key: T -> int)
    requires |s| > 0
    ensures var r := SortBy(s, key); r[|r| - 1] == s[LastMaxIndex(s, key)]
  {
    if |s| > 1 {
      SortByLast(s[1..], key);
      InsertLast(s[0], SortBy(s[1..], key), key);
    }
  }

  /** `sorted(s, key=key, reverse=True)[0]` is the first element with the largest key. */
  lemma SortByDescHead<T>(s: seq<T>, key: T -> int)
    requires |s| > 0
    ensures SortByDesc(s, key)[0] == s[FirstMaxIndex(s, key)]
  {
    SortByHead(s, Negated(key));
    var a, b := FirstMinIndex(s, Negated(key)), FirstMaxIndex(s, key);
    assert Negated(key)(s[a]) == -key(s[a]) && Negated(key)(s[b]) == -key(s[b]);
  }
}
