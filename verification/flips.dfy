/** The name-to-profit dict of main4.py (`flips`), which `price_ks_flips` builds,
    `refine_ks_flips` updates and `sort_flips` partitions and ranks. A Python dict
    keeps its keys in insertion order, so it is modelled as the sequence of its
    entries with pairwise distinct keys; `None` (an unpriced weapon) is `None`. */
module Flips {
  import opened Common
  import opened Sorting

  /** One dict entry: a weapon name and its profit in half scrap, if priced. */
  type Entry = (string, Option<int>)

  function KeysOf(items: seq<Entry>): seq<string> {
    seq(|items|, i requires 0 <= i < |items| => items[i].0)
  }

  ghost predicate DistinctKeys(items: seq<Entry>) {
    forall i, j :: 0 <= i < j < |items| ==> items[i].0 != items[j].0
  }

  /** The entries of a dict with the keys `keys` and the values `values`, in order. */
  function Entries(keys: seq<string>, values: seq<Option<int>>): seq<Entry>
    requires |keys| == |values|
  {
    seq(|keys|, i requires 0 <= i < |keys| => (keys[i], values[i]))
  }

  /** `dict.fromkeys(keys)` for keys that are already distinct: every value None. */
  function NoneEntries(keys: seq<string>): seq<Entry> {
    seq(|keys|, i requires 0 <= i < |keys| => (keys[i], None))
  }

  /** The value stored under `k`. */
  function Get(items: seq<Entry>, k: string): Option<int>
    requires k in KeysOf(items)
  {
    if items[0].0 == k then items[0].1
    else
      assert KeysOf(items) == [items[0].0] + KeysOf(items[1..]);
      Get(items[1..], k)
  }

  /** `d[k] = v`: the value is replaced in place when `k` is a key, else the entry
      is appended. */
  function Assign(items: seq<Entry>, k: string, v: Option<int>): (r: seq<Entry>)
    ensures KeysOf(r) == if k in KeysOf(items) then KeysOf(items) else KeysOf(items) + [k]
  {
    assert items != [] ==> KeysOf(items) == [items[0].0] + KeysOf(items[1..]);
    if items == [] then [(k, v)]
    else if items[0].0 == k then [(k, v)] + items[1..]
    else
      var r := [items[0]] + Assign(items[1..], k, v);
      assert KeysOf(r) == [items[0].0] + KeysOf(Assign(items[1..], k, v));
      r
  }

  /** `d[k] = v` for each entry of `pairs` in turn: `d.update(pairs)`, and also a
      dict comprehension built from `pairs`. */
  function AssignAll(items: seq<Entry>, pairs: seq<Entry>): seq<Entry> {
    if pairs == [] then items
    else
      var last := pairs[|pairs| - 1];
      Assign(AssignAll(items, pairs[..|pairs| - 1]), last.0, last.1)
  }

  /** The entries whose key is not among `ks`, in order. */
  function Without(items: seq<Entry>, ks: seq<string>): (r: seq<Entry>)
    ensures forall e :: e in r <==> e in items && e.0 !in ks
  {
    if items == [] then []
    else (if items[0].0 in ks then [] else [items[0]]) + Without(items[1..], ks)
  }

  /** The entries with a profit, in order. */
  function Priced(items: seq<Entry>): (r: seq<Entry>)
    ensures forall e :: e in r <==> e in items && e.1.Some?
    ensures |r| <= |items|
  {
    if items == [] then []
    else (if items[0].1.Some? then [items[0]] else []) + Priced(items[1..])
  }

  /** The entries without a profit, in order. */
  function Unpriced(items: seq<Entry>): (r: seq<Entry>)
    ensures forall e :: e in r <==> e in items && e.1.None?
  {
    if items == [] then []
    else (if items[0].1.None? then [items[0]] else []) + Unpriced(items[1..])
  }

  /** Both parts keep the input order: splitting a concatenation splits each
      piece, and a single entry lands in exactly one part. */
  lemma {:induction false} PricedAppend(a: seq<Entry>, b: seq<Entry>)
    ensures Priced(a + b) == Priced(a) + Priced(b)
    decreases |a|
  {
    if a == [] {
      assert a + b == b;
    } else {
      assert (a + b)[0] == a[0] && (a + b)[1..] == a[1..] + b;
      PricedAppend(a[1..], b);
    }
  }

  lemma {:induction false} UnpricedAppend(a: seq<Entry>, b: seq<Entry>)
    ensures Unpriced(a + b) == Unpriced(a) + Unpriced(b)
    decreases |a|
  {
    if a == [] {
      assert a + b == b;
    } else {
      assert (a + b)[0] == a[0] && (a + b)[1..] == a[1..] + b;
      UnpricedAppend(a[1..], b);
    }
  }

  lemma PartsOfOne(e: Entry)
    ensures Priced([e]) == (if e.1.Some? then [e] else [])
    ensures Unpriced([e]) == (if e.1.None? then [e] else [])
  {
    assert [e][1..] == [];
  }

  /** The sort key `ele[1]` of a priced entry. */
  function Profit(e: Entry): int {
    if e.1.Some? then e.1.value else 0
  }

  /** What `sort_flips` returns: the priced entries by falling profit (a stable
      sort), then the unpriced ones in their order. */
  function RankedFlips(items: seq<Entry>): seq<Entry> {
    SortByDesc(Priced(items), Profit) + Unpriced(items)
  }

  // ---------------------------------------------------------------------------
  // The dict object

  class FlipDict {
    var items: seq<Entry>

    ghost predicate Valid()
      reads this
    {
      DistinctKeys(items)
    }

    /** `dict.fromkeys(names)`: each name once, where it first occurs, valued None. */
    constructor FromKeys(names: seq<string>)
      ensures items == NoneEntries(Distinct(names)) && Valid()
    {
      NoneEntriesDistinct(Distinct(names));
      items := NoneEntries(Distinct(names));
    }

    /** A dict comprehension over `pairs`. */
    constructor FromEntries(pairs: seq<Entry>)
      ensures items == AssignAll([], pairs) && Valid()
    {
      AssignAllKeepsDistinct([], pairs);
      items := AssignAll([], pairs);
    }

    /** `d[k] = v`. */
    method Set(k: string, v: Option<int>)
      requires Valid()
      modifies this
      ensures items == Assign(old(items), k, v) && Valid()
    {
      AssignKeepsDistinct(items, k, v);
      items := Assign(items, k, v);
    }

    /** `d.pop(k)`: the value, and the entry removed; a KeyError when `k` is no key. */
    method Pop(k: string) returns (r: Outcome<Option<int>>)
      requires Valid()
      modifies this
      ensures Valid()
      ensures k in KeysOf(old(items)) ==> r == Returned(Get(old(items), k)) && items == Without(old(items), [k])
      ensures k !in KeysOf(old(items)) ==> r == Raised(MissingKey) && items == old(items)
    {
      if k in KeysOf(items) {
        WithoutKeepsDistinct(items, [k]);
        r := Returned(Get(items, k));
        items := Without(items, [k]);
      } else {
        r := Raised(MissingKey);
      }
    }

    /** `d.update(pairs)`. */
    method Update(pairs: seq<Entry>)
      requires Valid()
      modifies this
      ensures items == AssignAll(old(items), pairs) && Valid()
    {
      AssignAllKeepsDistinct(items, pairs);
      items := AssignAll(items, pairs);
    }
  }

  // ---------------------------------------------------------------------------
  // Facts about entries

  lemma KeysOfIn(items: seq<Entry>, e: Entry)
    requires e in items
    ensures e.0 in KeysOf(items)
  {
    var i :| 0 <= i < |items| && items[i] == e;
    assert KeysOf(items)[i] == e.0;
  }

  /** With distinct keys, two entries sharing a key are the same entry. */
  lemma SameKeySameEntry(items: seq<Entry>, a: Entry, b: Entry)
    requires DistinctKeys(items) && a in items && b in items && a.0 == b.0
    ensures a == b
  {
    var i :| 0 <= i < |items| && items[i] == a;
    var j :| 0 <= j < |items| && items[j] == b;
    assert i == j;
  }

  /** The head of a dict with distinct keys has a key no later entry has. */
  lemma HeadKeyFresh(items: seq<Entry>)
    requires items != [] && DistinctKeys(items)
    ensures DistinctKeys(items[1..]) && forall e :: e in items[1..] ==> e.0 != items[0].0
  {
    forall e | e in items[1..] ensures e.0 != items[0].0 {
      var j :| 0 <= j < |items[1..]| && items[1..][j] == e;
      assert items[j + 1] == e;
    }
  }

  /** An entry whose key no entry of `rest` has can go in front of `rest`. */
  lemma ConsDistinct(x: Entry, rest: seq<Entry>)
    requires DistinctKeys(rest) && forall e :: e in rest ==> e.0 != x.0
    ensures DistinctKeys([x] + rest)
  {
    var r := [x] + rest;
    forall i, j | 0 <= i < j < |r| ensures r[i].0 != r[j].0 {
      if i == 0 {
        assert r[j] == rest[j - 1] && r[j] in rest;
      } else {
        assert r[i] == rest[i - 1] && r[j] == rest[j - 1];
      }
    }
  }

  lemma {:induction false} PricedKeysDistinct(items: seq<Entry>)
    requires DistinctKeys(items)
    ensures DistinctKeys(Priced(items))
  {
    if items != [] {
      HeadKeyFresh(items);
      PricedKeysDistinct(items[1..]);
      if items[0].1.Some? {
        ConsDistinct(items[0], Priced(items[1..]));
      } else {
        assert Priced(items) == Priced(items[1..]);
      }
    }
  }

  lemma {:induction false} UnpricedKeysDistinct(items: seq<Entry>)
    requires DistinctKeys(items)
    ensures DistinctKeys(Unpriced(items))
  {
    if items != [] {
      HeadKeyFresh(items);
      UnpricedKeysDistinct(items[1..]);
      if items[0].1.None? {
        ConsDistinct(items[0], Unpriced(items[1..]));
      } else {
        assert Unpriced(items) == Unpriced(items[1..]);
      }
    }
  }

  lemma PricedDistinct(items: seq<Entry>)
    requires DistinctKeys(items)
    ensures DistinctKeys(Priced(items)) && DistinctKeys(Unpriced(items))
  {
    PricedKeysDistinct(items);
    UnpricedKeysDistinct(items);
  }

  /** `d[k] = v` keeps a dict's keys distinct. */
  lemma {:induction false} AssignKeepsDistinct(items: seq<Entry>, k: string, v: Option<int>)
    requires DistinctKeys(items)
    ensures DistinctKeys(Assign(items, k, v))
  {
    if items != [] {
      HeadKeyFresh(items);
      var rest := items[1..];
      if items[0].0 == k {
        ConsDistinct((k, v), rest);
      } else {
        AssignKeepsDistinct(rest, k, v);
        var r := Assign(rest, k, v);
        forall e | e in r ensures e.0 != items[0].0 {
          KeysOfIn(r, e);
          if e.0 != k {
            var i :| 0 <= i < |KeysOf(rest)| && KeysOf(rest)[i] == e.0;
            assert rest[i] in rest;
          }
        }
        ConsDistinct(items[0], r);
      }
    }
  }

  /** `d.update(pairs)`, and a comprehension, keep a dict's keys distinct. */
  lemma {:induction false} AssignAllKeepsDistinct(items: seq<Entry>, pairs: seq<Entry>)
    requires DistinctKeys(items)
    ensures DistinctKeys(AssignAll(items, pairs))
  {
    if pairs != [] {
      var last := pairs[|pairs| - 1];
      AssignAllKeepsDistinct(items, pairs[..|pairs| - 1]);
      AssignKeepsDistinct(AssignAll(items, pairs[..|pairs| - 1]), last.0, last.1);
    }
  }

  /** `d.pop(k)` for each key of `ks` keeps a dict's keys distinct. */
  lemma {:induction false} WithoutKeepsDistinct(items: seq<Entry>, ks: seq<string>)
    requires DistinctKeys(items)
    ensures DistinctKeys(Without(items, ks))
  {
    if items != [] {
      HeadKeyFresh(items);
      WithoutKeepsDistinct(items[1..], ks);
      if items[0].0 !in ks {
        ConsDistinct(items[0], Without(items[1..], ks));
      } else {
        assert Without(items, ks) == Without(items[1..], ks);
      }
    }
  }

  /** The entries whose keys name unpriced entries are exactly the unpriced ones. */
  lemma {:induction false} WithoutUnpricedKeys(items: seq<Entry>, ks: seq<string>)
    requires forall e :: e in items ==> (e.0 in ks <==> e.1.None?)
    ensures Without(items, ks) == Priced(items)
  {
    if items != [] {
      WithoutUnpricedKeys(items[1..], ks);
    }
  }

  /** Popping every unpriced key of a dict leaves its priced entries. */
  lemma PopUnpricedLeavesPriced(items: seq<Entry>)
    requires DistinctKeys(items)
    ensures Without(items, KeysOf(Unpriced(items))) == Priced(items)
  {
    var u := Unpriced(items);
    forall e | e in items ensures e.0 in KeysOf(u) <==> e.1.None? {
      if e.1.None? {
        KeysOfIn(u, e);
      }
      if e.0 in KeysOf(u) {
        var i :| 0 <= i < |u| && KeysOf(u)[i] == e.0;
        SameKeySameEntry(items, u[i], e);
      }
    }
    WithoutUnpricedKeys(items, KeysOf(u));
  }

  /** No unpriced key is popped before its turn. */
  lemma UnpricedKeyLeft(items: seq<Entry>, j: nat)
    requires DistinctKeys(items) && j < |KeysOf(Unpriced(items))|
    ensures KeysOf(Unpriced(items))[j] in KeysOf(Without(items, KeysOf(Unpriced(items))[..j]))
  {
    var u := Unpriced(items);
    var names := KeysOf(u);
    PricedDistinct(items);
    assert names[j] == u[j].0;
    forall k | 0 <= k < j ensures names[k] != names[j] {
      assert names[k] == u[k].0;
    }
    assert u[j] in u;
    assert u[j] in Without(items, names[..j]);
    KeysOfIn(Without(items, names[..j]), u[j]);
  }

  lemma {:induction false} WithoutNothing(items: seq<Entry>)
    ensures Without(items, []) == items
  {
    if items != [] {
      WithoutNothing(items[1..]);
      assert items == [items[0]] + items[1..];
    }
  }

  lemma {:induction false} WithoutSnoc(items: seq<Entry>, ks: seq<string>, k: string)
    ensures Without(Without(items, ks), [k]) == Without(items, ks + [k])
  {
    if items != [] {
      WithoutSnoc(items[1..], ks, k);
      var head := if items[0].0 in ks then [] else [items[0]];
      assert Without(items, ks) == head + Without(items[1..], ks);
      WithoutAppend(head, Without(items[1..], ks), [k]);
    }
  }

  /** Popping the keys of `ks` one by one. */
  lemma WithoutNext(items: seq<Entry>, ks: seq<string>, j: nat)
    requires j < |ks|
    ensures Without(Without(items, ks[..j]), [ks[j]]) == Without(items, ks[..j + 1])
  {
    assert ks[..j + 1] == ks[..j] + [ks[j]];
    WithoutSnoc(items, ks[..j], ks[j]);
  }

  lemma {:induction false} WithoutAppend(a: seq<Entry>, b: seq<Entry>, ks: seq<string>)
    ensures Without(a + b, ks) == Without(a, ks) + Without(b, ks)
  {
    if a == [] {
      assert a + b == b;
    } else {
      assert (a + b)[0] == a[0] && (a + b)[1..] == a[1..] + b;
      WithoutAppend(a[1..], b, ks);
    }
  }

  /** Assigning a key that is absent appends the entry. */
  lemma {:induction false} AssignAbsent(items: seq<Entry>, k: string, v: Option<int>)
    requires k !in KeysOf(items)
    ensures Assign(items, k, v) == items + [(k, v)]
  {
    if items != [] {
      assert KeysOf(items) == [items[0].0] + KeysOf(items[1..]);
      AssignAbsent(items[1..], k, v);
    }
  }

  /** Assigning the key of entry `i` of a dict replaces that entry's value in place. */
  lemma {:induction false} AssignPresent(items: seq<Entry>, i: nat, v: Option<int>)
    requires DistinctKeys(items) && i < |items|
    ensures Assign(items, items[i].0, v) == items[i := (items[i].0, v)]
  {
    if i > 0 {
      assert DistinctKeys(items[1..]) by {
        forall a, b | 0 <= a < b < |items[1..]| ensures items[1..][a].0 != items[1..][b].0 {
          assert items[1..][a] == items[a + 1] && items[1..][b] == items[b + 1];
        }
      }
      assert items[0].0 != items[i].0;
      AssignPresent(items[1..], i - 1, v);
      assert items[1..][i - 1 := (items[i].0, v)] == items[i := (items[i].0, v)][1..];
    }
  }

  /** Assigning distinct fresh keys one by one appends them in order. */
  lemma {:induction false} AssignAllFresh(items: seq<Entry>, pairs: seq<Entry>)
    requires DistinctKeys(pairs)
    requires forall e :: e in pairs ==> e.0 !in KeysOf(items)
    ensures AssignAll(items, pairs) == items + pairs
  {
    if pairs != [] {
      var front := pairs[..|pairs| - 1];
      var last := pairs[|pairs| - 1];
      AssignAllFresh(items, front);
      var joined := items + front;
      forall i | 0 <= i < |joined| ensures KeysOf(joined)[i] != last.0 {
        if i < |items| {
          assert KeysOf(joined)[i] == KeysOf(items)[i];
        } else {
          assert joined[i] == pairs[i - |items|];
        }
      }
      AssignAbsent(items + front, last.0, last.1);
      assert (items + front) + [(last.0, last.1)] == items + pairs;
    }
  }

  /** `dict.fromkeys` over keys that are already distinct: the dict has exactly
      those keys, in that order. */
  lemma NoneEntriesDistinct(keys: seq<string>)
    requires forall i, j :: 0 <= i < j < |keys| ==> keys[i] != keys[j]
    ensures DistinctKeys(NoneEntries(keys)) && KeysOf(NoneEntries(keys)) == keys
  {
  }

  // ---------------------------------------------------------------------------
  // What `sort_flips` promises

  lemma {:induction false} PricedUnpricedSplit(items: seq<Entry>)
    ensures multiset(Priced(items)) + multiset(Unpriced(items)) == multiset(items)
  {
    if items != [] {
      var h, t := items[0], items[1..];
      PricedUnpricedSplit(t);
      assert items == [h] + t;
      assert multiset(items) == multiset{h} + multiset(t);
      if h.1.Some? {
        assert Priced(items) == [h] + Priced(t) && Unpriced(items) == Unpriced(t);
      } else {
        assert Priced(items) == Priced(t) && Unpriced(items) == [h] + Unpriced(t);
      }
    }
  }

  /** The ranking holds exactly the entries of the dict: the same keys with the
      same values. */
  lemma RankedSameEntries(items: seq<Entry>)
    ensures multiset(RankedFlips(items)) == multiset(items)
    ensures |RankedFlips(items)| == |items|
  {
    PricedUnpricedSplit(items);
    assert |multiset(RankedFlips(items))| == |multiset(items)|;
  }

  /** Ranking the priced entries keeps them priced, by falling profit. */
  lemma SortedPricedOrder(items: seq<Entry>)
    ensures var s := SortByDesc(Priced(items), Profit);
      && (forall i :: 0 <= i < |s| ==> s[i].1.Some?)
      && (forall i, j :: 0 <= i < j < |s| ==> s[i].1.value >= s[j].1.value)
  {
    var s := SortByDesc(Priced(items), Profit);
    forall i | 0 <= i < |s| ensures s[i].1.Some? {
      assert s[i] in multiset(Priced(items));
    }
    forall i, j | 0 <= i < j < |s| ensures s[i].1.value >= s[j].1.value {
      assert Profit(s[i]) >= Profit(s[j]);
    }
  }

  /** Every priced entry comes before every unpriced one; the priced part is in
      falling order of profit. */
  lemma RankedOrder(items: seq<Entry>)
    ensures var r := RankedFlips(items); var p := |Priced(items)|;
      && (forall i :: 0 <= i < p ==> r[i].1.Some?)
      && (forall i :: p <= i < |r| ==> r[i].1.None?)
      && (forall i, j :: 0 <= i < j < p ==> r[i].1.value >= r[j].1.value)
  {
    var s := SortByDesc(Priced(items), Profit);
    var u := Unpriced(items);
    var r := RankedFlips(items);
    SortedPricedOrder(items);
    assert r == s + u;
    forall i | |s| <= i < |r| ensures r[i].1.None? {
      assert r[i] == u[i - |s|] && r[i] in u;
    }
  }

  /** Entries of equal profit keep their order in the dict (the sort is stable),
      and the unpriced entries follow in their order in the dict. */
  lemma RankedStable(items: seq<Entry>, v: int)
    ensures var r := RankedFlips(items); var p := |Priced(items)|;
      && WithKey(r[..p], Profit, v) == WithKey(Priced(items), Profit, v)
      && r[p..] == Unpriced(items)
  {
    var s := SortByDesc(Priced(items), Profit);
    SortByDescStable(Priced(items), Profit, v);
    assert RankedFlips(items)[..|s|] == s;
  }

  /** A ranked dict is a dict: its keys stay distinct. */
  lemma RankedDistinct(items: seq<Entry>)
    requires DistinctKeys(items)
    ensures DistinctKeys(RankedFlips(items))
  {
    PricedDistinct(items);
    var p := Priced(items);
    var u := Unpriced(items);
    var s := SortByDesc(p, Profit);
    SortByDescDistinct(p);
    var r := s + u;
    forall i, j | 0 <= i < j < |r| ensures r[i].0 != r[j].0 {
      if j < |s| {
      } else if i >= |s| {
        assert r[i] == u[i - |s|] && r[j] == u[j - |s|];
      } else {
        assert r[i] in multiset(p);
        assert r[j] == u[j - |s|];
        assert r[i] in p && r[j] in u;
        if r[i].0 == r[j].0 {
          SameKeySameEntry(items, r[i], r[j]);
        }
      }
    }
  }

  /** Sorting keeps the keys of a dict distinct. */
  lemma SortByDescDistinct(p: seq<Entry>)
    requires DistinctKeys(p)
    ensures DistinctKeys(SortByDesc(p, Profit))
  {
    var s := SortByDesc(p, Profit);
    forall i, j | 0 <= i < j < |s| ensures s[i].0 != s[j].0 {
      assert s[i] in multiset(p) && s[j] in multiset(p);
      if s[i].0 == s[j].0 {
        SameKeySameEntry(p, s[i], s[j]);
        DistinctKeysOnce(p, s[i]);
        MultisetTwice(s, i, j);
        assert false;
      }
    }
  }

  /** An entry at two positions counts twice. */
  lemma MultisetTwice(s: seq<Entry>, i: nat, j: nat)
    requires i < j < |s| && s[i] == s[j]
    ensures multiset(s)[s[i]] >= 2
  {
    assert s == s[..i] + [s[i]] + s[i + 1..j] + [s[j]] + s[j + 1..];
  }

  /** In a dict every entry occurs once. */
  lemma {:induction false} DistinctKeysOnce(p: seq<Entry>, e: Entry)
    requires DistinctKeys(p)
    ensures multiset(p)[e] <= 1
  {
    if p != [] {
      assert p == [p[0]] + p[1..];
      assert DistinctKeys(p[1..]) by {
        forall a, b | 0 <= a < b < |p[1..]| ensures p[1..][a].0 != p[1..][b].0 {
          assert p[1..][a] == p[a + 1] && p[1..][b] == p[b + 1];
        }
      }
      DistinctKeysOnce(p[1..], e);
      if p[0] == e {
        assert e !in p[1..];
      }
    }
  }

  /** No priced entry shares its key with an unpriced one. */
  lemma PricedKeysApart(items: seq<Entry>, p: seq<Entry>, e: Entry)
    requires DistinctKeys(items) && e in items && e.1.None?
    requires multiset(p) == multiset(Priced(items))
    ensures e.0 !in KeysOf(p)
  {
    forall k | 0 <= k < |p| ensures KeysOf(p)[k] != e.0 {
      assert p[k] in multiset(Priced(items));
      assert p[k] in items && p[k].1.Some?;
      if p[k].0 == e.0 {
        SameKeySameEntry(items, p[k], e);
      }
    }
  }

  /** Rebuilding the dict from its priced entries by falling profit and then
      adding back the unpriced ones gives the ranking: no key of the second part
      is a key of the first. */
  lemma RebuildIsRanked(items: seq<Entry>)
    requires DistinctKeys(items)
    ensures AssignAll(AssignAll([], SortByDesc(Priced(items), Profit)), Unpriced(items)) == RankedFlips(items)
  {
    var sorted := SortByDesc(Priced(items), Profit);
    var unpriced := Unpriced(items);
    PricedDistinct(items);
    SortByDescDistinct(Priced(items));
    AssignAllFresh([], sorted);
    assert [] + sorted == sorted;
    forall e | e in unpriced ensures e.0 !in KeysOf(sorted) {
      PricedKeysApart(items, sorted, e);
    }
    AssignAllFresh(sorted, unpriced);
  }
}
