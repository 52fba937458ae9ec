/** Values shared by every version of the price grabber: the records the pricing
    oracle and the listings marketplace send back, the events a client emits while
    it talks to them, the Python exceptions a call can end in, and the small pure
    helpers all versions use (name de-duplication, sku quoting, unit choice). */
module Common {

  datatype Option<T> = None | Some(value: T)

  /** The Python exception a call ends with instead of returning a value. */
  datatype Fault =
    | NoReply           // the network gave no (further) reply: `requests` raises
    | UnboundLocal      // a local variable read before any branch bound it
    | MissingKey        // a JSON object lacks the key that is indexed
    | NotSubscriptable  // an int is indexed as if it were a list
    | NoneAttribute     // a method is called on None (`None.replace`)

  /** How a Python call ends: with a value, or with an exception. */
  datatype Outcome<T> = Returned(value: T) | Raised(fault: Fault)

  /** A listing attribute's `defindex` as the JSON carries it: a number, or a
      decimal string of one. `int()` reads both; a raw comparison with an int
      matches only the number. */
  datatype DefIndex = IntCode(code: int) | TextCode(code: int)

  /** One marketplace offer: `intent`, `price`, the keys of `currencies`, and the
      `defindex` of each `item.attributes` entry. */
  datatype Listing = Listing(intent: string, price: int, currencies: seq<string>, attributes: seq<DefIndex>)

  /** An oracle price record; `...Keys` are the unit flags (truthy when non-zero)
      and `updatedAt` is the day number of its `updatedAt` date. */
  datatype PriceRecord = PriceRecord(
    buyHalfScrap: int, buyKeyHalfScrap: int, buyKeys: int,
    sellHalfScrap: int, sellKeyHalfScrap: int, sellKeys: int,
    updatedAt: int)

  /** One reply of the pricing oracle to `GET /prices/{sku}`: the status, the
      record (read on 200) and the `retry-after` header in milliseconds (read on 429). */
  datatype PriceReply = PriceReply(status: int, record: PriceRecord, retryAfterMs: nat)

  /** One reply of the marketplace to a snapshot request: the status, the body's
      `sku` and `listings` (absent when None), and `retry-after` in seconds. */
  datatype SnapshotReply = SnapshotReply(status: int, sku: string, listings: Option<seq<Listing>>, retryAfterS: nat)

  /** What a client does to the outside world, in order. */
  datatype Event =
    | PriceGet(path: string)      // GET /prices/{path}
    | RefreshPost(path: string)   // POST /prices/{path}/refresh
    | AuthPost                    // POST /auth/access, which replaces the token
    | Wait(ms: nat)               // time.sleep
    | SnapshotGet(name: string)   // GET /classifieds/listings/snapshot for `name`

  /** `Response.ok` of `requests`: false exactly for client and server errors. */
  predicate IsOk(status: int) {
    !(400 <= status < 600)
  }

  predicate IsPriceGet(e: Event) { e.PriceGet? }
  predicate IsRefresh(e: Event) { e.RefreshPost? }
  predicate IsAuth(e: Event) { e.AuthPost? }
  predicate IsSnapshotGet(e: Event) { e.SnapshotGet? }

  /** How many events of a trace satisfy `p`. */
  function CountIf(events: seq<Event>, p: Event -> bool): nat {
    if events == [] then 0 else (if p(events[0]) then 1 else 0) + CountIf(events[1..], p)
  }

  /** Total time slept in a trace, in milliseconds. */
  function Waited(events: seq<Event>): nat {
    if events == [] then 0 else (if events[0].Wait? then events[0].ms else 0) + Waited(events[1..])
  }

  lemma {:induction false} CountIfAppend(a: seq<Event>, b: seq<Event>, p: Event -> bool)
    ensures CountIf(a + b, p) == CountIf(a, p) + CountIf(b, p)
  {
    if a == [] {
      assert a + b == b;
    } else {
      assert (a + b)[0] == a[0] && (a + b)[1..] == a[1..] + b;
      CountIfAppend(a[1..], b, p);
    }
  }

  lemma {:induction false} WaitedAppend(a: seq<Event>, b: seq<Event>)
    ensures Waited(a + b) == Waited(a) + Waited(b)
  {
    if a == [] {
      assert a + b == b;
    } else {
      assert (a + b)[0] == a[0] && (a + b)[1..] == a[1..] + b;
      WaitedAppend(a[1..], b);
    }
  }

  // ---------------------------------------------------------------------------
  // The sku in a request path: `item_sku.replace(';', '%3B')`

  function Quote(sku: string): (path: string)
    ensures ';' !in path
  {
    if sku == [] then [] else (if sku[0] == ';' then "%3B" else [sku[0]]) + Quote(sku[1..])
  }

  /** The decoding a server applies to a path segment: `%3B` back to `;`. */
  function Unquote(path: string): string {
    if path == [] then []
    else if |path| >= 3 && path[..3] == "%3B" then ";" + Unquote(path[3..])
    else [path[0]] + Unquote(path[1..])
  }

  /** Quoting loses nothing for any sku without a `%` in it. */
  lemma {:induction false} UnquoteQuote(sku: string)
    requires '%' !in sku
    ensures Unquote(Quote(sku)) == sku
  {
    if sku != [] {
      var rest := Quote(sku[1..]);
      UnquoteQuote(sku[1..]);
      if sku[0] == ';' {
        assert Quote(sku) == "%3B" + rest;
        assert (("%3B" + rest)[..3]) == "%3B";
        assert ("%3B" + rest)[3..] == rest;
      } else {
        assert Quote(sku) == [sku[0]] + rest;
        assert ([sku[0]] + rest)[1..] == rest;
      }
    }
  }

  /** A sku without `;` is used verbatim. */
  lemma {:induction false} QuoteIdentity(sku: string)
    requires ';' !in sku
    ensures Quote(sku) == sku
  {
    if sku != [] {
      QuoteIdentity(sku[1..]);
    }
  }

  // ---------------------------------------------------------------------------
  // The marketplace's 429 back-off, shared by every `grab_listings`

  /** How long a snapshot reply makes the grabber sleep: `retry-after` seconds
      on a 429, in milliseconds. */
  function BackoffMs(reply: SnapshotReply): nat {
    if reply.status == 429 then reply.retryAfterS * 1000 else 0
  }

  /** The `time.sleep(int(retry-after))` after a 429. */
  function Backoff(reply: SnapshotReply): (backoff: seq<Event>)
    ensures Waited(backoff) == BackoffMs(reply) && CountIf(backoff, IsSnapshotGet) == 0
  {
    if reply.status == 429 then
      var backoff := [Wait(reply.retryAfterS * 1000)];
      assert backoff[1..] == [];
      backoff
    else []
  }

  /** Each attempt sends exactly one snapshot request, its back-off none. */
  lemma HeadRequestsOnce(name: string, reply: SnapshotReply)
    ensures CountIf([SnapshotGet(name)] + Backoff(reply), IsSnapshotGet) == 1
  {
    CountIfAppend([SnapshotGet(name)], Backoff(reply), IsSnapshotGet);
    assert [SnapshotGet(name)][1..] == [];
  }

  // ---------------------------------------------------------------------------
  // `list(dict.fromkeys([w for w in names if w != ""]))`

  /** The names that are not blank, in order. */
  function NonBlank(names: seq<string>): (r: seq<string>)
    ensures forall n :: n in r <==> n in names && n != ""
  {
    if names == [] then []
    else NonBlank(names[..|names| - 1]) + (if names[|names| - 1] != "" then [names[|names| - 1]] else [])
  }

  /** `dict.fromkeys(names)`'s keys: each name once, where it first occurs. */
  function Distinct(names: seq<string>): (r: seq<string>)
    ensures forall n :: n in r <==> n in names
    ensures forall i, j :: 0 <= i < j < |r| ==> r[i] != r[j]
  {
    if names == [] then []
    else
      var r := Distinct(names[..|names| - 1]);
      var n := names[|names| - 1];
      if n in r then r else r + [n]
  }

  /** Dropping blanks keeps the input order: filtering a concatenation is the
      concatenation of the filtered parts. */
  lemma {:induction false} NonBlankAppend(a: seq<string>, b: seq<string>)
    ensures NonBlank(a + b) == NonBlank(a) + NonBlank(b)
    decreases |b|
  {
    if b == [] {
      assert a + b == a;
    } else {
      var front := b[..|b| - 1];
      assert (a + b)[..|a + b| - 1] == a + front && (a + b)[|a + b| - 1] == b[|b| - 1];
      NonBlankAppend(a, front);
    }
  }

  /** The weapon list every flip evaluator works through. */
  function UniqueNames(names: seq<string>): (r: seq<string>)
    ensures forall n :: n in r <==> n in names && n != ""
    ensures forall i, j :: 0 <= i < j < |r| ==> r[i] != r[j]
  {
    Distinct(NonBlank(names))
  }

  /** Index of the first occurrence of `x` in `s`. */
  function FirstIndex<T(==)>(s: seq<T>, x: T): (k: nat)
    requires x in s
    ensures k < |s| && s[k] == x && x !in s[..k]
  {
    if s[0] == x then 0 else 1 + FirstIndex(s[1..], x)
  }

  lemma {:induction false} FirstIndexPrefix<T>(s: seq<T>, n: nat, x: T)
    requires n <= |s| && x in s[..n]
    ensures FirstIndex(s, x) == FirstIndex(s[..n], x)
  {
    if s[0] != x {
      assert s[1..][..n - 1] == s[..n][1..];
      FirstIndexPrefix(s[1..], n - 1, x);
    }
  }

  /** De-duplication keeps the order in which names first occur. */
  lemma {:induction false} DistinctKeepsFirstOrder(names: seq<string>)
    ensures forall i, j :: 0 <= i < j < |Distinct(names)| ==>
      FirstIndex(names, Distinct(names)[i]) < FirstIndex(names, Distinct(names)[j])
  {
    if names != [] {
      var p := names[..|names| - 1];
      var n := names[|names| - 1];
      var q := Distinct(p);
      DistinctKeepsFirstOrder(p);
      var r := Distinct(names);
      forall i, j | 0 <= i < j < |r|
        ensures FirstIndex(names, r[i]) < FirstIndex(names, r[j])
      {
        assert names[..|p|] == p;
        assert r[i] == q[i] && r[i] in p;
        FirstIndexPrefix(names, |p|, r[i]);
        if j < |q| {
          assert r[j] == q[j] && r[j] in p;
          FirstIndexPrefix(names, |p|, r[j]);
          assert FirstIndex(p, q[i]) < FirstIndex(p, q[j]);
        } else {
          assert r[j] == n && n !in p;
          assert FirstIndex(p, r[i]) < |p|;
        }
      }
    }
  }

  /** Dropping blanks keeps the order in which names first occur. */
  lemma {:induction false} NonBlankKeepsFirstOrder(names: seq<string>, x: string, y: string)
    requires x in NonBlank(names) && y in NonBlank(names)
    requires FirstIndex(NonBlank(names), x) < FirstIndex(NonBlank(names), y)
    ensures FirstIndex(names, x) < FirstIndex(names, y)
  {
    var p := names[..|names| - 1];
    var q := NonBlank(p);
    var nb := NonBlank(names);
    assert names[..|p|] == p && nb[..|q|] == q;
    if y in q {
      FirstIndexPrefix(nb, |q|, y);
      assert x in q;
      FirstIndexPrefix(nb, |q|, x);
      NonBlankKeepsFirstOrder(p, x, y);
      FirstIndexPrefix(names, |p|, x);
      FirstIndexPrefix(names, |p|, y);
    } else {
      assert y == names[|names| - 1] && y !in p;
      assert FirstIndex(names, y) == |p|;
      assert x in q;
      FirstIndexPrefix(names, |p|, x);
    }
  }

  /** The weapon list keeps the order in which names first occur in the input. */
  lemma UniqueNamesKeepsFirstOrder(names: seq<string>)
    ensures forall i, j :: 0 <= i < j < |UniqueNames(names)| ==>
      FirstIndex(names, UniqueNames(names)[i]) < FirstIndex(names, UniqueNames(names)[j])
  {
    var nb := NonBlank(names);
    var r := UniqueNames(names);
    DistinctKeepsFirstOrder(nb);
    forall i, j | 0 <= i < j < |r|
      ensures FirstIndex(names, r[i]) < FirstIndex(names, r[j])
    {
      NonBlankKeepsFirstOrder(names, r[i], r[j]);
    }
  }

  // ---------------------------------------------------------------------------
  // Price units

  /** The buy side of a record: `buyKeyHalfScrap if buyKeys else buyHalfScrap`. */
  function BuyValue(p: PriceRecord): int {
    if p.buyKeys != 0 then p.buyKeyHalfScrap else p.buyHalfScrap
  }

  /** The sell side of a record: `sellKeyHalfScrap if sellKeys else sellHalfScrap`. */
  function SellValue(p: PriceRecord): int {
    if p.sellKeys != 0 then p.sellKeyHalfScrap else p.sellHalfScrap
  }

  /** `quality += " "` when the quality is not empty. */
  function Spaced(quality: string): string {
    if quality != "" then quality + " " else quality
  }

  /** What a call adds after a first stretch `h` and a nested call's `s`. */
  lemma JoinTrace(a: seq<Event>, h: seq<Event>, m: seq<Event>, s: seq<Event>, t: seq<Event>)
    requires m == a + h && t == m + s
    ensures t == a + (h + s)
  {
  }
}
