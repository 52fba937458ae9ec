/** The listing selection of `sort_listings`: which marketplace offers are
    eligible, the loop that collects them, and which one is picked. main4.py and
    mainv3.py share the same code (`int(defindex)`, cheapest sell / dearest buy);
    mainv2.py compares `defindex` without converting it and always takes the
    dearest offer. */
module Listings {
  import opened Common
  import opened Sorting

  /** The attribute codes the flip evaluators ban (1004 to 1009). */
  const BannedCodes: seq<int> := [1004, 1005, 1006, 1007, 1008, 1009]

  /** `int(attribute['defindex']) in banned` when `toInt`, else `attribute['defindex'] in banned`. */
  predicate IsBanned(d: DefIndex, banned: seq<int>, toInt: bool) {
    (toInt || d.IntCode?) && d.code in banned
  }

  /** `True in [... for attribute in listing['item']['attributes']]`. */
  predicate HasBanned(l: Listing, banned: seq<int>, toInt: bool) {
    exists i :: 0 <= i < |l.attributes| && IsBanned(l.attributes[i], banned, toInt)
  }

  /** A listing the loop keeps: the wanted intent, no banned attribute, not in usd. */
  predicate Eligible(l: Listing, intent: string, banned: seq<int>, toInt: bool) {
    l.intent == intent && !HasBanned(l, banned, toInt) && "usd" !in l.currencies
  }

  /** `valid_listings` after the loop: the eligible listings, in input order. */
  function Survivors(listings: seq<Listing>, intent: string, banned: seq<int>, toInt: bool): (valid: seq<Listing>)
    ensures forall l :: l in valid ==> l in listings && Eligible(l, intent, banned, toInt)
    ensures forall l :: l in listings && Eligible(l, intent, banned, toInt) ==> l in valid
    ensures |valid| <= |listings|
  {
    if listings == [] then []
    else
      var last := listings[|listings| - 1];
      var front := listings[..|listings| - 1];
      assert listings == front + [last];
      Survivors(front, intent, banned, toInt) + (if Eligible(last, intent, banned, toInt) then [last] else [])
  }

  /** The filter keeps the input order: filtering a concatenation filters
      each part, and a single listing stays exactly when it is eligible. */
  lemma {:induction false} SurvivorsAppend(a: seq<Listing>, b: seq<Listing>, intent: string, banned: seq<int>, toInt: bool)
    ensures Survivors(a + b, intent, banned, toInt) == Survivors(a, intent, banned, toInt) + Survivors(b, intent, banned, toInt)
    decreases |b|
  {
    if b == [] {
      assert a + b == a;
    } else {
      var front, last := b[..|b| - 1], b[|b| - 1];
      assert (a + b)[..|a + b| - 1] == a + front;
      assert (a + b)[|a + b| - 1] == last;
      SurvivorsAppend(a, front, intent, banned, toInt);
    }
  }

  lemma SurvivorsOne(l: Listing, intent: string, banned: seq<int>, toInt: bool)
    ensures Survivors([l], intent, banned, toInt) == if Eligible(l, intent, banned, toInt) then [l] else []
  {
    assert [l][..0] == [];
  }

  /** Whether an attribute list holds a banned code: the comprehension's loop. */
  method AnyBanned(attributes: seq<DefIndex>, banned: seq<int>, toInt: bool) returns (found: bool)
    ensures found <==> exists i :: 0 <= i < |attributes| && IsBanned(attributes[i], banned, toInt)
  {
    found := false;
    var i := 0;
    while i < |attributes|
      invariant 0 <= i <= |attributes|
      invariant found <==> exists k :: 0 <= k < i && IsBanned(attributes[k], banned, toInt)
    {
      if IsBanned(attributes[i], banned, toInt) {
        found := true;
      }
      i := i + 1;
    }
  }

  /** The `for listing in listings` loop of `sort_listings`, which appends every
      eligible listing to `valid_listings`. */
  method Collect(listings: seq<Listing>, intent: string, banned: seq<int>, toInt: bool) returns (valid: seq<Listing>)
    ensures valid == Survivors(listings, intent, banned, toInt)
  {
    valid := [];
    var i := 0;
    while i < |listings|
      invariant 0 <= i <= |listings|
      invariant valid == Survivors(listings[..i], intent, banned, toInt)
    {
      var listing := listings[i];
      assert listings[..i + 1][..i] == listings[..i];
      if listing.intent == intent {
        var hit := AnyBanned(listing.attributes, banned, toInt);
        if !hit && "usd" !in listing.currencies {
          valid := valid + [listing];
        }
      }
      i := i + 1;
    }
    assert listings[..i] == listings;
  }

  function Price(l: Listing): int {
    l.price
  }

  /** What main4.py and mainv3.py return from the survivors:
      `sorted(valid, key=price)[0]` for 'sell', `[-1]` for 'buy', None otherwise. */
  function PickBest(valid: seq<Listing>, intent: string): Option<Listing> {
    if valid == [] then None
    else if intent == "sell" then Some(SortBy(valid, Price)[0])
    else if intent == "buy" then
      var sorted := SortBy(valid, Price);
      Some(sorted[|sorted| - 1])
    else None
  }

  /** What mainv2.py returns from the survivors: `sorted(valid, reverse=True, key=price)[0]`. */
  function PickHighest(valid: seq<Listing>): Option<Listing> {
    if valid == [] then None else Some(SortByDesc(valid, Price)[0])
  }

  /** For 'sell' the pick is the cheapest survivor, the first one at that price. */
  lemma PickBestSell(valid: seq<Listing>)
    requires valid != []
    ensures PickBest(valid, "sell") == Some(valid[FirstMinIndex(valid, Price)])
  {
    SortByHead(valid, Price);
  }

  /** For 'buy' the pick is the dearest survivor, the last one at that price. */
  lemma PickBestBuy(valid: seq<Listing>)
    requires valid != []
    ensures PickBest(valid, "buy") == Some(valid[LastMaxIndex(valid, Price)])
  {
    SortByLast(valid, Price);
  }

  /** Any other intent, and an empty survivor list, give None. */
  lemma PickBestNone(valid: seq<Listing>, intent: string)
    ensures PickBest(valid, intent) == None <==> valid == [] || (intent != "sell" && intent != "buy")
  {
  }

  /** mainv2.py picks the dearest survivor whatever the intent, the first one at that price. */
  lemma PickHighestIsFirstMax(valid: seq<Listing>)
    requires valid != []
    ensures PickHighest(valid) == Some(valid[FirstMaxIndex(valid, Price)])
  {
    SortByDescHead(valid, Price);
  }

  /** `sort_listings` after its `grab_listings` call, in main4.py and mainv3.py:
      None when there are no listings, else the pick among the survivors. */
  function SelectBest(grabbed: Outcome<Option<seq<Listing>>>, intent: string, banned: seq<int>): Outcome<Option<Listing>> {
    match grabbed
    case Raised(f) => Raised(f)
    case Returned(None) => Returned(None)
    case Returned(Some(ls)) => Returned(PickBest(Survivors(ls, intent, banned, true), intent))
  }

  /** The same for mainv2.py. */
  function SelectHighest(grabbed: Outcome<Option<seq<Listing>>>, intent: string, banned: seq<int>): Outcome<Option<Listing>> {
    match grabbed
    case Raised(f) => Raised(f)
    case Returned(None) => Returned(None)
    case Returned(Some(ls)) => Returned(PickHighest(Survivors(ls, intent, banned, false)))
  }

  /** Whatever main4.py and mainv3.py select is an eligible listing of the snapshot:
      for 'sell' the first survivor at the lowest price, for 'buy' the last
      survivor at the highest price. */
  lemma {:induction false} SelectBestSound(ls: seq<Listing>, intent: string, banned: seq<int>, l: Listing)
    requires SelectBest(Returned(Some(ls)), intent, banned) == Returned(Some(l))
    ensures l in ls && Eligible(l, intent, banned, true)
    ensures intent == "sell" || intent == "buy"
    ensures var v := Survivors(ls, intent, banned, true);
      && (intent == "sell" ==> l == v[FirstMinIndex(v, Price)] && forall j :: 0 <= j < |v| ==> l.price <= v[j].price)
      && (intent == "buy" ==> l == v[LastMaxIndex(v, Price)] && forall j :: 0 <= j < |v| ==> l.price >= v[j].price)
  {
    var v := Survivors(ls, intent, banned, true);
    var key: Listing -> int := Price;
    if intent == "sell" {
      PickBestSell(v);
      assert forall j :: 0 <= j < |v| ==> key(v[j]) == v[j].price;
    } else {
      PickBestBuy(v);
      assert forall j :: 0 <= j < |v| ==> key(v[j]) == v[j].price;
    }
  }

  /** Whatever mainv2.py selects is a listing of the snapshot with the wanted intent,
      no banned `defindex` number and no usd price: the first survivor at the
      highest price. */
  lemma {:induction false} SelectHighestSound(ls: seq<Listing>, intent: string, banned: seq<int>, l: Listing)
    requires SelectHighest(Returned(Some(ls)), intent, banned) == Returned(Some(l))
    ensures l in ls && Eligible(l, intent, banned, false)
    ensures var v := Survivors(ls, intent, banned, false);
      l == v[FirstMaxIndex(v, Price)] && forall j :: 0 <= j < |v| ==> l.price >= v[j].price
  {
    var v := Survivors(ls, intent, banned, false);
    var key: Listing -> int := Price;
    PickHighestIsFirstMax(v);
    assert forall j :: 0 <= j < |v| ==> key(v[j]) == v[j].price;
  }

  /** Selection yields None exactly when the snapshot is missing or nothing
      survives the filters (or, for main4.py and mainv3.py, the intent is neither
      'sell' nor 'buy'). */
  lemma SelectNone(grabbed: Outcome<Option<seq<Listing>>>, intent: string, banned: seq<int>)
    requires grabbed.Returned?
    ensures SelectBest(grabbed, intent, banned) == Returned(None) <==>
      grabbed.value.None? || Survivors(grabbed.value.value, intent, banned, true) == [] || (intent != "sell" && intent != "buy")
    ensures SelectHighest(grabbed, intent, banned) == Returned(None) <==>
      grabbed.value.None? || Survivors(grabbed.value.value, intent, banned, false) == []
  {
  }

  /** The one place the versions' filters disagree. The `int()` filter of
      main4.py and mainv3.py is the stricter one: every listing it keeps,
      mainv2.py keeps too, and the listings only mainv2.py keeps are exactly
      those with a banned code that the JSON carries as a string. */
  lemma IntFilterStricter(l: Listing, intent: string, banned: seq<int>)
    ensures Eligible(l, intent, banned, true) ==> Eligible(l, intent, banned, false)
    ensures Eligible(l, intent, banned, false) && !Eligible(l, intent, banned, true) <==>
      Eligible(l, intent, banned, false)
      && exists k :: 0 <= k < |l.attributes| && l.attributes[k].TextCode? && l.attributes[k].code in banned
  {
  }

  /** The divergence happens: a banned code sent as a string is dropped by
      `int()` but kept by mainv2.py. */
  lemma TextCodeOnlyCaughtByInt()
    ensures var l := Listing("sell", 10, ["metal"], [TextCode(1004)]);
      !Eligible(l, "sell", BannedCodes, true) && Eligible(l, "sell", BannedCodes, false)
  {
    var l := Listing("sell", 10, ["metal"], [TextCode(1004)]);
    assert IsBanned(l.attributes[0], BannedCodes, true);
  }

  /** The two `sort_listings` results a flip evaluator gets for one weapon: the
      kit's 'sell' offer and the weapon's 'buy' offer. */
  datatype OfferPair = OfferPair(kit: Option<Listing>, weapon: Option<Listing>)

  /** `weapon_listing['price'] - kit_listing['price']`, or None when either
      lookup gave None. */
  function ListingProfit(p: OfferPair): Option<int> {
    if p.kit.None? || p.weapon.None? then None else Some(p.weapon.value.price - p.kit.value.price)
  }
}
