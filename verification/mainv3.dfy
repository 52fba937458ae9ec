/** mainv3.py: the `PriceGrabber` with the pricing oracle and the marketplace.
    `check_price` starts from `price = None`; `get_killstreak_flipping` ranks
    profit bands from oracle prices; `grab_listings` requests a snapshot again
    when it is for another item; `validate_killstreak_flipping` re-checks a band
    list against marketplace offers. */
module MainV3 {
  import opened Common
  import opened Sorting
  import opened Oracle
  import opened Listings
  import opened FlipLists

  /** The default `retries` of `grab_listings`. */
  const DefaultRetries: int := 3

  // ---------------------------------------------------------------------------
  // grab_listings

  /** The outcome of `grab_listings`, the replies left and the events sent. */
  datatype GrabRun = GrabRun(result: Outcome<Option<seq<Listing>>>, rest: seq<SnapshotReply>, events: seq<Event>)

  /** `grab_listings(name, retries, fails)`. Only a 200 binds `response`. A
      failed request gives None when `retries <= 0`; otherwise it calls itself
      with one retry less, discards what that returns, and then reads the
      unbound `response`. A snapshot of another item sleeps 5 s and calls
      itself with the default budget; one of the right item gives its
      "listings" (KeyError without them). */
  function GrabListingsRun(name: string, retries: int, replies: seq<SnapshotReply>): (run: GrabRun)
    ensures |run.rest| <= |replies|
    decreases |replies|
  {
    if replies == [] then GrabRun(Raised(NoReply), [], [SnapshotGet(name)])
    else
      var reply := replies[0];
      var head := [SnapshotGet(name)] + Backoff(reply);
      if !IsOk(reply.status) then
        if retries > 0 then
          var sub := GrabListingsRun(name, retries - 1, replies[1..]);
          GrabRun(if sub.result.Raised? then sub.result else Raised(UnboundLocal), sub.rest, head + sub.events)
        else
          GrabRun(Returned(None), replies[1..], head)
      else if reply.status != 200 then
        GrabRun(Raised(UnboundLocal), replies[1..], head)
      else if reply.sku != name then
        var sub := GrabListingsRun(name, DefaultRetries, replies[1..]);
        GrabRun(sub.result, sub.rest, head + [Wait(5000)] + sub.events)
      else
        GrabRun(if reply.listings.Some? then Returned(reply.listings) else Raised(MissingKey), replies[1..], head)
  }

  /** A failed request with retries left always ends in an exception: the
      retry's own, or the read of the unbound `response` after it. */
  lemma RetryRaises(name: string, retries: int, replies: seq<SnapshotReply>)
    requires replies != [] && !IsOk(replies[0].status) && retries > 0
    ensures var run := GrabListingsRun(name, retries, replies);
      var sub := GrabListingsRun(name, retries - 1, replies[1..]);
      && run.result.Raised?
      && run.result.fault == (if sub.result.Raised? then sub.result.fault else UnboundLocal)
      && run.rest == sub.rest
  {
  }

  /** A failed request with no retries left gives None after that one request. */
  lemma NoBudgetGivesNone(name: string, retries: int, replies: seq<SnapshotReply>)
    requires replies != [] && !IsOk(replies[0].status) && retries <= 0
    ensures var run := GrabListingsRun(name, retries, replies);
      run.result == Returned(None) && run.rest == replies[1..] && CountIf(run.events, IsSnapshotGet) == 1
  {
    HeadRequestsOnce(name, replies[0]);
  }

  /** A snapshot of another item sleeps 5 s and is requested again with the
      full default budget, whatever was left. */
  lemma MismatchResetsBudget(name: string, retries: int, replies: seq<SnapshotReply>)
    requires replies != [] && replies[0].status == 200 && replies[0].sku != name
    ensures var run := GrabListingsRun(name, retries, replies);
      var sub := GrabListingsRun(name, DefaultRetries, replies[1..]);
      && run.result == sub.result && run.rest == sub.rest
      && run.events == [SnapshotGet(name), Wait(5000)] + sub.events
  {
  }

  /** A call that retries a failure requests once more than its retry. */
  lemma RequestsOfRetry(name: string, retries: int, replies: seq<SnapshotReply>)
    requires replies != [] && !IsOk(replies[0].status) && retries > 0
    ensures CountIf(GrabListingsRun(name, retries, replies).events, IsSnapshotGet)
      == 1 + CountIf(GrabListingsRun(name, retries - 1, replies[1..]).events, IsSnapshotGet)
  {
    var sub := GrabListingsRun(name, retries - 1, replies[1..]);
    HeadRequestsOnce(name, replies[0]);
    CountIfAppend([SnapshotGet(name)] + Backoff(replies[0]), sub.events, IsSnapshotGet);
  }

  /** While every snapshot is of the requested item, a call sends at most
      `retries + 1` requests (one when `retries` is not positive). */
  lemma {:induction false} RequestsBounded(name: string, retries: int, replies: seq<SnapshotReply>)
    requires forall i :: 0 <= i < |replies| ==> replies[i].sku == name
    ensures CountIf(GrabListingsRun(name, retries, replies).events, IsSnapshotGet) <= if retries < 0 then 1 else retries + 1
    decreases |replies|
  {
    if replies == [] {
      assert [SnapshotGet(name)][1..] == [];
    } else if !IsOk(replies[0].status) && retries > 0 {
      RequestsBounded(name, retries - 1, replies[1..]);
      RequestsOfRetry(name, retries, replies);
    } else {
      assert replies[0].sku == name;
      HeadRequestsOnce(name, replies[0]);
    }
  }

  /** How a returning call ended: None only after a failed request, listings
      only from a 200 snapshot of the requested item that has them. In both
      cases it is the last reply consumed. */
  predicate EndedBy(name: string, replies: seq<SnapshotReply>, run: GrabRun) {
    run.result.Returned? ==>
      && |run.rest| < |replies|
      && var last := replies[|replies| - |run.rest| - 1];
      && (run.result.value.None? ==> !IsOk(last.status))
      && (run.result.value.Some? ==> last.status == 200 && last.sku == name && last.listings == run.result.value)
  }

  lemma {:induction false} ReturnedFromLastReply(name: string, retries: int, replies: seq<SnapshotReply>)
    ensures EndedBy(name, replies, GrabListingsRun(name, retries, replies))
    decreases |replies|
  {
    if replies != [] {
      var reply := replies[0];
      var tail := replies[1..];
      var run := GrabListingsRun(name, retries, replies);
      if IsOk(reply.status) && reply.status == 200 && reply.sku != name {
        var sub := GrabListingsRun(name, DefaultRetries, tail);
        ReturnedFromLastReply(name, DefaultRetries, tail);
        if sub.result.Returned? {
          assert tail[|tail| - |sub.rest| - 1] == replies[|replies| - |run.rest| - 1];
        }
      }
    }
  }

  // ---------------------------------------------------------------------------
  // sort_listings as a function of the marketplace

  /** `sort_listings(intent, name, banned_attributes=(1004, ..., 1009))` from
      the marketplace state `st`. */
  function Offer(intent: string, name: string, st: Shop): (Outcome<Option<Listing>>, Shop) {
    var run := GrabListingsRun(name, DefaultRetries, st.replies);
    (SelectBest(run.result, intent, BannedCodes), Shop(run.rest, st.events + run.events))
  }

  // ---------------------------------------------------------------------------
  // validate_killstreak_flipping's result

  /** The weapon names of a band list, in order: `profit[0]` for each entry. */
  function Weapons(bands: seq<BandEntry>): (r: seq<string>)
    ensures |r| == |bands| && forall i :: 0 <= i < |bands| ==> r[i] == bands[i].weapon
  {
    seq(|bands|, i requires 0 <= i < |bands| => bands[i].weapon)
  }

  /** `confirmed_profits.sort(reverse=True, key=lambda item: item[1][0])`: the
      key indexes an int, so the sort raises as soon as one entry is keyed; an
      empty list is left as it is. */
  function SortByBandMinimum(confirmed: seq<ProfitEntry>): Outcome<seq<ProfitEntry>> {
    if confirmed == [] then Returned([]) else Raised(NotSubscriptable)
  }

  /** Once its lookups are done without an exception,
      `validate_killstreak_flipping` raises exactly when some weapon had both
      offers, and otherwise returns the empty list. */
  lemma ValidationOutcome(weapons: seq<string>, pairs: seq<OfferPair>)
    requires |weapons| == |pairs|
    ensures var r := SortByBandMinimum(Kept(ProfitsOf(weapons, pairs)));
      && (r.Raised? <==> exists i :: 0 <= i < |pairs| && pairs[i].kit.Some? && pairs[i].weapon.Some?)
      && (r.Returned? ==> r.value == [])
  {
    var kept := Kept(ProfitsOf(weapons, pairs));
    if exists i :: 0 <= i < |pairs| && pairs[i].kit.Some? && pairs[i].weapon.Some? {
      var i :| 0 <= i < |pairs| && pairs[i].kit.Some? && pairs[i].weapon.Some?;
      var e := ProfitEntry(weapons[i], pairs[i].weapon.value.price - pairs[i].kit.value.price);
      ProfitsMembers(weapons, pairs, e);
    }
    if kept != [] {
      ProfitsMembers(weapons, pairs, kept[0]);
    }
  }

  // ---------------------------------------------------------------------------
  // The classes

  /** A caller's `[weapon, [low, high]]` list, which
      `validate_killstreak_flipping` sorts in place. */
  class BandList {
    var items: seq<BandEntry>

    constructor (items: seq<BandEntry>)
      ensures this.items == items
    {
      this.items := items;
    }

    /** `list.sort(reverse=True, key=lambda item: item[1][0])`. */
    method SortByLow()
      modifies this
      ensures items == SortByDesc(old(items), Low)
    {
      items := SortByDesc(items, Low);
    }
  }

  class PriceGrabber {
    /** `sku.parser.Sku.name_to_sku`. */
    const skuOf: string -> string
    /** `date.today()` at construction, as a day number. */
    const today: int
    const daysUntilOld: int

    /** The generation of `price_auth_token`: one per auth POST. */
    var priceAuthToken: nat
    /** The replies the pricing oracle and the marketplace will give, in order. */
    var oracle: seq<PriceReply>
    var market: seq<SnapshotReply>
    /** Every request sent and every sleep, in order. */
    var trace: seq<Event>

    function Config(): Settings {
      Settings(skuOf, today, daysUntilOld)
    }

    function Oracle(): OracleState
      reads this
    {
      OracleState(priceAuthToken, oracle, trace)
    }

    function Market(): Shop
      reads this
    {
      Shop(market, trace)
    }

    /** The token is replaced once per auth POST, and by nothing else. */
    ghost predicate Valid()
      reads this
    {
      priceAuthToken == CountIf(trace, IsAuth)
    }

    /** `__init__`: fetches the first auth token. */
    constructor (skuOf: string -> string, today: int, daysUntilOld: int, oracle: seq<PriceReply>, market: seq<SnapshotReply>)
      ensures this.skuOf == skuOf && this.today == today && this.daysUntilOld == daysUntilOld
      ensures this.oracle == oracle && this.market == market
      ensures priceAuthToken == 1 && trace == [AuthPost]
      ensures Valid()
    {
      this.skuOf := skuOf;
      this.today := today;
      this.daysUntilOld := daysUntilOld;
      this.oracle := oracle;
      this.market := market;
      priceAuthToken := 1;
      trace := [AuthPost];
      new;
      assert trace[1..] == [];
    }

    /** A request or sleep whose reply only the caller looks at. */
    method Send(e: Event)
      requires Valid() && !e.AuthPost?
      modifies this
      ensures trace == old(trace) + [e] && priceAuthToken == old(priceAuthToken)
      ensures oracle == old(oracle) && market == old(market)
      ensures Valid()
    {
      CountIfAppend(trace, [e], IsAuth);
      assert [e][1..] == [];
      trace := trace + [e];
    }

    /** `request_price_auth`: the auth POST, which gives the next token. */
    method RequestPriceAuth()
      requires Valid()
      modifies this
      ensures trace == old(trace) + [AuthPost] && priceAuthToken == old(priceAuthToken) + 1
      ensures oracle == old(oracle) && market == old(market)
      ensures Valid()
    {
      CountIfAppend(trace, [AuthPost], IsAuth);
      assert [AuthPost][1..] == [];
      priceAuthToken := priceAuthToken + 1;
      trace := trace + [AuthPost];
    }

    /** The `match page.status_code` of `check_price`: a 200 binds `price` and
        may ask for a refresh, a 401 fetches a new token, a 404 asks for a
        refresh and sets `retries = 0`, a 429 sleeps `retry-after` milliseconds. */
    method React(path: string, rqUpdate: bool, page: PriceReply, retries: int) returns (price: Option<PriceRecord>, left: int)
      requires Valid()
      modifies this
      ensures trace == old(trace) + Reaction(Config(), path, rqUpdate, page)
      ensures priceAuthToken == if page.status == 401 then old(priceAuthToken) + 1 else old(priceAuthToken)
      ensures price == (if page.status == 200 then Some(page.record) else None)
      ensures left == if page.status == 404 then 0 else retries
      ensures oracle == old(oracle) && market == old(market)
      ensures Valid()
    {
      price, left := None, retries;
      match page.status {
        case 200 =>
          price := Some(page.record);
          if rqUpdate && today > page.record.updatedAt + daysUntilOld {
            Send(RefreshPost(path));
          } else {
            assert old(trace) + [] == trace;
          }
        case 401 =>
          RequestPriceAuth();
        case 404 =>
          Send(RefreshPost(path));
          left := 0;
        case 429 =>
          Send(Wait(page.retryAfterMs));
        case _ =>
          assert old(trace) + [] == trace;
      }
    }

    /** `check_price(name, item_sku, retries, rq_update)`: a name, when given,
        decides the sku; without either, `None.replace` raises. */
    method CheckPrice(name: string, itemSku: Option<string>, retries: int, rqUpdate: bool) returns (r: Outcome<Option<PriceRecord>>)
      requires Valid()
      modifies this
      ensures var run := CheckPriceRun(PriceStartsNone, Config(), name, itemSku, retries, rqUpdate, old(priceAuthToken), old(oracle));
        r == run.result && priceAuthToken == run.token && oracle == run.rest && trace == old(trace) + run.events
      ensures market == old(market)
      ensures Valid()
    {
      var sku := itemSku;
      if name != "" {
        sku := Some(skuOf(name));
      }
      if sku.None? {
        assert trace == old(trace) + [];
        return Raised(NoneAttribute);
      }
      r := PriceAttempts(sku.value, retries, rqUpdate);
    }

    /** The body of `check_price` once `item_sku` is set; `price` starts as None.
        Its retry passes the same name and the sku it resolved to, so it
        resolves to that sku again; the recursion is written on the sku. */
    method PriceAttempts(sku: string, retries: int, rqUpdate: bool) returns (r: Outcome<Option<PriceRecord>>)
      requires Valid()
      modifies this
      ensures var run := Attempts(PriceStartsNone, Config(), sku, retries, rqUpdate, old(priceAuthToken), old(oracle));
        r == run.result && priceAuthToken == run.token && oracle == run.rest && trace == old(trace) + run.events
      ensures market == old(market)
      ensures Valid()
      decreases |oracle|
    {
      var path := Quote(sku);
      ghost var cfg, token0, replies0 := Config(), priceAuthToken, oracle;
      Send(PriceGet(path));
      if oracle == [] {
        return Raised(NoReply);
      }
      var page := oracle[0];
      oracle := oracle[1..];
      var price, left := React(path, rqUpdate, page, retries);
      ghost var head := [PriceGet(path)] + Reaction(cfg, path, rqUpdate, page);
      assert trace == old(trace) + head;
      if !IsOk(page.status) && left != 0 {
        ghost var mid := trace;
        RetryOutcome(PriceStartsNone, cfg, sku, retries, rqUpdate, token0, replies0);
        ghost var sub := Attempts(PriceStartsNone, cfg, sku, retries - 1, rqUpdate, priceAuthToken, oracle);
        assert left - 1 == retries - 1;
        r := PriceAttempts(sku, left - 1, rqUpdate);
        JoinTrace(old(trace), head, mid, sub.events, trace);
      } else {
        LastAttempt(PriceStartsNone, cfg, sku, retries, rqUpdate, token0, replies0);
        r := Returned(price);
      }
    }

    /** The two `check_price` calls of one weapon: the killstreak weapon's, then
        its kit's unless the first raised. */
    method PricePairOf(weaponName: string, kitName: string) returns (r: Outcome<PricePair>)
      requires Valid()
      modifies this
      ensures (r, Oracle()) == LookupPair(PriceStartsNone, Config(), (weaponName, kitName), old(Oracle()))
      ensures market == old(market)
      ensures Valid()
    {
      var weaponJson := CheckPrice(weaponName, None, 3, true);
      if weaponJson.Raised? {
        return Raised(weaponJson.fault);
      }
      var kitJson := CheckPrice(kitName, None, 3, true);
      if kitJson.Raised? {
        return Raised(kitJson.fault);
      }
      r := Returned(PricePair(weaponJson.value, kitJson.value));
    }

    /** One weapon of the `get_killstreak_flipping` loop, after the weapons
        `names[..i]` gave `pairs`. */
    method BandTurn(names: seq<string>, i: nat, quality: string, ghost pairs: seq<PricePair>, bands: seq<BandEntry>)
      returns (pair: Outcome<PricePair>, more: seq<BandEntry>)
      requires Valid()
      requires |pairs| == i < |names| && bands == Kept(BandsOf(names[..i], pairs))
      modifies this
      ensures (pair, Oracle()) == LookupPair(PriceStartsNone, Config(), BandQueries(names, quality)[i], old(Oracle()))
      ensures pair.Returned? ==> more == Kept(BandsOf(names[..i + 1], pairs + [pair.value]))
      ensures market == old(market)
      ensures Valid()
    {
      var weapon := names[i];
      pair := PricePairOf("Killstreak " + weapon, "Non-Craftable " + quality + " Killstreak " + weapon + " Kit");
      more := bands;
      if pair.Raised? {
        return;
      }
      more := AddBand(names, i, pairs, bands, pair.value);
    }

    /** The `for weapon in weapon_names` loop of `get_killstreak_flipping`: the
        band of every weapon with both records, in weapon order, or the first
        exception. */
    method BandLoop(names: seq<string>, quality: string) returns (r: Outcome<seq<BandEntry>>)
      requires Valid()
      modifies this
      ensures var run := LookupPairs(PriceStartsNone, Config(), BandQueries(names, quality), old(Oracle()));
        && Oracle() == run.state
        && (r.Raised? <==> run.result.Raised?)
        && (r.Raised? ==> r.fault == run.result.fault)
        && (r.Returned? ==> r.value == Kept(BandsOf(names, run.result.value)))
      ensures market == old(market)
      ensures Valid()
    {
      ghost var cfg, queries, start := Config(), BandQueries(names, quality), Oracle();
      ghost var pairs: seq<PricePair> := [];
      var bands: seq<BandEntry> := [];
      var i := 0;
      while i < |names|
        invariant 0 <= i <= |names| && |pairs| == i
        invariant LookupPairs(PriceStartsNone, cfg, queries[..i], start) == PairsRun(Returned(pairs), Oracle())
        invariant bands == Kept(BandsOf(names[..i], pairs))
        invariant market == old(market)
        invariant Valid()
      {
        LookupPairsNext(PriceStartsNone, cfg, queries, i, start);
        var pair;
        pair, bands := BandTurn(names, i, quality, pairs, bands);
        if pair.Raised? {
          LookupPairsStops(PriceStartsNone, cfg, queries, i + 1, start);
          return Raised(pair.fault);
        }
        pairs := pairs + [pair.value];
        i := i + 1;
      }
      assert queries[..i] == queries && names[..i] == names;
      r := Returned(bands);
    }

    /** `get_killstreak_flipping(quality)`: for every non-blank, first-seen
        weapon name, the band `[weapon_low - kit_high, weapon_high - kit_low]`
        from the oracle's records of the killstreak weapon and of its kit; the
        weapons with both records, by falling minimum. `weaponNames` are the
        lines of killstreakable_weapons_names.txt. */
    method GetKillstreakFlipping(weaponNames: seq<string>, quality: string) returns (r: Outcome<seq<BandEntry>>)
      requires Valid()
      modifies this
      ensures var names := UniqueNames(weaponNames);
        var run := LookupPairs(PriceStartsNone, Config(), BandQueries(names, quality), old(Oracle()));
        && Oracle() == run.state
        && (r.Raised? <==> run.result.Raised?)
        && (r.Raised? ==> r.fault == run.result.fault)
        && (r.Returned? ==> r.value == RankedBands(names, run.result.value))
      ensures market == old(market)
      ensures Valid()
    {
      var names := UniqueNames(weaponNames);
      var bands := BandLoop(names, quality);
      if bands.Raised? {
        return bands;
      }
      r := Returned(SortByDesc(bands.value, Low));
    }

    /** One snapshot request and, after a 429, the sleep. None when no reply came. */
    method Fetch(itemName: string) returns (page: Option<SnapshotReply>)
      requires Valid()
      modifies this
      ensures old(market) == [] ==> page.None? && market == [] && trace == old(trace) + [SnapshotGet(itemName)]
      ensures old(market) != [] ==>
        && page == Some(old(market)[0]) && market == old(market)[1..]
        && trace == old(trace) + ([SnapshotGet(itemName)] + Backoff(old(market)[0]))
      ensures priceAuthToken == old(priceAuthToken) && oracle == old(oracle)
      ensures Valid()
    {
      Send(SnapshotGet(itemName));
      if market == [] {
        return None;
      }
      var reply := market[0];
      market := market[1..];
      if reply.status == 429 {
        Send(Wait(reply.retryAfterS * 1000));
      } else {
        assert trace == old(trace) + ([SnapshotGet(itemName)] + []);
      }
      page := Some(reply);
    }

    /** `grab_listings(item_name, retries, fails)`; `fails` is only printed. */
    method GrabListings(itemName: string, retries: int) returns (r: Outcome<Option<seq<Listing>>>)
      requires Valid()
      modifies this
      ensures var run := GrabListingsRun(itemName, retries, old(market));
        r == run.result && market == run.rest && trace == old(trace) + run.events
      ensures priceAuthToken == old(priceAuthToken) && oracle == old(oracle)
      ensures Valid()
      decreases |market|
    {
      var fetched := Fetch(itemName);
      if fetched.None? {
        return Raised(NoReply);
      }
      var page := fetched.value;
      ghost var head := [SnapshotGet(itemName)] + Backoff(page);
      // `response`, None while unbound
      var response: Option<SnapshotReply> := None;
      if page.status == 200 {
        response := Some(page);
      }
      if !IsOk(page.status) {
        if retries > 0 {
          ghost var mid := trace;
          ghost var sub := GrabListingsRun(itemName, retries - 1, market);
          var listings := GrabListings(itemName, retries - 1);
          JoinTrace(old(trace), head, mid, sub.events, trace);
          if listings.Raised? {
            return listings;
          }
        } else {
          return Returned(None);
        }
      }
      if response.None? {
        return Raised(UnboundLocal);
      }
      if response.value.sku != itemName {
        Send(Wait(5000));
        ghost var mid := trace;
        ghost var sub := GrabListingsRun(itemName, DefaultRetries, market);
        r := GrabListings(itemName, DefaultRetries);
        JoinTrace(old(trace), head + [Wait(5000)], mid, sub.events, trace);
        return;
      }
      if response.value.listings.None? {
        return Raised(MissingKey);
      }
      r := Returned(response.value.listings);
    }

    /** `sort_listings(intent, item_name, banned_attributes)`: grabs the snapshot,
        keeps the eligible listings and picks the cheapest 'sell' or the dearest
        'buy' offer. */
    method SortListings(intent: string, itemName: string, banned: seq<int>) returns (r: Outcome<Option<Listing>>)
      requires Valid()
      modifies this
      ensures var run := GrabListingsRun(itemName, DefaultRetries, old(market));
        r == SelectBest(run.result, intent, banned) && market == run.rest && trace == old(trace) + run.events
      ensures priceAuthToken == old(priceAuthToken) && oracle == old(oracle)
      ensures Valid()
    {
      var listings := GrabListings(itemName, DefaultRetries);
      if listings.Raised? {
        return Raised(listings.fault);
      }
      if listings.value.None? {
        return Returned(None);
      }
      var valid := Collect(listings.value.value, intent, banned, true);
      if valid != [] {
        if intent == "sell" {
          return Returned(Some(SortBy(valid, Price)[0]));
        }
        if intent == "buy" {
          var sorted := SortBy(valid, Price);
          return Returned(Some(sorted[|sorted| - 1]));
        }
      }
      r := Returned(None);
    }

    /** The two `sort_listings` calls of one weapon: the kit's 'sell' offer,
        then the weapon's 'buy' offer. */
    method OfferPairOf(kitName: string, weaponName: string) returns (r: Outcome<OfferPair>)
      requires Valid()
      modifies this
      ensures (r, Market()) == PairOffers(Offer, (kitName, weaponName), old(Market()))
      ensures priceAuthToken == old(priceAuthToken) && oracle == old(oracle)
      ensures Valid()
    {
      var kitListing := SortListings("sell", kitName, BannedCodes);
      if kitListing.Raised? {
        return Raised(kitListing.fault);
      }
      var weaponListing := SortListings("buy", weaponName, BannedCodes);
      if weaponListing.Raised? {
        return Raised(weaponListing.fault);
      }
      r := Returned(OfferPair(kitListing.value, weaponListing.value));
    }

    /** One weapon of the `validate_killstreak_flipping` loop, after the
        weapons `names[..i]` gave `pairs`. */
    method ProfitTurn(names: seq<string>, i: nat, q: string, ghost pairs: seq<OfferPair>, profits: seq<ProfitEntry>)
      returns (pair: Outcome<OfferPair>, more: seq<ProfitEntry>)
      requires Valid()
      requires |pairs| == i < |names| && profits == Kept(ProfitsOf(names[..i], pairs))
      modifies this
      ensures (pair, Market()) == PairOffers(Offer, OfferQueries(names, q)[i], old(Market()))
      ensures pair.Returned? ==> more == Kept(ProfitsOf(names[..i + 1], pairs + [pair.value]))
      ensures priceAuthToken == old(priceAuthToken) && oracle == old(oracle)
      ensures Valid()
    {
      var weapon := names[i];
      pair := OfferPairOf("Non-Craftable " + q + "Killstreak " + weapon + " Kit", q + "Killstreak " + weapon);
      more := profits;
      if pair.Raised? {
        return;
      }
      more := AddProfit(names, i, pairs, profits, pair.value);
    }

    /** The `for profit in profits` loop of `validate_killstreak_flipping`, `q`
        the spaced quality: the profit of every weapon with both offers, in
        list order, or the first exception. */
    method ProfitLoop(names: seq<string>, q: string) returns (r: Outcome<seq<ProfitEntry>>)
      requires Valid()
      modifies this
      ensures var run := LookupOffers(Offer, OfferQueries(names, q), old(Market()));
        && Market() == run.state
        && (r.Raised? <==> run.result.Raised?)
        && (r.Raised? ==> r.fault == run.result.fault)
        && (r.Returned? ==> r.value == Kept(ProfitsOf(names, run.result.value)))
      ensures priceAuthToken == old(priceAuthToken) && oracle == old(oracle)
      ensures Valid()
    {
      ghost var queries, start := OfferQueries(names, q), Market();
      ghost var pairs: seq<OfferPair> := [];
      var profits: seq<ProfitEntry> := [];
      var i := 0;
      while i < |names|
        invariant 0 <= i <= |names| && |pairs| == i
        invariant LookupOffers(Offer, queries[..i], start) == OffersRun(Returned(pairs), Market())
        invariant profits == Kept(ProfitsOf(names[..i], pairs))
        invariant priceAuthToken == old(priceAuthToken) && oracle == old(oracle)
        invariant Valid()
      {
        LookupOffersNext(Offer, queries, i, start);
        var pair;
        pair, profits := ProfitTurn(names, i, q, pairs, profits);
        if pair.Raised? {
          LookupOffersStops(Offer, queries, i + 1, start);
          return Raised(pair.fault);
        }
        pairs := pairs + [pair.value];
        i := i + 1;
      }
      assert queries[..i] == queries && names[..i] == names;
      r := Returned(profits);
    }

    /** `validate_killstreak_flipping(profits, quality)`: sorts the caller's
        band list by falling minimum, in place, then looks up the kit's
        cheapest 'sell' and the weapon's dearest 'buy' offer for each entry in
        that order. Its final sort then fails on any non-empty result. */
    method ValidateKillstreakFlipping(profits: BandList, quality: string) returns (r: Outcome<seq<ProfitEntry>>)
      requires Valid()
      modifies this, profits
      ensures profits.items == SortByDesc(old(profits.items), Low)
      ensures var names := Weapons(profits.items);
        var run := LookupOffers(Offer, OfferQueries(names, Spaced(quality)), old(Market()));
        && Market() == run.state
        && (run.result.Raised? ==> r == Raised(run.result.fault))
        && (run.result.Returned? ==> r == SortByBandMinimum(Kept(ProfitsOf(names, run.result.value))))
      ensures priceAuthToken == old(priceAuthToken) && oracle == old(oracle)
      ensures Valid()
    {
      var q := quality;
      if q != "" {
        q := q + " ";
      }
      profits.SortByLow();
      var names := Weapons(profits.items);
      var confirmed := ProfitLoop(names, q);
      if confirmed.Raised? {
        return confirmed;
      }
      if confirmed.value != [] {
        return Raised(NotSubscriptable);
      }
      r := Returned([]);
    }
  }
}
