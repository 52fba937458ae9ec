/** mainv2.py: the marketplace-only `PriceGrabber`. It has no pricing oracle;
    `grab_listings` retries failed snapshot requests without a cache window or
    sku check, `sort_listings` compares raw `defindex` values and always takes
    the dearest eligible offer, and `check_killstreak_flipping` ranks weapons
    by the profit between their kit's and their own offer. */
module MainV2 {
  import opened Common
  import opened Sorting
  import opened Listings
  import opened FlipLists

  /** The default `retries` of `grab_listings`. */
  const DefaultRetries: int := 3

  // ---------------------------------------------------------------------------
  // grab_listings

  /** The outcome of `grab_listings`, the replies left and the events sent. */
  datatype GrabRun = GrabRun(result: Outcome<Option<seq<Listing>>>, rest: seq<SnapshotReply>, events: seq<Event>)

  /** `grab_listings(name, retries)`: a 200 gives the snapshot's "listings"
      (KeyError without one); a failed request is retried with one retry less
      while `retries > 0`, and gives None after that; an ok reply other than 200
      leaves `listings` unbound. */
  function GrabListingsRun(name: string, retries: int, replies: seq<SnapshotReply>): (run: GrabRun)
    ensures |run.rest| <= |replies|
    decreases |replies|
  {
    if replies == [] then GrabRun(Raised(NoReply), [], [SnapshotGet(name)])
    else
      var reply := replies[0];
      var head := [SnapshotGet(name)] + Backoff(reply);
      if reply.status == 200 then
        GrabRun(if reply.listings.Some? then Returned(reply.listings) else Raised(MissingKey), replies[1..], head)
      else if IsOk(reply.status) then
        GrabRun(Raised(UnboundLocal), replies[1..], head)
      else if retries > 0 then
        var sub := GrabListingsRun(name, retries - 1, replies[1..]);
        GrabRun(sub.result, sub.rest, head + sub.events)
      else
        GrabRun(Returned(None), replies[1..], head)
  }

  /** A call that retries requests once more than its retry. */
  lemma RequestsOfRetry(name: string, retries: int, replies: seq<SnapshotReply>)
    requires replies != [] && !IsOk(replies[0].status) && retries > 0
    ensures CountIf(GrabListingsRun(name, retries, replies).events, IsSnapshotGet)
      == 1 + CountIf(GrabListingsRun(name, retries - 1, replies[1..]).events, IsSnapshotGet)
  {
    var sub := GrabListingsRun(name, retries - 1, replies[1..]);
    HeadRequestsOnce(name, replies[0]);
    CountIfAppend([SnapshotGet(name)] + Backoff(replies[0]), sub.events, IsSnapshotGet);
  }

  /** A call that does not retry requests once. */
  lemma RequestsOfLast(name: string, retries: int, replies: seq<SnapshotReply>)
    requires replies == [] || IsOk(replies[0].status) || retries <= 0
    ensures CountIf(GrabListingsRun(name, retries, replies).events, IsSnapshotGet) == 1
  {
    if replies == [] {
      assert [SnapshotGet(name)][1..] == [];
    } else {
      HeadRequestsOnce(name, replies[0]);
    }
  }

  /** `grab_listings` sends at most `retries + 1` snapshot requests (one when
      `retries` is not positive). */
  lemma {:induction false} RequestsBounded(name: string, retries: int, replies: seq<SnapshotReply>)
    ensures CountIf(GrabListingsRun(name, retries, replies).events, IsSnapshotGet) <= if retries < 0 then 1 else retries + 1
    decreases |replies|
  {
    if replies != [] && !IsOk(replies[0].status) && retries > 0 {
      RequestsBounded(name, retries - 1, replies[1..]);
      RequestsOfRetry(name, retries, replies);
    } else {
      RequestsOfLast(name, retries, replies);
    }
  }

  /** A 429 sleeps `retry-after` seconds and then spends a retry. */
  lemma ThrottledRetries(name: string, retries: int, replies: seq<SnapshotReply>)
    requires replies != [] && replies[0].status == 429 && retries > 0
    ensures var run := GrabListingsRun(name, retries, replies);
      var sub := GrabListingsRun(name, retries - 1, replies[1..]);
      && run.result == sub.result && run.rest == sub.rest
      && run.events == [SnapshotGet(name), Wait(replies[0].retryAfterS * 1000)] + sub.events
  {
  }

  /** None means that every request failed: `retries + 1` of them (one when
      `retries` is not positive), each consuming one reply. */
  lemma {:induction false} NoneOnlyAfterFailures(name: string, retries: int, replies: seq<SnapshotReply>)
    requires GrabListingsRun(name, retries, replies).result == Returned(None)
    ensures var run := GrabListingsRun(name, retries, replies);
      && |replies| - |run.rest| == (if retries < 0 then 1 else retries + 1)
      && forall i :: 0 <= i < |replies| - |run.rest| ==> !IsOk(replies[i].status)
    decreases |replies|
  {
    var run := GrabListingsRun(name, retries, replies);
    if replies[0].status != 200 && !IsOk(replies[0].status) && retries > 0 {
      var sub := GrabListingsRun(name, retries - 1, replies[1..]);
      NoneOnlyAfterFailures(name, retries - 1, replies[1..]);
      forall i | 0 <= i < |replies| - |run.rest| ensures !IsOk(replies[i].status) {
        if i > 0 {
          assert replies[i] == replies[1..][i - 1];
        }
      }
    }
  }

  /** Listings only come from a 200 reply that carries them: the last reply
      consumed. */
  lemma {:induction false} ListingsFromOk(name: string, retries: int, replies: seq<SnapshotReply>, ls: seq<Listing>)
    requires GrabListingsRun(name, retries, replies).result == Returned(Some(ls))
    ensures var run := GrabListingsRun(name, retries, replies);
      && |run.rest| < |replies|
      && replies[|replies| - |run.rest| - 1].status == 200
      && replies[|replies| - |run.rest| - 1].listings == Some(ls)
    decreases |replies|
  {
    if replies[0].status != 200 && !IsOk(replies[0].status) && retries > 0 {
      var sub := GrabListingsRun(name, retries - 1, replies[1..]);
      ListingsFromOk(name, retries - 1, replies[1..], ls);
      assert replies[1..][|replies| - 1 - |sub.rest| - 1] == replies[|replies| - |sub.rest| - 1];
    }
  }

  // ---------------------------------------------------------------------------
  // sort_listings as a function of the marketplace

  /** `sort_listings(intent, name, banned_attributes=(1004, ..., 1009))` from
      the marketplace state `st`. */
  function Offer(intent: string, name: string, st: Shop): (Outcome<Option<Listing>>, Shop) {
    var run := GrabListingsRun(name, DefaultRetries, st.replies);
    (SelectHighest(run.result, intent, BannedCodes), Shop(run.rest, st.events + run.events))
  }

  // ---------------------------------------------------------------------------
  // The class

  class PriceGrabber {
    /** The replies the marketplace will give, in order. */
    var market: seq<SnapshotReply>
    /** Every request sent and every sleep, in order. */
    var trace: seq<Event>

    function Market(): Shop
      reads this
    {
      Shop(market, trace)
    }

    /** `__init__`: only stores the secrets; nothing is sent. */
    constructor (market: seq<SnapshotReply>)
      ensures this.market == market && trace == []
    {
      this.market := market;
      trace := [];
    }

    /** One snapshot request and, after a 429, the sleep. None when no reply came. */
    method Fetch(itemName: string) returns (page: Option<SnapshotReply>)
      modifies this
      ensures old(market) == [] ==> page.None? && market == [] && trace == old(trace) + [SnapshotGet(itemName)]
      ensures old(market) != [] ==>
        && page == Some(old(market)[0]) && market == old(market)[1..]
        && trace == old(trace) + ([SnapshotGet(itemName)] + Backoff(old(market)[0]))
    {
      trace := trace + [SnapshotGet(itemName)];
      if market == [] {
        return None;
      }
      var reply := market[0];
      market := market[1..];
      if reply.status == 429 {
        trace := trace + [Wait(reply.retryAfterS * 1000)];
      }
      page := Some(reply);
    }

    /** `grab_listings(item_name, retries)`. */
    method GrabListings(itemName: string, retries: int) returns (r: Outcome<Option<seq<Listing>>>)
      modifies this
      ensures var run := GrabListingsRun(itemName, retries, old(market));
        r == run.result && market == run.rest && trace == old(trace) + run.events
      decreases |market|
    {
      var fetched := Fetch(itemName);
      if fetched.None? {
        return Raised(NoReply);
      }
      var page := fetched.value;
      // `listings`, None while unbound
      var listings: Option<Option<seq<Listing>>> := None;
      if page.status == 200 {
        if page.listings.None? {
          return Raised(MissingKey);
        }
        listings := Some(page.listings);
      }
      if !IsOk(page.status) {
        if retries > 0 {
          ghost var mid := trace;
          ghost var sub := GrabListingsRun(itemName, retries - 1, market);
          r := GrabListings(itemName, retries - 1);
          JoinTrace(old(trace), [SnapshotGet(itemName)] + Backoff(page), mid, sub.events, trace);
          return;
        }
        listings := Some(None);
      }
      if listings.None? {
        return Raised(UnboundLocal);
      }
      r := Returned(listings.value);
    }

    /** `sort_listings(intent, item_name, banned_attributes)`: grabs the snapshot,
        keeps the eligible listings, comparing `defindex` values as they come,
        and picks the dearest offer. */
    method SortListings(intent: string, itemName: string, banned: seq<int>) returns (r: Outcome<Option<Listing>>)
      modifies this
      ensures var run := GrabListingsRun(itemName, DefaultRetries, old(market));
        r == SelectHighest(run.result, intent, banned) && market == run.rest && trace == old(trace) + run.events
    {
      var listings := GrabListings(itemName, DefaultRetries);
      if listings.Raised? {
        return Raised(listings.fault);
      }
      if listings.value.None? {
        return Returned(None);
      }
      var valid := Collect(listings.value.value, intent, banned, false);
      if valid != [] {
        return Returned(Some(SortByDesc(valid, Price)[0]));
      }
      r := Returned(None);
    }

    /** The two `sort_listings` calls of one weapon: the kit's 'sell' offer,
        then the weapon's 'buy' offer. */
    method OfferPairOf(kitName: string, weaponName: string) returns (r: Outcome<OfferPair>)
      modifies this
      ensures (r, Market()) == PairOffers(Offer, (kitName, weaponName), old(Market()))
    {
      var kitListing := SortListings("sell", kitName, BannedCodes);
      if kitListing.Raised? {
        return Raised(kitListing.fault);
      }
      var weaponListing := SortListings("buy", weaponName, BannedCodes);
      if weaponListing.Raised? {
        return Raised(weaponListing.fault);
      }
      r := Returned(OfferPair(kitListing.value, weaponListing.value));
    }

    /** One weapon of the `check_killstreak_flipping` loop, after the weapons
        `names[..i]` gave `pairs`: its two offers and, when both exist, its
        profit appended to `profits`. */
    method ProfitTurn(names: seq<string>, i: nat, q: string, ghost pairs: seq<OfferPair>, profits: seq<ProfitEntry>)
      returns (pair: Outcome<OfferPair>, more: seq<ProfitEntry>)
      requires |pairs| == i < |names| && profits == Kept(ProfitsOf(names[..i], pairs))
      modifies this
      ensures (pair, Market()) == PairOffers(Offer, OfferQueries(names, q)[i], old(Market()))
      ensures pair.Returned? ==> more == Kept(ProfitsOf(names[..i + 1], pairs + [pair.value]))
    {
      var weapon := names[i];
      var kitName := "Non-Craftable " + q + "Killstreak " + weapon + " Kit";
      var weaponName := q + "Killstreak " + weapon;
      pair := OfferPairOf(kitName, weaponName);
      more := profits;
      if pair.Raised? {
        return;
      }
      more := AddProfit(names, i, pairs, profits, pair.value);
    }

    /** The `for weapon in weapon_names` loop of `check_killstreak_flipping`,
        `q` the spaced quality: the profit of every weapon with both offers, in
        weapon order, or the first exception. */
    method ProfitLoop(names: seq<string>, q: string) returns (r: Outcome<seq<ProfitEntry>>)
      modifies this
      ensures var run := LookupOffers(Offer, OfferQueries(names, q), old(Market()));
        && Market() == run.state
        && (r.Raised? <==> run.result.Raised?)
        && (r.Raised? ==> r.fault == run.result.fault)
        && (r.Returned? ==> r.value == Kept(ProfitsOf(names, run.result.value)))
    {
      ghost var queries, start := OfferQueries(names, q), Market();
      ghost var pairs: seq<OfferPair> := [];
      var profits: seq<ProfitEntry> := [];
      var i := 0;
      while i < |names|
        invariant 0 <= i <= |names| && |pairs| == i
        invariant LookupOffers(Offer, queries[..i], start) == OffersRun(Returned(pairs), Market())
        invariant profits == Kept(ProfitsOf(names[..i], pairs))
      {
        LookupOffersNext(Offer, queries, i, start);
        var pair;
        pair, profits := ProfitTurn(names, i, q, pairs, profits);
        if pair.Raised? {
          LookupOffersStops(Offer, queries, i + 1, start);
          return Raised(pair.fault);
        }
        pairs := pairs + [pair.value];
        i := i + 1;
      }
      assert queries[..i] == queries && names[..i] == names;
      r := Returned(profits);
    }

    /** `check_killstreak_flipping(quality)`: for every non-blank, first-seen
        weapon name, the dearest 'buy' offer for the killstreak weapon less the
        dearest 'sell' offer of its kit; the weapons with both offers, by
        falling profit. `weaponNames` are the lines of weapon_names.txt. */
    method CheckKillstreakFlipping(weaponNames: seq<string>, quality: string) returns (r: Outcome<seq<ProfitEntry>>)
      modifies this
      ensures var names := UniqueNames(weaponNames);
        var run := LookupOffers(Offer, OfferQueries(names, Spaced(quality)), old(Market()));
        && Market() == run.state
        && (r.Raised? <==> run.result.Raised?)
        && (r.Raised? ==> r.fault == run.result.fault)
        && (r.Returned? ==> r.value == RankedProfits(names, run.result.value))
    {
      var q := quality;
      if q != "" {
        q := q + " ";
      }
      var names := UniqueNames(weaponNames);
      var profits := ProfitLoop(names, q);
      if profits.Raised? {
        return profits;
      }
      r := Returned(SortByDesc(profits.value, Gain));
    }
  }
}
