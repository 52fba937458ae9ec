/** The list-based flip evaluators of mainv3.py, mainv2.py and main.py. They
    build a Python list of `[weapon, ...]` entries in a loop, skipping the
    weapons whose lookups found nothing, and sort it in place. Oracle-based ones
    (mainv3.py `get_killstreak_flipping`, main.py `check_killstreak_flipping`)
    record a profit band per weapon; marketplace-based ones (mainv3.py
    `validate_killstreak_flipping`, mainv2.py `check_killstreak_flipping`)
    record a single profit. The marketplace loop is specified here once, for
    any version's `sort_listings`. */
module FlipLists {
  import opened Common
  import opened Sorting
  import opened Oracle
  import opened Listings

  // ---------------------------------------------------------------------------
  // Skipping the weapons whose lookups failed

  /** The values present in `xs`, in order: what `continue` on a failed lookup
      leaves in the list. */
  function Kept<T>(xs: seq<Option<T>>): (r: seq<T>)
    ensures |r| <= |xs|
  {
    if xs == [] then []
    else Kept(xs[..|xs| - 1]) + (if xs[|xs| - 1].Some? then [xs[|xs| - 1].value] else [])
  }

  /** One more loop turn appends its value, if any. */
  lemma KeptSnoc<T>(xs: seq<Option<T>>, x: Option<T>)
    ensures Kept(xs + [x]) == Kept(xs) + (if x.Some? then [x.value] else [])
  {
    assert (xs + [x])[..|xs|] == xs;
  }

  /** An entry is in the list exactly when some turn produced it. */
  lemma {:induction false} KeptMembers<T>(xs: seq<Option<T>>, e: T)
    ensures e in Kept(xs) <==> exists i :: 0 <= i < |xs| && xs[i] == Some(e)
  {
    if xs != [] {
      var front := xs[..|xs| - 1];
      KeptMembers(front, e);
      if exists i :: 0 <= i < |xs| && xs[i] == Some(e) {
        var i :| 0 <= i < |xs| && xs[i] == Some(e);
        if i < |front| {
          assert front[i] == Some(e);
        }
      }
      if exists i :: 0 <= i < |front| && front[i] == Some(e) {
        var i :| 0 <= i < |front| && front[i] == Some(e);
        assert xs[i] == Some(e);
      }
    }
  }

  // ---------------------------------------------------------------------------
  // Profit bands from oracle prices

  /** `[weapon, [weapon_low - kit_high, weapon_high - kit_low]]`. */
  datatype BandEntry = BandEntry(weapon: string, low: int, high: int)

  /** The sort key `weapon[1][0]`: the band's minimum. */
  function Low(e: BandEntry): int {
    e.low
  }

  /** A weapon's band from the weapon's and the kit's records: low is the
      weapon's buy side less the kit's sell side, high the weapon's sell side
      less the kit's buy side, each side in the unit its Keys flag picks. */
  function BandOf(weapon: string, w: PriceRecord, k: PriceRecord): BandEntry {
    BandEntry(weapon, BuyValue(w) - SellValue(k), SellValue(w) - BuyValue(k))
  }

  /** The comment's reading of the band, minimum then maximum, holds whenever
      each record's buy side is at most its sell side. */
  lemma BandOrdered(weapon: string, w: PriceRecord, k: PriceRecord)
    requires BuyValue(w) <= SellValue(w) && BuyValue(k) <= SellValue(k)
    ensures BandOf(weapon, w, k).low <= BandOf(weapon, w, k).high
  {
  }

  /** Without the premise the band can come out reversed. */
  lemma BandCanBeReversed()
    ensures var w := PriceRecord(10, 0, 0, 2, 0, 0, 0);
      var k := PriceRecord(0, 0, 0, 0, 0, 0, 0);
      BandOf("Bat", w, k).low > BandOf("Bat", w, k).high
  {
  }

  /** What one weapon contributes: nothing when either lookup gave None. */
  function BandFrom(weapon: string, p: PricePair): Option<BandEntry> {
    if p.first.None? || p.second.None? then None else Some(BandOf(weapon, p.first.value, p.second.value))
  }

  function BandsOf(weapons: seq<string>, pairs: seq<PricePair>): (r: seq<Option<BandEntry>>)
    requires |weapons| == |pairs|
    ensures |r| == |weapons|
  {
    seq(|weapons|, i requires 0 <= i < |weapons| => BandFrom(weapons[i], pairs[i]))
  }

  /** The two `check_price` names per weapon: `Killstreak {weapon}`, then
      `Non-Craftable {quality} Killstreak {weapon} Kit` (quality unspaced). */
  function BandQueries(weapons: seq<string>, quality: string): (r: seq<(string, string)>)
    ensures |r| == |weapons|
  {
    seq(|weapons|, i requires 0 <= i < |weapons| =>
      ("Killstreak " + weapons[i], "Non-Craftable " + quality + " Killstreak " + weapons[i] + " Kit"))
  }

  /** Turn `i` of the loop appends the band of weapon `i`, if any. */
  lemma BandsNext(weapons: seq<string>, pairs: seq<PricePair>, p: PricePair)
    requires |pairs| < |weapons|
    ensures var i := |pairs|;
      Kept(BandsOf(weapons[..i + 1], pairs + [p]))
        == Kept(BandsOf(weapons[..i], pairs))
           + (if p.first.Some? && p.second.Some? then [BandOf(weapons[i], p.first.value, p.second.value)] else [])
  {
    var i := |pairs|;
    assert BandsOf(weapons[..i + 1], pairs + [p]) == BandsOf(weapons[..i], pairs) + [BandFrom(weapons[i], p)];
    KeptSnoc(BandsOf(weapons[..i], pairs), BandFrom(weapons[i], p));
  }

  /** The append of one band-loop turn (main.py, mainv3.py): the weapon's band
      when both records exist. */
  method AddBand(names: seq<string>, i: nat, ghost pairs: seq<PricePair>, bands: seq<BandEntry>, pair: PricePair)
    returns (more: seq<BandEntry>)
    requires |pairs| == i < |names| && bands == Kept(BandsOf(names[..i], pairs))
    ensures more == Kept(BandsOf(names[..i + 1], pairs + [pair]))
  {
    BandsNext(names, pairs, pair);
    more := bands;
    if pair.first.Some? && pair.second.Some? {
      var weaponJson, kitJson := pair.first.value, pair.second.value;
      var weaponHigh := if weaponJson.sellKeys != 0 then weaponJson.sellKeyHalfScrap else weaponJson.sellHalfScrap;
      var weaponLow := if weaponJson.buyKeys != 0 then weaponJson.buyKeyHalfScrap else weaponJson.buyHalfScrap;
      var kitHigh := if kitJson.sellKeys != 0 then kitJson.sellKeyHalfScrap else kitJson.sellHalfScrap;
      var kitLow := if kitJson.buyKeys != 0 then kitJson.buyKeyHalfScrap else kitJson.buyHalfScrap;
      more := bands + [BandEntry(names[i], weaponLow - kitHigh, weaponHigh - kitLow)];
    }
  }

  /** What the oracle-based evaluators return after their lookups gave `pairs`:
      the bands, sorted by falling minimum. */
  function RankedBands(weapons: seq<string>, pairs: seq<PricePair>): seq<BandEntry>
    requires |weapons| == |pairs|
  {
    SortByDesc(Kept(BandsOf(weapons, pairs)), Low)
  }

  /** A band is listed exactly for the weapons both of whose lookups found a
      record. */
  lemma BandsMembers(weapons: seq<string>, pairs: seq<PricePair>, e: BandEntry)
    requires |weapons| == |pairs|
    ensures e in Kept(BandsOf(weapons, pairs)) <==>
      exists i :: 0 <= i < |weapons| && pairs[i].first.Some? && pairs[i].second.Some?
                  && e == BandOf(weapons[i], pairs[i].first.value, pairs[i].second.value)
  {
    var xs := BandsOf(weapons, pairs);
    KeptMembers(xs, e);
    if e in Kept(xs) {
      var i :| 0 <= i < |xs| && xs[i] == Some(e);
      assert BandFrom(weapons[i], pairs[i]) == Some(e);
    }
    if exists i :: 0 <= i < |weapons| && pairs[i].first.Some? && pairs[i].second.Some?
                   && e == BandOf(weapons[i], pairs[i].first.value, pairs[i].second.value) {
      var i :| 0 <= i < |weapons| && pairs[i].first.Some? && pairs[i].second.Some?
               && e == BandOf(weapons[i], pairs[i].first.value, pairs[i].second.value);
      assert xs[i] == Some(e);
    }
  }

  /** The ranked bands are exactly the listed bands, by falling minimum, equal
      minima in weapon order. */
  lemma RankedBandsSpec(weapons: seq<string>, pairs: seq<PricePair>)
    requires |weapons| == |pairs|
    ensures var r := RankedBands(weapons, pairs);
      && multiset(r) == multiset(Kept(BandsOf(weapons, pairs)))
      && (forall i, j :: 0 <= i < j < |r| ==> r[i].low >= r[j].low)
      && (forall v :: WithKey(r, Low, v) == WithKey(Kept(BandsOf(weapons, pairs)), Low, v))
  {
    var kept := Kept(BandsOf(weapons, pairs));
    var r := RankedBands(weapons, pairs);
    forall i, j | 0 <= i < j < |r| ensures r[i].low >= r[j].low {
      assert Low(r[i]) >= Low(r[j]);
    }
    forall v ensures WithKey(r, Low, v) == WithKey(kept, Low, v) {
      SortByDescStable(kept, Low, v);
    }
  }

  // ---------------------------------------------------------------------------
  // Profits from marketplace offers

  /** `[weapon, weapon_listing['price'] - kit_listing['price']]`. */
  datatype ProfitEntry = ProfitEntry(weapon: string, profit: int)

  /** The sort key `weapon[1]` of mainv2.py. */
  function Gain(e: ProfitEntry): int {
    e.profit
  }

  /** What one weapon contributes: nothing when either offer is None. */
  function ProfitFrom(weapon: string, p: OfferPair): Option<ProfitEntry> {
    if p.kit.None? || p.weapon.None? then None else Some(ProfitEntry(weapon, p.weapon.value.price - p.kit.value.price))
  }

  function ProfitsOf(weapons: seq<string>, pairs: seq<OfferPair>): (r: seq<Option<ProfitEntry>>)
    requires |weapons| == |pairs|
    ensures |r| == |weapons|
  {
    seq(|weapons|, i requires 0 <= i < |weapons| => ProfitFrom(weapons[i], pairs[i]))
  }

  /** Turn `i` of the loop appends the profit of weapon `i`, if any. */
  lemma ProfitsNext(weapons: seq<string>, pairs: seq<OfferPair>, p: OfferPair)
    requires |pairs| < |weapons|
    ensures var i := |pairs|;
      Kept(ProfitsOf(weapons[..i + 1], pairs + [p]))
        == Kept(ProfitsOf(weapons[..i], pairs))
           + (if p.kit.Some? && p.weapon.Some? then [ProfitEntry(weapons[i], p.weapon.value.price - p.kit.value.price)] else [])
  {
    var i := |pairs|;
    assert ProfitsOf(weapons[..i + 1], pairs + [p]) == ProfitsOf(weapons[..i], pairs) + [ProfitFrom(weapons[i], p)];
    KeptSnoc(ProfitsOf(weapons[..i], pairs), ProfitFrom(weapons[i], p));
  }

  /** The append of one profit-loop turn (mainv2.py, mainv3.py): the weapon's
      profit when both offers exist. */
  method AddProfit(names: seq<string>, i: nat, ghost pairs: seq<OfferPair>, profits: seq<ProfitEntry>, pair: OfferPair)
    returns (more: seq<ProfitEntry>)
    requires |pairs| == i < |names| && profits == Kept(ProfitsOf(names[..i], pairs))
    ensures more == Kept(ProfitsOf(names[..i + 1], pairs + [pair]))
  {
    ProfitsNext(names, pairs, pair);
    more := profits;
    var kitListing, weaponListing := pair.kit, pair.weapon;
    if kitListing.Some? && weaponListing.Some? {
      more := profits + [ProfitEntry(names[i], weaponListing.value.price - kitListing.value.price)];
    }
  }

  /** The two `sort_listings` names per weapon, `q` already spaced: the kit
      `Non-Craftable {q}Killstreak {weapon} Kit` ('sell'), then the weapon
      `{q}Killstreak {weapon}` ('buy'). */
  function OfferQueries(weapons: seq<string>, q: string): (r: seq<(string, string)>)
    ensures |r| == |weapons|
  {
    seq(|weapons|, i requires 0 <= i < |weapons| =>
      ("Non-Craftable " + q + "Killstreak " + weapons[i] + " Kit", q + "Killstreak " + weapons[i]))
  }

  /** A profit is recorded exactly for the weapons with both offers, and it is
      the weapon's buy offer less the kit's sell offer. */
  lemma ProfitsMembers(weapons: seq<string>, pairs: seq<OfferPair>, e: ProfitEntry)
    requires |weapons| == |pairs|
    ensures e in Kept(ProfitsOf(weapons, pairs)) <==>
      exists i :: 0 <= i < |weapons| && pairs[i].kit.Some? && pairs[i].weapon.Some?
                  && e == ProfitEntry(weapons[i], pairs[i].weapon.value.price - pairs[i].kit.value.price)
  {
    var xs := ProfitsOf(weapons, pairs);
    KeptMembers(xs, e);
    if e in Kept(xs) {
      var i :| 0 <= i < |xs| && xs[i] == Some(e);
      assert ProfitFrom(weapons[i], pairs[i]) == Some(e);
    }
    if exists i :: 0 <= i < |weapons| && pairs[i].kit.Some? && pairs[i].weapon.Some?
                   && e == ProfitEntry(weapons[i], pairs[i].weapon.value.price - pairs[i].kit.value.price) {
      var i :| 0 <= i < |weapons| && pairs[i].kit.Some? && pairs[i].weapon.Some?
               && e == ProfitEntry(weapons[i], pairs[i].weapon.value.price - pairs[i].kit.value.price);
      assert xs[i] == Some(e);
    }
  }

  /** What mainv2.py's evaluator returns after its lookups gave `pairs`: the
      profits, sorted by falling profit. */
  function RankedProfits(weapons: seq<string>, pairs: seq<OfferPair>): seq<ProfitEntry>
    requires |weapons| == |pairs|
  {
    SortByDesc(Kept(ProfitsOf(weapons, pairs)), Gain)
  }

  /** The ranked profits are exactly the recorded profits, by falling profit,
      equal profits in weapon order. */
  lemma RankedProfitsSpec(weapons: seq<string>, pairs: seq<OfferPair>)
    requires |weapons| == |pairs|
    ensures var r := RankedProfits(weapons, pairs);
      && multiset(r) == multiset(Kept(ProfitsOf(weapons, pairs)))
      && (forall i, j :: 0 <= i < j < |r| ==> r[i].profit >= r[j].profit)
      && (forall v :: WithKey(r, Gain, v) == WithKey(Kept(ProfitsOf(weapons, pairs)), Gain, v))
  {
    var kept := Kept(ProfitsOf(weapons, pairs));
    var r := RankedProfits(weapons, pairs);
    forall i, j | 0 <= i < j < |r| ensures r[i].profit >= r[j].profit {
      assert Gain(r[i]) >= Gain(r[j]);
    }
    forall v ensures WithKey(r, Gain, v) == WithKey(kept, Gain, v) {
      SortByDescStable(kept, Gain, v);
    }
  }

  // ---------------------------------------------------------------------------
  // The marketplace loop, for any version's `sort_listings`

  /** The marketplace side of a client: the replies left and the events so far. */
  datatype Shop = Shop(replies: seq<SnapshotReply>, events: seq<Event>)

  /** One version's `sort_listings(intent, name, banned_attributes=(1004, ..., 1009))`
      as a function of the shop: the pick and the shop afterwards. */
  type Seller = (string, string, Shop) -> (Outcome<Option<Listing>>, Shop)

  datatype OffersRun = OffersRun(result: Outcome<seq<OfferPair>>, state: Shop)

  /** One weapon's two `sort_listings` calls: the kit's 'sell' offer, then the
      weapon's 'buy' offer; an exception in the first skips the second. */
  function PairOffers(sell: Seller, q: (string, string), st: Shop): (Outcome<OfferPair>, Shop) {
    var (kit, afterKit) := sell("sell", q.0, st);
    if kit.Raised? then (Raised(kit.fault), afterKit)
    else
      var (weapon, afterWeapon) := sell("buy", q.1, afterKit);
      if weapon.Raised? then (Raised(weapon.fault), afterWeapon)
      else (Returned(OfferPair(kit.value, weapon.value)), afterWeapon)
  }

  /** One loop turn after the turns that gave `prev`; an exception ends the loop. */
  function NextOffer(sell: Seller, q: (string, string), prev: OffersRun): (run: OffersRun)
    ensures prev.result.Returned? && run.result.Returned? ==> |run.result.value| == |prev.result.value| + 1
    ensures prev.result.Raised? ==> run == prev
  {
    if prev.result.Raised? then prev
    else
      var (p, after) := PairOffers(sell, q, prev.state);
      if p.Raised? then OffersRun(Raised(p.fault), after)
      else OffersRun(Returned(prev.result.value + [p.value]), after)
  }

  /** The loop over all the queries, in order. */
  function LookupOffers(sell: Seller, queries: seq<(string, string)>, start: Shop): (run: OffersRun)
    ensures run.result.Returned? ==> |run.result.value| == |queries|
  {
    if queries == [] then OffersRun(Returned([]), start)
    else NextOffer(sell, queries[|queries| - 1], LookupOffers(sell, queries[..|queries| - 1], start))
  }

  lemma LookupOffersNext(sell: Seller, queries: seq<(string, string)>, i: nat, start: Shop)
    requires i < |queries|
    ensures LookupOffers(sell, queries[..i + 1], start) == NextOffer(sell, queries[i], LookupOffers(sell, queries[..i], start))
  {
    assert queries[..i + 1][..i] == queries[..i];
  }

  /** Once a prefix of the queries raises, the whole loop ends as that prefix did. */
  lemma {:induction false} LookupOffersStops(sell: Seller, queries: seq<(string, string)>, j: nat, start: Shop)
    requires j <= |queries| && LookupOffers(sell, queries[..j], start).result.Raised?
    ensures LookupOffers(sell, queries, start) == LookupOffers(sell, queries[..j], start)
  {
    if j < |queries| {
      var front := queries[..|queries| - 1];
      assert front[..j] == queries[..j];
      LookupOffersStops(sell, front, j, start);
    } else {
      assert queries[..j] == queries;
    }
  }
}
