/** main.py: the earliest `PriceGrabber`. Its `check_price` is mainv3.py's,
    `check_killstreak_flipping` ranks profit bands from oracle prices as
    mainv3.py's `get_killstreak_flipping` does, and `grab_listings` sends a
    single snapshot request and hands back the raw response. */
module MainPy {
  import opened Common
  import opened Sorting
  import opened Oracle
  import opened FlipLists

  /** What `grab_listings` makes of a reply: the page on a 200, None when it
      failed, and an unbound `listings` otherwise. */
  function PageOutcome(page: SnapshotReply): (r: Outcome<Option<SnapshotReply>>)
  {
    if page.status == 200 then Returned(Some(page))
    else if !IsOk(page.status) then Returned(None)
    else Raised(UnboundLocal)
  }

  /** The three outcomes of a reply: the page exactly for a 200, None exactly
      for a failure, an exception for every other ok status. */
  lemma PageOutcomeCases(page: SnapshotReply)
    ensures PageOutcome(page) == Returned(Some(page)) <==> page.status == 200
    ensures PageOutcome(page) == Returned(None) <==> !IsOk(page.status)
    ensures PageOutcome(page).Raised? <==> IsOk(page.status) && page.status != 200
  {
  }

  class PriceGrabber {
    /** `sku.parser.Sku.name_to_sku`. */
    const skuOf: string -> string
    /** `sku.parser.Sku.sku_to_name`. */
    const nameOf: string -> string
    /** `date.today()` at construction, as a day number. */
    const today: int
    const daysUntilOld: int

    /** The generation of `price_auth_token`: one per auth POST. */
    var priceAuthToken: nat
    /** The replies the pricing oracle and the marketplace will give, in order. */
    var oracle: seq<PriceReply>
    var market: seq<SnapshotReply>
    /** Every request sent and every sleep, in order. */
    var trace: seq<Event>

    function Config(): Settings {
      Settings(skuOf, today, daysUntilOld)
    }

    function Oracle(): OracleState
      reads this
    {
      OracleState(priceAuthToken, oracle, trace)
    }

    /** The token is replaced once per auth POST, and by nothing else. */
    ghost predicate Valid()
      reads this
    {
      priceAuthToken == CountIf(trace, IsAuth)
    }

    /** `__init__`: fetches the first auth token. */
    constructor (skuOf: string -> string, nameOf: string -> string, today: int, daysUntilOld: int,
                 oracle: seq<PriceReply>, market: seq<SnapshotReply>)
      ensures this.skuOf == skuOf && this.nameOf == nameOf && this.today == today && this.daysUntilOld == daysUntilOld
      ensures this.oracle == oracle && this.market == market
      ensures priceAuthToken == 1 && trace == [AuthPost]
      ensures Valid()
    {
      this.skuOf := skuOf;
      this.nameOf := nameOf;
      this.today := today;
      this.daysUntilOld := daysUntilOld;
      this.oracle := oracle;
      this.market := market;
      priceAuthToken := 1;
      trace := [AuthPost];
      new;
      assert trace[1..] == [];
    }

    /** A request or sleep whose reply only the caller looks at. */
    method Send(e: Event)
      requires Valid() && !e.AuthPost?
      modifies this
      ensures trace == old(trace) + [e] && priceAuthToken == old(priceAuthToken)
      ensures oracle == old(oracle) && market == old(market)
      ensures Valid()
    {
      CountIfAppend(trace, [e], IsAuth);
      assert [e][1..] == [];
      trace := trace + [e];
    }

    /** `request_price_auth`: the auth POST, which gives the next token. */
    method RequestPriceAuth()
      requires Valid()
      modifies this
      ensures trace == old(trace) + [AuthPost] && priceAuthToken == old(priceAuthToken) + 1
      ensures oracle == old(oracle) && market == old(market)
      ensures Valid()
    {
      CountIfAppend(trace, [AuthPost], IsAuth);
      assert [AuthPost][1..] == [];
      priceAuthToken := priceAuthToken + 1;
      trace := trace + [AuthPost];
    }

    /** The `match page.status_code` of `check_price`: a 200 binds `price` and
        may ask for a refresh, a 401 fetches a new token, a 404 asks for a
        refresh and sets `retries = 0`, a 429 sleeps `retry-after` milliseconds. */
    method React(path: string, rqUpdate: bool, page: PriceReply, retries: int) returns (price: Option<PriceRecord>, left: int)
      requires Valid()
      modifies this
      ensures trace == old(trace) + Reaction(Config(), path, rqUpdate, page)
      ensures priceAuthToken == if page.status == 401 then old(priceAuthToken) + 1 else old(priceAuthToken)
      ensures price == (if page.status == 200 then Some(page.record) else None)
      ensures left == if page.status == 404 then 0 else retries
      ensures oracle == old(oracle) && market == old(market)
      ensures Valid()
    {
      price, left := None, retries;
      match page.status {
        case 200 =>
          price := Some(page.record);
          if rqUpdate && today > page.record.updatedAt + daysUntilOld {
            Send(RefreshPost(path));
          } else {
            assert old(trace) + [] == trace;
          }
        case 401 =>
          RequestPriceAuth();
        case 404 =>
          Send(RefreshPost(path));
          left := 0;
        case 429 =>
          Send(Wait(page.retryAfterMs));
        case _ =>
          assert old(trace) + [] == trace;
      }
    }

    /** `check_price(name, item_sku, retries, rq_update)`: a name, when given,
        decides the sku; without either, `None.replace` raises. */
    method CheckPrice(name: string, itemSku: Option<string>, retries: int, rqUpdate: bool) returns (r: Outcome<Option<PriceRecord>>)
      requires Valid()
      modifies this
      ensures var run := CheckPriceRun(PriceStartsNone, Config(), name, itemSku, retries, rqUpdate, old(priceAuthToken), old(oracle));
        r == run.result && priceAuthToken == run.token && oracle == run.rest && trace == old(trace) + run.events
      ensures market == old(market)
      ensures Valid()
    {
      var sku := itemSku;
      if name != "" {
        sku := Some(skuOf(name));
      }
      if sku.None? {
        assert trace == old(trace) + [];
        return Raised(NoneAttribute);
      }
      r := PriceAttempts(sku.value, retries, rqUpdate);
    }

    /** The body of `check_price` once `item_sku` is set; `price` starts as None.
        Its retry passes the same name and the sku it resolved to, so it
        resolves to that sku again; the recursion is written on the sku. */
    method PriceAttempts(sku: string, retries: int, rqUpdate: bool) returns (r: Outcome<Option<PriceRecord>>)
      requires Valid()
      modifies this
      ensures var run := Attempts(PriceStartsNone, Config(), sku, retries, rqUpdate, old(priceAuthToken), old(oracle));
        r == run.result && priceAuthToken == run.token && oracle == run.rest && trace == old(trace) + run.events
      ensures market == old(market)
      ensures Valid()
      decreases |oracle|
    {
      var path := Quote(sku);
      ghost var cfg, token0, replies0 := Config(), priceAuthToken, oracle;
      Send(PriceGet(path));
      if oracle == [] {
        return Raised(NoReply);
      }
      var page := oracle[0];
      oracle := oracle[1..];
      var price, left := React(path, rqUpdate, page, retries);
      ghost var head := [PriceGet(path)] + Reaction(cfg, path, rqUpdate, page);
      assert trace == old(trace) + head;
      if !IsOk(page.status) && left != 0 {
        ghost var mid := trace;
        RetryOutcome(PriceStartsNone, cfg, sku, retries, rqUpdate, token0, replies0);
        ghost var sub := Attempts(PriceStartsNone, cfg, sku, retries - 1, rqUpdate, priceAuthToken, oracle);
        assert left - 1 == retries - 1;
        r := PriceAttempts(sku, left - 1, rqUpdate);
        JoinTrace(old(trace), head, mid, sub.events, trace);
      } else {
        LastAttempt(PriceStartsNone, cfg, sku, retries, rqUpdate, token0, replies0);
        r := Returned(price);
      }
    }

    /** The two `check_price` calls of one weapon: the killstreak weapon's, then
        its kit's unless the first raised. */
    method PricePairOf(weaponName: string, kitName: string) returns (r: Outcome<PricePair>)
      requires Valid()
      modifies this
      ensures (r, Oracle()) == LookupPair(PriceStartsNone, Config(), (weaponName, kitName), old(Oracle()))
      ensures market == old(market)
      ensures Valid()
    {
      var weaponJson := CheckPrice(weaponName, None, 3, true);
      if weaponJson.Raised? {
        return Raised(weaponJson.fault);
      }
      var kitJson := CheckPrice(kitName, None, 3, true);
      if kitJson.Raised? {
        return Raised(kitJson.fault);
      }
      r := Returned(PricePair(weaponJson.value, kitJson.value));
    }

    /** One weapon of the `check_killstreak_flipping` loop, after the weapons
        `names[..i]` gave `pairs`. */
    method BandTurn(names: seq<string>, i: nat, quality: string, ghost pairs: seq<PricePair>, bands: seq<BandEntry>)
      returns (pair: Outcome<PricePair>, more: seq<BandEntry>)
      requires Valid()
      requires |pairs| == i < |names| && bands == Kept(BandsOf(names[..i], pairs))
      modifies this
      ensures (pair, Oracle()) == LookupPair(PriceStartsNone, Config(), BandQueries(names, quality)[i], old(Oracle()))
      ensures pair.Returned? ==> more == Kept(BandsOf(names[..i + 1], pairs + [pair.value]))
      ensures market == old(market)
      ensures Valid()
    {
      var weapon := names[i];
      pair := PricePairOf("Killstreak " + weapon, "Non-Craftable " + quality + " Killstreak " + weapon + " Kit");
      more := bands;
      if pair.Raised? {
        return;
      }
      more := AddBand(names, i, pairs, bands, pair.value);
    }

    /** The `for weapon in weapon_names` loop of `check_killstreak_flipping`: the
        band of every weapon with both records, in weapon order, or the first
        exception. */
    method BandLoop(names: seq<string>, quality: string) returns (r: Outcome<seq<BandEntry>>)
      requires Valid()
      modifies this
      ensures var run := LookupPairs(PriceStartsNone, Config(), BandQueries(names, quality), old(Oracle()));
        && Oracle() == run.state
        && (r.Raised? <==> run.result.Raised?)
        && (r.Raised? ==> r.fault == run.result.fault)
        && (r.Returned? ==> r.value == Kept(BandsOf(names, run.result.value)))
      ensures market == old(market)
      ensures Valid()
    {
      ghost var cfg, queries, start := Config(), BandQueries(names, quality), Oracle();
      ghost var pairs: seq<PricePair> := [];
      var bands: seq<BandEntry> := [];
      var i := 0;
      while i < |names|
        invariant 0 <= i <= |names| && |pairs| == i
        invariant LookupPairs(PriceStartsNone, cfg, queries[..i], start) == PairsRun(Returned(pairs), Oracle())
        invariant bands == Kept(BandsOf(names[..i], pairs))
        invariant market == old(market)
        invariant Valid()
      {
        LookupPairsNext(PriceStartsNone, cfg, queries, i, start);
        var pair;
        pair, bands := BandTurn(names, i, quality, pairs, bands);
        if pair.Raised? {
          LookupPairsStops(PriceStartsNone, cfg, queries, i + 1, start);
          return Raised(pair.fault);
        }
        pairs := pairs + [pair.value];
        i := i + 1;
      }
      assert queries[..i] == queries && names[..i] == names;
      r := Returned(bands);
    }

    /** `check_killstreak_flipping(quality)`: for every non-blank, first-seen
        weapon name, the band `[weapon_low - kit_high, weapon_high - kit_low]`
        from the oracle's records of the killstreak weapon and of its kit; the
        weapons with both records, by falling minimum. `weaponNames` are the
        lines of weapon_names.txt. */
    method CheckKillstreakFlipping(weaponNames: seq<string>, quality: string) returns (r: Outcome<seq<BandEntry>>)
      requires Valid()
      modifies this
      ensures var names := UniqueNames(weaponNames);
        var run := LookupPairs(PriceStartsNone, Config(), BandQueries(names, quality), old(Oracle()));
        && Oracle() == run.state
        && (r.Raised? <==> run.result.Raised?)
        && (r.Raised? ==> r.fault == run.result.fault)
        && (r.Returned? ==> r.value == RankedBands(names, run.result.value))
      ensures market == old(market)
      ensures Valid()
    {
      var names := UniqueNames(weaponNames);
      var bands := BandLoop(names, quality);
      if bands.Raised? {
        return bands;
      }
      r := Returned(SortByDesc(bands.value, Low));
    }

    /** `grab_listings(item_name, item_sku)`: a given sku decides the name; one
        snapshot request, no retry. A 200 gives the response itself, a failed
        request None, and an ok reply other than 200 leaves `listings` unbound. */
    method GrabListings(itemName: string, itemSku: Option<string>) returns (r: Outcome<Option<SnapshotReply>>)
      requires Valid()
      modifies this
      ensures var name := if itemSku.Some? then nameOf(itemSku.value) else itemName;
        && trace == old(trace) + [SnapshotGet(name)]
        && (old(market) == [] ==> r == Raised(NoReply) && market == [])
        && (old(market) != [] ==> r == PageOutcome(old(market)[0]) && market == old(market)[1..])
      ensures priceAuthToken == old(priceAuthToken) && oracle == old(oracle)
      ensures Valid()
    {
      var name := itemName;
      if itemSku.Some? {
        name := nameOf(itemSku.value);
      }
      Send(SnapshotGet(name));
      if market == [] {
        return Raised(NoReply);
      }
      var page := market[0];
      market := market[1..];
      // `listings`, None while unbound
      var listings: Option<Option<SnapshotReply>> := None;
      if page.status == 200 {
        listings := Some(Some(page));
      }
      if !IsOk(page.status) {
        listings := Some(None);
      }
      if listings.None? {
        return Raised(UnboundLocal);
      }
      r := Returned(listings.value);
    }
  }
}
