/** `check_price`, the pricing-oracle client that main4.py, mainv3.py and main.py
    share, as a function of the replies the oracle gives. Each attempt sends one
    GET and consumes one reply; what the status then triggers (a refresh POST, a
    new auth token, a wait) is recorded as events. The three files differ in one
    place only, which `Variant` names. The loops that call `check_price` twice per
    weapon are specified by `LookupPairs`. */
module Oracle {
  import opened Common

  /** main4.py returns `price` from the ok branch only, so an ok status other
      than 200 reads it unbound; mainv3.py and main.py start from `price = None`. */
  datatype Variant = ReturnsFromBranches | PriceStartsNone

  /** What the constructor fixes: the name parser `sku.parser.Sku.name_to_sku`,
      `today` as a day number and `days_until_old` in whole days. */
  datatype Settings = Settings(skuOf: string -> string, today: int, daysUntilOld: int)

  /** How one call ends: its result, the auth token generation afterwards, the
      replies not consumed, and the events it caused, in order. */
  datatype PriceRun = PriceRun(result: Outcome<Option<PriceRecord>>, token: nat, rest: seq<PriceReply>, events: seq<Event>)

  /** `if name: item_sku = name_to_sku(name)`; a blank name counts as absent. */
  function ResolveSku(skuOf: string -> string, name: string, itemSku: Option<string>): Option<string> {
    if name != "" then Some(skuOf(name)) else itemSku
  }

  /** `today > updatedAt + timedelta(days=days_until_old)`, strictly. */
  predicate Stale(cfg: Settings, record: PriceRecord) {
    cfg.today > record.updatedAt + cfg.daysUntilOld
  }

  /** The events of the `match page.status_code` arms. */
  function Reaction(cfg: Settings, path: string, rqUpdate: bool, reply: PriceReply): seq<Event> {
    match reply.status
    case 200 => if rqUpdate && Stale(cfg, reply.record) then [RefreshPost(path)] else []
    case 401 => [AuthPost]
    case 404 => [RefreshPost(path)]
    case 429 => [Wait(reply.retryAfterMs)]
    case _ => []
  }

  /** `check_price` once the sku is known. A 401 replaces the token (the next
      generation), a 404 sets `retries = 0`. A failed attempt retries while
      `retries` is truthy, that is non-zero. */
  function Attempts(v: Variant, cfg: Settings, sku: string, retries: int, rqUpdate: bool, token: nat, replies: seq<PriceReply>): (run: PriceRun)
    ensures |run.rest| <= |replies|
    ensures run.token >= token
    decreases |replies|
  {
    var path := Quote(sku);
    if replies == [] then PriceRun(Raised(NoReply), token, [], [PriceGet(path)])
    else
      var reply := replies[0];
      var head := [PriceGet(path)] + Reaction(cfg, path, rqUpdate, reply);
      var token' := if reply.status == 401 then token + 1 else token;
      var retries' := if reply.status == 404 then 0 else retries;
      if !IsOk(reply.status) then
        if retries' != 0 then
          var sub := Attempts(v, cfg, sku, retries' - 1, rqUpdate, token', replies[1..]);
          PriceRun(sub.result, sub.token, sub.rest, head + sub.events)
        else
          PriceRun(Returned(None), token', replies[1..], head)
      else if reply.status == 200 then
        PriceRun(Returned(Some(reply.record)), token', replies[1..], head)
      else
        PriceRun(if v == ReturnsFromBranches then Raised(UnboundLocal) else Returned(None), token', replies[1..], head)
  }

  /** `check_price(name, item_sku, retries, rq_update)`. Without a name and
      without a sku, `None.replace` raises before any request. */
  function CheckPriceRun(v: Variant, cfg: Settings, name: string, itemSku: Option<string>, retries: int, rqUpdate: bool,
                         token: nat, replies: seq<PriceReply>): PriceRun
  {
    match ResolveSku(cfg.skuOf, name, itemSku)
    case None => PriceRun(Raised(NoneAttribute), token, replies, [])
    case Some(sku) => Attempts(v, cfg, sku, retries, rqUpdate, token, replies)
  }

  // ---------------------------------------------------------------------------
  // Counting events

  lemma CountIfCons(e: Event, s: seq<Event>, p: Event -> bool)
    ensures CountIf([e] + s, p) == (if p(e) then 1 else 0) + CountIf(s, p)
  {
    assert ([e] + s)[1..] == s;
  }

  /** An attempt sends exactly one GET; it asks for a new token exactly on a 401. */
  lemma HeadCounts(cfg: Settings, path: string, rqUpdate: bool, reply: PriceReply)
    ensures CountIf([PriceGet(path)] + Reaction(cfg, path, rqUpdate, reply), IsPriceGet) == 1
    ensures CountIf([PriceGet(path)] + Reaction(cfg, path, rqUpdate, reply), IsAuth) == (if reply.status == 401 then 1 else 0)
  {
    var r := Reaction(cfg, path, rqUpdate, reply);
    CountIfCons(PriceGet(path), r, IsPriceGet);
    CountIfCons(PriceGet(path), r, IsAuth);
    if r != [] {
      assert r == [r[0]] + [];
      CountIfCons(r[0], [], IsPriceGet);
      CountIfCons(r[0], [], IsAuth);
    }
  }

  // ---------------------------------------------------------------------------
  // Retry control

  /** An attempt sleeps only on a 429, for the `retry-after` it was given. */
  lemma HeadWaits(cfg: Settings, path: string, rqUpdate: bool, reply: PriceReply)
    ensures Waited([PriceGet(path)] + Reaction(cfg, path, rqUpdate, reply)) == if reply.status == 429 then reply.retryAfterMs else 0
  {
    var r := Reaction(cfg, path, rqUpdate, reply);
    assert ([PriceGet(path)] + r)[1..] == r;
    assert Waited([PriceGet(path)] + r) == Waited(r);
    if r != [] {
      assert |r| == 1 && r[1..] == [];
      assert Waited(r) == (if r[0].Wait? then r[0].ms else 0);
      assert r[0].Wait? <==> reply.status == 429;
    }
  }

  /** With a budget of `retries >= 0` at most `retries + 1` GETs are sent. */
  lemma {:induction false} AttemptBound(v: Variant, cfg: Settings, sku: string, retries: int, rqUpdate: bool, token: nat, replies: seq<PriceReply>)
    requires retries >= 0
    ensures CountIf(Attempts(v, cfg, sku, retries, rqUpdate, token, replies).events, IsPriceGet) <= retries + 1
    decreases |replies|
  {
    if replies != [] {
      var reply := replies[0];
      var path := Quote(sku);
      var head := [PriceGet(path)] + Reaction(cfg, path, rqUpdate, reply);
      HeadCounts(cfg, path, rqUpdate, reply);
      var token' := if reply.status == 401 then token + 1 else token;
      var retries' := if reply.status == 404 then 0 else retries;
      if !IsOk(reply.status) && retries' != 0 {
        var sub := Attempts(v, cfg, sku, retries' - 1, rqUpdate, token', replies[1..]);
        AttemptBound(v, cfg, sku, retries' - 1, rqUpdate, token', replies[1..]);
        CountIfAppend(head, sub.events, IsPriceGet);
      }
    }
  }

  /** A negative budget is truthy too: failures other than 404 are retried until
      the oracle stops answering. */
  lemma {:induction false} NegativeBudgetNeverStops(v: Variant, cfg: Settings, sku: string, retries: int, rqUpdate: bool, token: nat, replies: seq<PriceReply>)
    requires retries < 0
    requires forall i :: 0 <= i < |replies| ==> !IsOk(replies[i].status) && replies[i].status != 404
    ensures var run := Attempts(v, cfg, sku, retries, rqUpdate, token, replies);
      run.result == Raised(NoReply) && CountIf(run.events, IsPriceGet) == |replies| + 1
    decreases |replies|
  {
    if replies != [] {
      var reply := replies[0];
      var path := Quote(sku);
      var head := [PriceGet(path)] + Reaction(cfg, path, rqUpdate, reply);
      HeadCounts(cfg, path, rqUpdate, reply);
      var token' := if reply.status == 401 then token + 1 else token;
      var sub := Attempts(v, cfg, sku, retries - 1, rqUpdate, token', replies[1..]);
      NegativeBudgetNeverStops(v, cfg, sku, retries - 1, rqUpdate, token', replies[1..]);
      CountIfAppend(head, sub.events, IsPriceGet);
    } else {
      CountIfCons(PriceGet(Quote(sku)), [], IsPriceGet);
    }
  }

  /** When the first `retries + 1` replies all fail, the call returns None. */
  lemma {:induction false} ExhaustedBudget(v: Variant, cfg: Settings, sku: string, retries: int, rqUpdate: bool, token: nat, replies: seq<PriceReply>)
    requires 0 <= retries < |replies|
    requires forall i :: 0 <= i <= retries ==> !IsOk(replies[i].status)
    ensures Attempts(v, cfg, sku, retries, rqUpdate, token, replies).result == Returned(None)
    decreases |replies|
  {
    var reply := replies[0];
    var token' := if reply.status == 401 then token + 1 else token;
    if reply.status != 404 && retries != 0 {
      assert forall i :: 0 <= i <= retries - 1 ==> replies[1..][i] == replies[i + 1];
      ExhaustedBudget(v, cfg, sku, retries - 1, rqUpdate, token', replies[1..]);
    }
  }

  /** A 404 asks for a refresh and gives up after this one attempt. */
  lemma NotFoundStops(v: Variant, cfg: Settings, sku: string, retries: int, rqUpdate: bool, token: nat, replies: seq<PriceReply>)
    requires replies != [] && replies[0].status == 404
    ensures Attempts(v, cfg, sku, retries, rqUpdate, token, replies)
      == PriceRun(Returned(None), token, replies[1..], [PriceGet(Quote(sku)), RefreshPost(Quote(sku))])
  {
  }

  /** A 200 returns the record; a refresh is requested exactly when `rq_update`
      holds and the record is stale. */
  lemma FoundReturnsRecord(v: Variant, cfg: Settings, sku: string, retries: int, rqUpdate: bool, token: nat, replies: seq<PriceReply>)
    requires replies != [] && replies[0].status == 200
    ensures var run := Attempts(v, cfg, sku, retries, rqUpdate, token, replies);
      && run.result == Returned(Some(replies[0].record))
      && run.token == token && run.rest == replies[1..]
      && run.events == [PriceGet(Quote(sku))] + (if rqUpdate && Stale(cfg, replies[0].record) then [RefreshPost(Quote(sku))] else [])
  {
  }

  /** A 401 takes a new token and a 429 waits; either way one retry is spent and
      the call goes on with the remaining replies, or returns None when none is left. */
  lemma AuthAndThrottleSpendRetry(v: Variant, cfg: Settings, sku: string, retries: int, rqUpdate: bool, token: nat, replies: seq<PriceReply>)
    requires replies != [] && (replies[0].status == 401 || replies[0].status == 429)
    ensures var run := Attempts(v, cfg, sku, retries, rqUpdate, token, replies);
      var reply := replies[0];
      var token' := if reply.status == 401 then token + 1 else token;
      var effect := if reply.status == 401 then AuthPost else Wait(reply.retryAfterMs);
      var sub := Attempts(v, cfg, sku, retries - 1, rqUpdate, token', replies[1..]);
      && (retries != 0 ==> run.result == sub.result && run.token == sub.token && run.rest == sub.rest
                            && run.events == [PriceGet(Quote(sku)), effect] + sub.events)
      && (retries == 0 ==> run == PriceRun(Returned(None), token', replies[1..], [PriceGet(Quote(sku)), effect]))
  {
    var reply := replies[0];
    var path := Quote(sku);
    var effect := if reply.status == 401 then AuthPost else Wait(reply.retryAfterMs);
    assert Reaction(cfg, path, rqUpdate, reply) == [effect];
    assert [PriceGet(path)] + [effect] == [PriceGet(path), effect];
  }

  /** An ok status other than 200 is where the versions part: main4.py reads an
      unbound `price`, the others return None. */
  lemma OkWithoutBody(cfg: Settings, sku: string, retries: int, rqUpdate: bool, token: nat, replies: seq<PriceReply>)
    requires replies != [] && IsOk(replies[0].status) && replies[0].status != 200
    ensures Attempts(ReturnsFromBranches, cfg, sku, retries, rqUpdate, token, replies).result == Raised(UnboundLocal)
    ensures Attempts(PriceStartsNone, cfg, sku, retries, rqUpdate, token, replies).result == Returned(None)
  {
  }

  /** As long as no reply is ok without being 200, the versions behave the same. */
  lemma {:induction false} VariantsAgree(cfg: Settings, sku: string, retries: int, rqUpdate: bool, token: nat, replies: seq<PriceReply>)
    requires forall i :: 0 <= i < |replies| ==> replies[i].status == 200 || !IsOk(replies[i].status)
    ensures Attempts(ReturnsFromBranches, cfg, sku, retries, rqUpdate, token, replies)
         == Attempts(PriceStartsNone, cfg, sku, retries, rqUpdate, token, replies)
    decreases |replies|
  {
    if replies != [] {
      var reply := replies[0];
      var token' := if reply.status == 401 then token + 1 else token;
      var retries' := if reply.status == 404 then 0 else retries;
      if !IsOk(reply.status) && retries' != 0 {
        assert forall i :: 0 <= i < |replies[1..]| ==> replies[1..][i] == replies[i + 1];
        VariantsAgree(cfg, sku, retries' - 1, rqUpdate, token', replies[1..]);
      }
    }
  }

  // ---------------------------------------------------------------------------
  // What a result is made of

  /** If `run` returned a record, that record came with the last reply it
      consumed from `replies`, and that reply was a 200. */
  predicate FoundIn(replies: seq<PriceReply>, run: PriceRun) {
    run.result.Returned? && run.result.value.Some? ==>
      && |run.rest| < |replies|
      && replies[|replies| - |run.rest| - 1].status == 200
      && replies[|replies| - |run.rest| - 1].record == run.result.value.value
  }

  /** A failed attempt with budget left ends as the retry does. */
  lemma RetryOutcome(v: Variant, cfg: Settings, sku: string, retries: int, rqUpdate: bool, token: nat, replies: seq<PriceReply>)
    requires replies != [] && !IsOk(replies[0].status) && replies[0].status != 404 && retries != 0
    ensures var run := Attempts(v, cfg, sku, retries, rqUpdate, token, replies);
      var sub := Attempts(v, cfg, sku, retries - 1, rqUpdate, if replies[0].status == 401 then token + 1 else token, replies[1..]);
      && run.result == sub.result && run.token == sub.token && run.rest == sub.rest
      && run.events == [PriceGet(Quote(sku))] + Reaction(cfg, Quote(sku), rqUpdate, replies[0]) + sub.events
  {
  }

  /** An attempt that does not retry ends the call. */
  lemma LastAttempt(v: Variant, cfg: Settings, sku: string, retries: int, rqUpdate: bool, token: nat, replies: seq<PriceReply>)
    requires replies != [] && (IsOk(replies[0].status) || replies[0].status == 404 || retries == 0)
    ensures var run := Attempts(v, cfg, sku, retries, rqUpdate, token, replies);
      var reply := replies[0];
      && run.token == (if reply.status == 401 then token + 1 else token) && run.rest == replies[1..]
      && run.events == [PriceGet(Quote(sku))] + Reaction(cfg, Quote(sku), rqUpdate, reply)
      && run.result == if !IsOk(reply.status) then Returned(None)
        else if reply.status == 200 then Returned(Some(reply.record))
        else if v == ReturnsFromBranches then Raised(UnboundLocal) else Returned(None)
  {
  }

  /** A record is only ever returned from a 200 reply: the last one consumed. */
  lemma {:induction false} RecordFromFound(v: Variant, cfg: Settings, sku: string, retries: int, rqUpdate: bool, token: nat, replies: seq<PriceReply>)
    ensures FoundIn(replies, Attempts(v, cfg, sku, retries, rqUpdate, token, replies))
    decreases |replies|
  {
    if replies != [] {
      var reply := replies[0];
      if !IsOk(reply.status) && reply.status != 404 && retries != 0 {
        var token' := if reply.status == 401 then token + 1 else token;
        var tail := replies[1..];
        var run := Attempts(v, cfg, sku, retries, rqUpdate, token, replies);
        var sub := Attempts(v, cfg, sku, retries - 1, rqUpdate, token', tail);
        RecordFromFound(v, cfg, sku, retries - 1, rqUpdate, token', tail);
        RetryOutcome(v, cfg, sku, retries, rqUpdate, token, replies);
        if sub.result.Returned? && sub.result.value.Some? {
          assert tail[|tail| - |sub.rest| - 1] == replies[|replies| - |run.rest| - 1];
        }
      } else {
        LastAttempt(v, cfg, sku, retries, rqUpdate, token, replies);
      }
    }
  }

  /** The token generation grows by one for every auth POST, and by nothing else. */
  lemma {:induction false} TokenCountsAuth(v: Variant, cfg: Settings, sku: string, retries: int, rqUpdate: bool, token: nat, replies: seq<PriceReply>)
    ensures var run := Attempts(v, cfg, sku, retries, rqUpdate, token, replies);
      run.token == token + CountIf(run.events, IsAuth)
    decreases |replies|
  {
    var path := Quote(sku);
    if replies == [] {
      CountIfCons(PriceGet(path), [], IsAuth);
    } else {
      var reply := replies[0];
      var head := [PriceGet(path)] + Reaction(cfg, path, rqUpdate, reply);
      HeadCounts(cfg, path, rqUpdate, reply);
      var token' := if reply.status == 401 then token + 1 else token;
      var retries' := if reply.status == 404 then 0 else retries;
      if !IsOk(reply.status) && retries' != 0 {
        var sub := Attempts(v, cfg, sku, retries' - 1, rqUpdate, token', replies[1..]);
        TokenCountsAuth(v, cfg, sku, retries' - 1, rqUpdate, token', replies[1..]);
        CountIfAppend(head, sub.events, IsAuth);
      }
    }
  }

  /** Every GET and refresh POST among `events` names `path`. */
  predicate AllPaths(events: seq<Event>, path: string) {
    forall i :: 0 <= i < |events| && (events[i].PriceGet? || events[i].RefreshPost?) ==> events[i].path == path
  }

  lemma AllPathsAppend(a: seq<Event>, b: seq<Event>, path: string)
    requires AllPaths(a, path) && AllPaths(b, path)
    ensures AllPaths(a + b, path)
  {
    forall i | 0 <= i < |a + b| && ((a + b)[i].PriceGet? || (a + b)[i].RefreshPost?)
      ensures (a + b)[i].path == path
    {
      if i >= |a| {
        assert (a + b)[i] == b[i - |a|];
      } else {
        assert (a + b)[i] == a[i];
      }
    }
  }

  /** Every GET and every refresh POST names the quoted sku, which has no `;`. */
  lemma {:induction false} PathsQuoted(v: Variant, cfg: Settings, sku: string, retries: int, rqUpdate: bool, token: nat, replies: seq<PriceReply>)
    ensures AllPaths(Attempts(v, cfg, sku, retries, rqUpdate, token, replies).events, Quote(sku))
    ensures ';' !in Quote(sku)
    decreases |replies|
  {
    var path := Quote(sku);
    if replies != [] {
      var reply := replies[0];
      var head := [PriceGet(path)] + Reaction(cfg, path, rqUpdate, reply);
      assert AllPaths(head, path);
      var token' := if reply.status == 401 then token + 1 else token;
      var retries' := if reply.status == 404 then 0 else retries;
      if !IsOk(reply.status) && retries' != 0 {
        var sub := Attempts(v, cfg, sku, retries' - 1, rqUpdate, token', replies[1..]);
        PathsQuoted(v, cfg, sku, retries' - 1, rqUpdate, token', replies[1..]);
        AllPathsAppend(head, sub.events, path);
      }
    }
  }

  /** A name, when given, decides the sku; with neither, the call raises at once. */
  lemma NameDecidesSku(v: Variant, cfg: Settings, name: string, itemSku: Option<string>, retries: int, rqUpdate: bool, token: nat, replies: seq<PriceReply>)
    ensures name != "" ==>
      CheckPriceRun(v, cfg, name, itemSku, retries, rqUpdate, token, replies) == Attempts(v, cfg, cfg.skuOf(name), retries, rqUpdate, token, replies)
    ensures name == "" && itemSku == None ==>
      CheckPriceRun(v, cfg, name, itemSku, retries, rqUpdate, token, replies) == PriceRun(Raised(NoneAttribute), token, replies, [])
  {
  }

  // ---------------------------------------------------------------------------
  // Two lookups per weapon

  /** The oracle side of a client: token generation, replies left, events so far. */
  datatype OracleState = OracleState(token: nat, replies: seq<PriceReply>, events: seq<Event>)

  /** The two `check_price` results for one weapon, in call order. */
  datatype PricePair = PricePair(first: Option<PriceRecord>, second: Option<PriceRecord>)

  datatype PairsRun = PairsRun(result: Outcome<seq<PricePair>>, state: OracleState)

  /** One `check_price(name=...)` call with the default budget and refresh flag. */
  function Lookup(v: Variant, cfg: Settings, name: string, st: OracleState): PriceRun {
    CheckPriceRun(v, cfg, name, None, 3, true, st.token, st.replies)
  }

  /** `check_price(name=q.0)` and then `check_price(name=q.1)`; an exception in
      the first call skips the second. */
  function LookupPair(v: Variant, cfg: Settings, q: (string, string), st: OracleState): (r: (Outcome<PricePair>, OracleState))
    ensures |r.1.events| >= |st.events| && r.1.events[..|st.events|] == st.events
  {
    var a := Lookup(v, cfg, q.0, st);
    var afterA := OracleState(a.token, a.rest, st.events + a.events);
    if a.result.Raised? then (Raised(a.result.fault), afterA)
    else
      var b := Lookup(v, cfg, q.1, afterA);
      var afterB := OracleState(b.token, b.rest, afterA.events + b.events);
      assert afterB.events[..|st.events|] == st.events;
      if b.result.Raised? then (Raised(b.result.fault), afterB)
      else (Returned(PricePair(a.result.value, b.result.value)), afterB)
  }

  /** One turn of a loop over such pairs, after the turns that gave `prev`; an
      exception in an earlier turn or in this one ends the loop. */
  function NextPair(v: Variant, cfg: Settings, q: (string, string), prev: PairsRun): (run: PairsRun)
    ensures prev.result.Returned? && run.result.Returned? ==> |run.result.value| == |prev.result.value| + 1
    ensures prev.result.Raised? ==> run == prev
    ensures |run.state.events| >= |prev.state.events| && run.state.events[..|prev.state.events|] == prev.state.events
  {
    if prev.result.Raised? then prev
    else
      var (p, after) := LookupPair(v, cfg, q, prev.state);
      if p.Raised? then PairsRun(Raised(p.fault), after)
      else PairsRun(Returned(prev.result.value + [p.value]), after)
  }

  /** The loop over all the queries, in order. */
  function LookupPairs(v: Variant, cfg: Settings, queries: seq<(string, string)>, start: OracleState): (run: PairsRun)
    ensures run.result.Returned? ==> |run.result.value| == |queries|
    ensures |run.state.events| >= |start.events| && run.state.events[..|start.events|] == start.events
  {
    if queries == [] then PairsRun(Returned([]), start)
    else
      var prev := LookupPairs(v, cfg, queries[..|queries| - 1], start);
      var run := NextPair(v, cfg, queries[|queries| - 1], prev);
      assert run.state.events[..|start.events|] == run.state.events[..|prev.state.events|][..|start.events|];
      run
  }

  /** The loop's turn `i` follows the turns before it. */
  lemma LookupPairsNext(v: Variant, cfg: Settings, queries: seq<(string, string)>, i: nat, start: OracleState)
    requires i < |queries|
    ensures LookupPairs(v, cfg, queries[..i + 1], start) == NextPair(v, cfg, queries[i], LookupPairs(v, cfg, queries[..i], start))
  {
    assert queries[..i + 1][..i] == queries[..i];
  }

  /** Once a prefix of the queries raises, the whole loop ends as that prefix did. */
  lemma {:induction false} LookupPairsStops(v: Variant, cfg: Settings, queries: seq<(string, string)>, j: nat, start: OracleState)
    requires j <= |queries| && LookupPairs(v, cfg, queries[..j], start).result.Raised?
    ensures LookupPairs(v, cfg, queries, start) == LookupPairs(v, cfg, queries[..j], start)
  {
    if j < |queries| {
      var front := queries[..|queries| - 1];
      assert front[..j] == queries[..j];
      LookupPairsStops(v, cfg, front, j, start);
    } else {
      assert queries[..j] == queries;
    }
  }

  /** The loop's token is the start token plus one per auth POST it caused. */
  lemma {:induction false} LookupPairsTokens(v: Variant, cfg: Settings, queries: seq<(string, string)>, start: OracleState)
    ensures var run := LookupPairs(v, cfg, queries, start);
      run.state.token + CountIf(start.events, IsAuth) == start.token + CountIf(run.state.events, IsAuth)
  {
    if queries != [] {
      var prev := LookupPairs(v, cfg, queries[..|queries| - 1], start);
      LookupPairsTokens(v, cfg, queries[..|queries| - 1], start);
      if prev.result.Returned? {
        LookupPairTokens(v, cfg, queries[|queries| - 1], prev.state);
      }
    }
  }

  /** The token after a pair of lookups is the one before plus the auth POSTs
      they caused. */
  lemma LookupPairTokens(v: Variant, cfg: Settings, q: (string, string), st: OracleState)
    ensures var after := LookupPair(v, cfg, q, st).1;
      after.token + CountIf(st.events, IsAuth) == st.token + CountIf(after.events, IsAuth)
  {
    var a := Lookup(v, cfg, q.0, st);
    LookupTokens(v, cfg, q.0, st);
    CountIfAppend(st.events, a.events, IsAuth);
    var afterA := OracleState(a.token, a.rest, st.events + a.events);
    if a.result.Returned? {
      var b := Lookup(v, cfg, q.1, afterA);
      LookupTokens(v, cfg, q.1, afterA);
      CountIfAppend(afterA.events, b.events, IsAuth);
    }
  }

  lemma LookupTokens(v: Variant, cfg: Settings, name: string, st: OracleState)
    ensures var run := Lookup(v, cfg, name, st); run.token == st.token + CountIf(run.events, IsAuth)
  {
    match ResolveSku(cfg.skuOf, name, None)
    case None =>
    case Some(sku) => TokenCountsAuth(v, cfg, sku, 3, true, st.token, st.replies);
  }
}
