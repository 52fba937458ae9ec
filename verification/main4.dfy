/** main4.py: the `PriceGrabber` whose `grab_listings` waits out a 60-second
    cache window between snapshot requests, whose flip evaluators fill a
    name-to-profit dict, and whose `sort_flips` ranks that dict. The clock
    (`time.time()`) is a field in milliseconds that only sleeping advances. */
module Main4 {
  import opened Common
  import opened Sorting
  import opened Listings
  import opened Oracle
  import opened Flips

  /** The marketplace caches a snapshot for 60 seconds. */
  const ThrottleMs: int := 60000

  /** The default `retries` of `grab_listings` and `check_price`. */
  const DefaultRetries: int := 3

  /** How one `grab_listings` call ends: its result, the clock and `last_bp_sc`
      afterwards, the replies not consumed and the events it caused. */
  datatype GrabRun = GrabRun(result: Outcome<Option<seq<Listing>>>, clock: int, lastBpSc: int, rest: seq<SnapshotReply>, events: seq<Event>)

  /** The clock when the request goes out: 60 s after `last_bp_sc`, or now if
      that has passed. */
  function Resume(clock: int, lastBpSc: int): (now: int)
    ensures now >= clock && now >= lastBpSc + ThrottleMs
    ensures now == clock || now == lastBpSc + ThrottleMs
  {
    if lastBpSc + ThrottleMs - clock > 0 then lastBpSc + ThrottleMs else clock
  }

  /** The `time.sleep` before the request, when the window is still open. */
  function Pause(clock: int, lastBpSc: int): (pause: seq<Event>)
    ensures Waited(pause) == Resume(clock, lastBpSc) - clock && CountIf(pause, IsSnapshotGet) == 0
  {
    var untilUncached := lastBpSc + ThrottleMs - clock;
    if untilUncached > 0 then
      var pause := [Wait(untilUncached)];
      assert pause[1..] == [];
      pause
    else []
  }

  /** Whether a reply makes `grab_listings` call itself again: a failure with
      retries left, or a snapshot of another item. */
  predicate Again(name: string, retries: int, reply: SnapshotReply) {
    (!IsOk(reply.status) && retries > 0) || (reply.status == 200 && reply.sku != name)
  }

  /** The `retries` of that call: one fewer after a failure, the default after a
      mismatch. */
  function Budget(retries: int, reply: SnapshotReply): int {
    if !IsOk(reply.status) then retries - 1 else DefaultRetries
  }

  /** How an attempt ends when it does not call itself again: None after a
      failure, an unbound `response` after an ok reply other than 200, else the
      snapshot's listings. */
  function Final(reply: SnapshotReply): Outcome<Option<seq<Listing>>> {
    if !IsOk(reply.status) then Returned(None)
    else if reply.status != 200 then Raised(UnboundLocal)
    else Returned(reply.listings)
  }

  /** `grab_listings(name, retries)` started at `clock`. It first sleeps until 60 s
      after `last_bp_sc`, then requests and stamps `last_bp_sc`. A failed request
      is retried while `retries > 0`; a snapshot for another item is requested
      again with the default budget; an ok reply other than 200 leaves
      `response` unbound. */
  function GrabListingsRun(name: string, retries: int, clock: int, lastBpSc: int, replies: seq<SnapshotReply>): (run: GrabRun)
    ensures |run.rest| <= |replies|
    decreases |replies|
  {
    var now := Resume(clock, lastBpSc);
    if replies == [] then GrabRun(Raised(NoReply), now, lastBpSc, [], Pause(clock, lastBpSc) + [SnapshotGet(name)])
    else
      var reply := replies[0];
      var head := Pause(clock, lastBpSc) + [SnapshotGet(name)] + Backoff(reply);
      var after := now + BackoffMs(reply);
      if Again(name, retries, reply) then
        var sub := GrabListingsRun(name, Budget(retries, reply), after, now, replies[1..]);
        GrabRun(sub.result, sub.clock, sub.lastBpSc, sub.rest, head + sub.events)
      else
        GrabRun(Final(reply), after, now, replies[1..], head)
  }

  // ---------------------------------------------------------------------------
  // The 60-second window

  /** Every snapshot request in `events` is sent at least 60 s after the one
      before it (after `last` for the first); `now` is the clock when `events`
      begin, and only waits move it. */
  predicate Throttled(events: seq<Event>, now: int, last: int)
    decreases |events|
  {
    if events == [] then true
    else
      match events[0]
      case Wait(ms) => Throttled(events[1..], now + ms, last)
      case SnapshotGet(_) => now >= last + ThrottleMs && Throttled(events[1..], now, now)
      case _ => Throttled(events[1..], now, last)
  }

  /** The clock and the last request stamp once `events` are over. */
  function ThrottleEnd(events: seq<Event>, now: int, last: int): (int, int)
    decreases |events|
  {
    if events == [] then (now, last)
    else
      match events[0]
      case Wait(ms) => ThrottleEnd(events[1..], now + ms, last)
      case SnapshotGet(_) => ThrottleEnd(events[1..], now, now)
      case _ => ThrottleEnd(events[1..], now, last)
  }

  lemma {:induction false} ThrottleEndAppend(a: seq<Event>, b: seq<Event>, now: int, last: int)
    ensures ThrottleEnd(a + b, now, last) == ThrottleEnd(b, ThrottleEnd(a, now, last).0, ThrottleEnd(a, now, last).1)
    decreases |a|
  {
    if a == [] {
      assert a + b == b;
    } else {
      assert (a + b)[0] == a[0] && (a + b)[1..] == a[1..] + b;
      match a[0]
      case Wait(ms) => ThrottleEndAppend(a[1..], b, now + ms, last);
      case SnapshotGet(_) => ThrottleEndAppend(a[1..], b, now, now);
      case _ => ThrottleEndAppend(a[1..], b, now, last);
    }
  }

  /** Two stretches that each keep the window, the second starting where the
      first ends, keep it together. */
  lemma {:induction false} ThrottledAppend(a: seq<Event>, b: seq<Event>, now: int, last: int)
    requires Throttled(a, now, last)
    requires Throttled(b, ThrottleEnd(a, now, last).0, ThrottleEnd(a, now, last).1)
    ensures Throttled(a + b, now, last)
    decreases |a|
  {
    if a == [] {
      assert a + b == b;
    } else {
      assert (a + b)[0] == a[0] && (a + b)[1..] == a[1..] + b;
      match a[0]
      case Wait(ms) => ThrottledAppend(a[1..], b, now + ms, last);
      case SnapshotGet(_) => ThrottledAppend(a[1..], b, now, now);
      case _ => ThrottledAppend(a[1..], b, now, last);
    }
  }

  lemma ThrottledWait(ms: nat, s: seq<Event>, now: int, last: int)
    requires Throttled(s, now + ms, last)
    ensures Throttled([Wait(ms)] + s, now, last)
  {
    assert ([Wait(ms)] + s)[1..] == s;
  }

  lemma ThrottledGet(name: string, s: seq<Event>, now: int, last: int)
    requires now >= last + ThrottleMs && Throttled(s, now, now)
    ensures Throttled([SnapshotGet(name)] + s, now, last)
  {
    assert ([SnapshotGet(name)] + s)[1..] == s;
  }

  /** One attempt's own events respect the window, given that what follows
      respects it from the attempt's end. */
  lemma ThrottledAttempt(name: string, clock: int, lastBpSc: int, reply: SnapshotReply, tail: seq<Event>)
    requires Throttled(tail, Resume(clock, lastBpSc) + BackoffMs(reply), Resume(clock, lastBpSc))
    ensures Throttled(Pause(clock, lastBpSc) + [SnapshotGet(name)] + Backoff(reply) + tail, clock, lastBpSc)
  {
    var now := Resume(clock, lastBpSc);
    var afterGet := Backoff(reply) + tail;
    if reply.status == 429 {
      ThrottledWait(reply.retryAfterS * 1000, tail, now, now);
    } else {
      assert afterGet == tail;
    }
    ThrottledGet(name, afterGet, now, lastBpSc);
    assert Pause(clock, lastBpSc) + [SnapshotGet(name)] + Backoff(reply) + tail == Pause(clock, lastBpSc) + ([SnapshotGet(name)] + afterGet);
    if now != clock {
      ThrottledWait(now - clock, [SnapshotGet(name)] + afterGet, clock, lastBpSc);
    }
  }

  /** `grab_listings` never sends a snapshot request less than 60 s after the
      previous one, across its retries and re-requests. */
  lemma {:induction false} GrabThrottled(name: string, retries: int, clock: int, lastBpSc: int, replies: seq<SnapshotReply>)
    ensures Throttled(GrabListingsRun(name, retries, clock, lastBpSc, replies).events, clock, lastBpSc)
    decreases |replies|
  {
    var now := Resume(clock, lastBpSc);
    if replies == [] {
      ThrottledGet(name, [], now, lastBpSc);
      if now != clock {
        ThrottledWait(now - clock, [SnapshotGet(name)], clock, lastBpSc);
      }
    } else {
      var reply := replies[0];
      var head := Pause(clock, lastBpSc) + [SnapshotGet(name)] + Backoff(reply);
      var after := now + BackoffMs(reply);
      if Again(name, retries, reply) {
        var sub := GrabListingsRun(name, Budget(retries, reply), after, now, replies[1..]);
        GrabThrottled(name, Budget(retries, reply), after, now, replies[1..]);
        ThrottledAttempt(name, clock, lastBpSc, reply, sub.events);
      } else {
        ThrottledAttempt(name, clock, lastBpSc, reply, []);
        assert head + [] == head;
      }
    }
  }

  /** The clock moves by exactly the time slept, and every attempt sends one
      snapshot request. */
  lemma {:induction false} GrabClock(name: string, retries: int, clock: int, lastBpSc: int, replies: seq<SnapshotReply>)
    ensures var run := GrabListingsRun(name, retries, clock, lastBpSc, replies);
      run.clock == clock + Waited(run.events)
    decreases |replies|
  {
    var now := Resume(clock, lastBpSc);
    WaitedAppend(Pause(clock, lastBpSc), [SnapshotGet(name)]);
    assert Waited([SnapshotGet(name)]) == 0;
    if replies != [] {
      var reply := replies[0];
      var head := Pause(clock, lastBpSc) + [SnapshotGet(name)] + Backoff(reply);
      var after := now + BackoffMs(reply);
      WaitedAppend(Pause(clock, lastBpSc) + [SnapshotGet(name)], Backoff(reply));
      if Again(name, retries, reply) {
        var sub := GrabListingsRun(name, Budget(retries, reply), after, now, replies[1..]);
        GrabClock(name, Budget(retries, reply), after, now, replies[1..]);
        WaitedAppend(head, sub.events);
      }
    }
  }

  /** One attempt's events hold exactly one snapshot request. */
  lemma AttemptRequestsOnce(name: string, clock: int, lastBpSc: int, reply: SnapshotReply)
    ensures CountIf(Pause(clock, lastBpSc) + [SnapshotGet(name)] + Backoff(reply), IsSnapshotGet) == 1
  {
    CountIfAppend(Pause(clock, lastBpSc) + [SnapshotGet(name)], Backoff(reply), IsSnapshotGet);
    CountIfAppend(Pause(clock, lastBpSc), [SnapshotGet(name)], IsSnapshotGet);
    assert CountIf([SnapshotGet(name)], IsSnapshotGet) == 1 by { assert [SnapshotGet(name)][1..] == []; }
  }

  // ---------------------------------------------------------------------------
  // Retries and results

  /** A failed request with no budget left gives None after that one request. */
  lemma NoBudgetGivesNone(name: string, retries: int, clock: int, lastBpSc: int, replies: seq<SnapshotReply>)
    requires replies != [] && !IsOk(replies[0].status) && retries <= 0
    ensures var run := GrabListingsRun(name, retries, clock, lastBpSc, replies);
      run.result == Returned(None) && run.rest == replies[1..] && CountIf(run.events, IsSnapshotGet) == 1
  {
    AttemptRequestsOnce(name, clock, lastBpSc, replies[0]);
  }

  /** A call that ends without calling itself again requests once. */
  lemma RequestsOfLast(name: string, retries: int, clock: int, lastBpSc: int, replies: seq<SnapshotReply>)
    requires replies == [] || !Again(name, retries, replies[0])
    ensures CountIf(GrabListingsRun(name, retries, clock, lastBpSc, replies).events, IsSnapshotGet) == 1
  {
    if replies == [] {
      CountIfAppend(Pause(clock, lastBpSc), [SnapshotGet(name)], IsSnapshotGet);
      assert CountIf([SnapshotGet(name)], IsSnapshotGet) == 1 by { assert [SnapshotGet(name)][1..] == []; }
    } else {
      AttemptRequestsOnce(name, clock, lastBpSc, replies[0]);
    }
  }

  /** A call that calls itself again requests once more than that call. */
  lemma RequestsOfAgain(name: string, retries: int, clock: int, lastBpSc: int, replies: seq<SnapshotReply>)
    requires replies != [] && Again(name, retries, replies[0])
    ensures var now := Resume(clock, lastBpSc);
      var sub := GrabListingsRun(name, Budget(retries, replies[0]), now + BackoffMs(replies[0]), now, replies[1..]);
      CountIf(GrabListingsRun(name, retries, clock, lastBpSc, replies).events, IsSnapshotGet) == 1 + CountIf(sub.events, IsSnapshotGet)
  {
    var now := Resume(clock, lastBpSc);
    var sub := GrabListingsRun(name, Budget(retries, replies[0]), now + BackoffMs(replies[0]), now, replies[1..]);
    var head := Pause(clock, lastBpSc) + [SnapshotGet(name)] + Backoff(replies[0]);
    AgainUnfold(name, retries, clock, lastBpSc, replies);
    AttemptRequestsOnce(name, clock, lastBpSc, replies[0]);
    CountIfAppend(head, sub.events, IsSnapshotGet);
  }

  /** Failed requests are retried at most `retries` times: a call sends at most
      `retries + 1` snapshot requests before a mismatch restarts the budget. */
  lemma {:induction false} FailuresBounded(name: string, retries: int, clock: int, lastBpSc: int, replies: seq<SnapshotReply>)
    requires forall i :: 0 <= i < |replies| ==> replies[i].sku == name
    ensures CountIf(GrabListingsRun(name, retries, clock, lastBpSc, replies).events, IsSnapshotGet) <= if retries < 0 then 1 else retries + 1
    decreases |replies|
  {
    if replies != [] && Again(name, retries, replies[0]) {
      var now := Resume(clock, lastBpSc);
      assert replies[0].sku == name;
      FailuresBounded(name, retries - 1, now + BackoffMs(replies[0]), now, replies[1..]);
      RequestsOfAgain(name, retries, clock, lastBpSc, replies);
    } else {
      RequestsOfLast(name, retries, clock, lastBpSc, replies);
    }
  }

  /** A snapshot of another item is requested again with the full default
      budget, whatever was left. */
  lemma MismatchResetsBudget(name: string, retries: int, clock: int, lastBpSc: int, replies: seq<SnapshotReply>)
    requires replies != [] && replies[0].status == 200 && replies[0].sku != name
    ensures var run := GrabListingsRun(name, retries, clock, lastBpSc, replies);
      var now := Resume(clock, lastBpSc);
      var sub := GrabListingsRun(name, DefaultRetries, now, now, replies[1..]);
      run.result == sub.result && run.rest == sub.rest && run.lastBpSc == sub.lastBpSc
  {
  }

  /** A 200 snapshot of the right item gives its listings, or None when the
      reply has no "listings" key; an ok reply other than 200 raises. */
  lemma OkReplyEnds(name: string, retries: int, clock: int, lastBpSc: int, replies: seq<SnapshotReply>)
    requires replies != [] && IsOk(replies[0].status) && (replies[0].status != 200 || replies[0].sku == name)
    ensures var run := GrabListingsRun(name, retries, clock, lastBpSc, replies);
      && run.rest == replies[1..]
      && run.lastBpSc == Resume(clock, lastBpSc)
      && run.result == if replies[0].status == 200 then Returned(replies[0].listings) else Raised(UnboundLocal)
  {
  }

  /** Listings only ever come from a 200 snapshot of the requested item: the
      last reply consumed. */
  predicate ListingsMatch(name: string, replies: seq<SnapshotReply>, run: GrabRun) {
    run.result.Returned? && run.result.value.Some? ==>
      && |run.rest| < |replies|
      && replies[|replies| - |run.rest| - 1].status == 200
      && replies[|replies| - |run.rest| - 1].sku == name
      && replies[|replies| - |run.rest| - 1].listings == run.result.value
  }

  /** A run that ends as its recursive call did keeps the property. */
  lemma ListingsMatchThrough(name: string, replies: seq<SnapshotReply>, sub: GrabRun, run: GrabRun)
    requires replies != [] && |sub.rest| <= |replies| - 1
    requires ListingsMatch(name, replies[1..], sub)
    requires run.result == sub.result && run.rest == sub.rest
    ensures ListingsMatch(name, replies, run)
  {
    var tail := replies[1..];
    if sub.result.Returned? && sub.result.value.Some? {
      assert tail[|tail| - |sub.rest| - 1] == replies[|replies| - |run.rest| - 1];
    }
  }

  /** A call that calls itself again ends as that call does. */
  lemma AgainUnfold(name: string, retries: int, clock: int, lastBpSc: int, replies: seq<SnapshotReply>)
    requires replies != [] && Again(name, retries, replies[0])
    ensures var now := Resume(clock, lastBpSc);
      var sub := GrabListingsRun(name, Budget(retries, replies[0]), now + BackoffMs(replies[0]), now, replies[1..]);
      var run := GrabListingsRun(name, retries, clock, lastBpSc, replies);
      && run.result == sub.result && run.rest == sub.rest && run.lastBpSc == sub.lastBpSc && run.clock == sub.clock
      && run.events == Pause(clock, lastBpSc) + [SnapshotGet(name)] + Backoff(replies[0]) + sub.events
  {
  }

  lemma ListingsFromLastReply(name: string, retries: int, clock: int, lastBpSc: int, replies: seq<SnapshotReply>)
    requires replies == [] || !Again(name, retries, replies[0])
    ensures ListingsMatch(name, replies, GrabListingsRun(name, retries, clock, lastBpSc, replies))
  {
  }

  /** Without a reply the request raises, after the wait and the request. */
  lemma NoReplyGrab(name: string, retries: int, clock: int, lastBpSc: int)
    ensures GrabListingsRun(name, retries, clock, lastBpSc, [])
      == GrabRun(Raised(NoReply), Resume(clock, lastBpSc), lastBpSc, [], Pause(clock, lastBpSc) + [SnapshotGet(name)])
  {
  }

  /** A call that does not call itself again ends with its one attempt. */
  lemma LastGrab(name: string, retries: int, clock: int, lastBpSc: int, replies: seq<SnapshotReply>)
    requires replies != [] && !Again(name, retries, replies[0])
    ensures var now := Resume(clock, lastBpSc);
      GrabListingsRun(name, retries, clock, lastBpSc, replies)
        == GrabRun(Final(replies[0]), now + BackoffMs(replies[0]), now, replies[1..],
                   Pause(clock, lastBpSc) + [SnapshotGet(name)] + Backoff(replies[0]))
  {
  }

  lemma {:induction false} ListingsFromMatch(name: string, retries: int, clock: int, lastBpSc: int, replies: seq<SnapshotReply>)
    ensures ListingsMatch(name, replies, GrabListingsRun(name, retries, clock, lastBpSc, replies))
    decreases |replies|
  {
    if replies != [] && Again(name, retries, replies[0]) {
      var now := Resume(clock, lastBpSc);
      var budget, after := Budget(retries, replies[0]), now + BackoffMs(replies[0]);
      ListingsFromMatch(name, budget, after, now, replies[1..]);
      AgainUnfold(name, retries, clock, lastBpSc, replies);
      ListingsMatchThrough(name, replies, GrabListingsRun(name, budget, after, now, replies[1..]), GrabListingsRun(name, retries, clock, lastBpSc, replies));
    } else {
      ListingsFromLastReply(name, retries, clock, lastBpSc, replies);
    }
  }

  /** An attempt ends at the clock after its sleeps, stamped when it requested. */
  lemma AttemptEnd(name: string, clock: int, lastBpSc: int, reply: SnapshotReply)
    ensures var now := Resume(clock, lastBpSc);
      ThrottleEnd(Pause(clock, lastBpSc) + [SnapshotGet(name)] + Backoff(reply), clock, lastBpSc) == (now + BackoffMs(reply), now)
  {
    var now := Resume(clock, lastBpSc);
    var pause := Pause(clock, lastBpSc);
    ThrottleEndAppend(pause + [SnapshotGet(name)], Backoff(reply), clock, lastBpSc);
    ThrottleEndAppend(pause, [SnapshotGet(name)], clock, lastBpSc);
    if now != clock {
      assert pause == [Wait(now - clock)];
      assert ThrottleEnd(pause, clock, lastBpSc) == ThrottleEnd([], now, lastBpSc);
    } else {
      assert pause == [];
    }
    assert ThrottleEnd([SnapshotGet(name)], now, lastBpSc) == ThrottleEnd([], now, now);
    if reply.status == 429 {
      assert ThrottleEnd(Backoff(reply), now, now) == ThrottleEnd([], now + BackoffMs(reply), now);
    }
  }

  /** Unless the request itself failed, `grab_listings` leaves `last_bp_sc` at
      the stamp of its last request and the clock where its sleeps end. */
  predicate EndsInState(clock: int, lastBpSc: int, run: GrabRun) {
    run.result != Raised(NoReply) ==> ThrottleEnd(run.events, clock, lastBpSc) == (run.clock, run.lastBpSc)
  }

  lemma GrabEndLast(name: string, retries: int, clock: int, lastBpSc: int, replies: seq<SnapshotReply>)
    requires replies == [] || !Again(name, retries, replies[0])
    ensures EndsInState(clock, lastBpSc, GrabListingsRun(name, retries, clock, lastBpSc, replies))
  {
    if replies != [] {
      AttemptEnd(name, clock, lastBpSc, replies[0]);
    }
  }

  /** A run made of a first attempt and a recursive call ends where the call does. */
  lemma EndsThrough(clock: int, lastBpSc: int, head: seq<Event>, middle: (int, int), sub: GrabRun, run: GrabRun)
    requires ThrottleEnd(head, clock, lastBpSc) == middle && EndsInState(middle.0, middle.1, sub)
    requires run.result == sub.result && run.clock == sub.clock && run.lastBpSc == sub.lastBpSc && run.events == head + sub.events
    ensures EndsInState(clock, lastBpSc, run)
  {
    ThrottleEndAppend(head, sub.events, clock, lastBpSc);
  }

  /** One retry: the call ends where the call it makes ends. */
  lemma GrabEndStep(name: string, retries: int, clock: int, lastBpSc: int, replies: seq<SnapshotReply>)
    requires replies != [] && Again(name, retries, replies[0])
    requires var now := Resume(clock, lastBpSc);
      EndsInState(now + BackoffMs(replies[0]), now, GrabListingsRun(name, Budget(retries, replies[0]), now + BackoffMs(replies[0]), now, replies[1..]))
    ensures EndsInState(clock, lastBpSc, GrabListingsRun(name, retries, clock, lastBpSc, replies))
  {
    var reply := replies[0];
    var now := Resume(clock, lastBpSc);
    var head := Pause(clock, lastBpSc) + [SnapshotGet(name)] + Backoff(reply);
    var middle := (now + BackoffMs(reply), now);
    var sub := GrabListingsRun(name, Budget(retries, reply), middle.0, middle.1, replies[1..]);
    AttemptEnd(name, clock, lastBpSc, reply);
    AgainUnfold(name, retries, clock, lastBpSc, replies);
    EndsThrough(clock, lastBpSc, head, middle, sub, GrabListingsRun(name, retries, clock, lastBpSc, replies));
  }

  lemma {:induction false} GrabEnd(name: string, retries: int, clock: int, lastBpSc: int, replies: seq<SnapshotReply>)
    ensures EndsInState(clock, lastBpSc, GrabListingsRun(name, retries, clock, lastBpSc, replies))
    decreases |replies|
  {
    if replies != [] && Again(name, retries, replies[0]) {
      var now := Resume(clock, lastBpSc);
      GrabEnd(name, Budget(retries, replies[0]), now + BackoffMs(replies[0]), now, replies[1..]);
      GrabEndStep(name, retries, clock, lastBpSc, replies);
    } else {
      GrabEndLast(name, retries, clock, lastBpSc, replies);
    }
  }

  // ---------------------------------------------------------------------------
  // Two marketplace lookups per weapon

  /** The marketplace side of the grabber: clock, `last_bp_sc`, replies left,
      events so far. */
  datatype MarketState = MarketState(clock: int, lastBpSc: int, replies: seq<SnapshotReply>, events: seq<Event>)

  datatype OffersRun = OffersRun(result: Outcome<seq<OfferPair>>, state: MarketState)

  /** `sort_listings(intent, name, banned_attributes=(1004, ..., 1009))`: the
      snapshot is grabbed with the default budget, then one offer is picked. */
  function Offer(intent: string, name: string, st: MarketState): (Outcome<Option<Listing>>, MarketState) {
    var grab := GrabListingsRun(name, DefaultRetries, st.clock, st.lastBpSc, st.replies);
    (SelectBest(grab.result, intent, BannedCodes), MarketState(grab.clock, grab.lastBpSc, grab.rest, st.events + grab.events))
  }

  /** One turn of the loop of `refine_ks_flips`, after the turns that gave
      `prev`: the kit's 'sell' offer and then the weapon's 'buy' offer; an
      exception in an earlier turn or in either call ends the loop. */
  function NextOffer(q: (string, string), prev: OffersRun): (run: OffersRun)
    ensures prev.result.Returned? && run.result.Returned? ==> |run.result.value| == |prev.result.value| + 1
    ensures prev.result.Raised? ==> run == prev
    ensures |run.state.events| >= |prev.state.events| && run.state.events[..|prev.state.events|] == prev.state.events
  {
    if prev.result.Raised? then prev
    else
      var (kit, afterKit) := Offer("sell", q.0, prev.state);
      if kit.Raised? then OffersRun(Raised(kit.fault), afterKit)
      else
        var (weapon, afterWeapon) := Offer("buy", q.1, afterKit);
        if weapon.Raised? then OffersRun(Raised(weapon.fault), afterWeapon)
        else OffersRun(Returned(prev.result.value + [OfferPair(kit.value, weapon.value)]), afterWeapon)
  }

  /** The loop over all the queries, in order. */
  function LookupOffers(queries: seq<(string, string)>, start: MarketState): (run: OffersRun)
    ensures run.result.Returned? ==> |run.result.value| == |queries|
    ensures |run.state.events| >= |start.events| && run.state.events[..|start.events|] == start.events
  {
    if queries == [] then OffersRun(Returned([]), start)
    else
      var prev := LookupOffers(queries[..|queries| - 1], start);
      var run := NextOffer(queries[|queries| - 1], prev);
      assert run.state.events[..|start.events|] == run.state.events[..|prev.state.events|][..|start.events|];
      run
  }

  /** The loop's turn `i` follows the turns before it. */
  lemma LookupOffersNext(queries: seq<(string, string)>, i: nat, start: MarketState)
    requires i < |queries|
    ensures LookupOffers(queries[..i + 1], start) == NextOffer(queries[i], LookupOffers(queries[..i], start))
  {
    assert queries[..i + 1][..i] == queries[..i];
  }

  /** Once a prefix of the queries raises, the whole loop ends as that prefix did. */
  lemma {:induction false} LookupOffersStops(queries: seq<(string, string)>, j: nat, start: MarketState)
    requires j <= |queries| && LookupOffers(queries[..j], start).result.Raised?
    ensures LookupOffers(queries, start) == LookupOffers(queries[..j], start)
  {
    if j < |queries| {
      var front := queries[..|queries| - 1];
      assert front[..j] == queries[..j];
      LookupOffersStops(front, j, start);
    } else {
      assert queries[..j] == queries;
    }
  }

  /** What a stretch of marketplace work added to the events keeps the window
      from where it began and, if nothing raised, ends in state `st`. */
  predicate KeepsWindow(start: MarketState, st: MarketState, returned: bool) {
    && |st.events| >= |start.events| && st.events[..|start.events|] == start.events
    && Throttled(st.events[|start.events|..], start.clock, start.lastBpSc)
    && (returned ==> ThrottleEnd(st.events[|start.events|..], start.clock, start.lastBpSc) == (st.clock, st.lastBpSc))
  }

  /** One `sort_listings` call keeps the window, and ends where its grab did. */
  lemma OfferKeepsWindow(intent: string, name: string, st: MarketState)
    ensures var (r, after) := Offer(intent, name, st);
      KeepsWindow(st, after, r.Returned?)
  {
    var grab := GrabListingsRun(name, DefaultRetries, st.clock, st.lastBpSc, st.replies);
    GrabThrottled(name, DefaultRetries, st.clock, st.lastBpSc, st.replies);
    GrabEnd(name, DefaultRetries, st.clock, st.lastBpSc, st.replies);
    assert (st.events + grab.events)[|st.events|..] == grab.events;
    assert (st.events + grab.events)[..|st.events|] == st.events;
  }

  /** Keeping the window composes along a run. */
  lemma KeepsWindowChain(start: MarketState, mid: MarketState, end: MarketState, returned: bool)
    requires KeepsWindow(start, mid, true) && KeepsWindow(mid, end, returned)
    ensures KeepsWindow(start, end, returned)
  {
    var a := mid.events[|start.events|..];
    var b := end.events[|mid.events|..];
    assert end.events[..|start.events|] == end.events[..|mid.events|][..|start.events|];
    assert end.events[|start.events|..] == a + b by {
      assert end.events == mid.events + b;
      assert mid.events == start.events + a;
    }
    ThrottledAppend(a, b, start.clock, start.lastBpSc);
    ThrottleEndAppend(a, b, start.clock, start.lastBpSc);
  }

  /** Every snapshot request of the loop, across all weapons and retries, is
      sent at least 60 s after the one before. */
  lemma {:induction false} LookupOffersThrottled(queries: seq<(string, string)>, start: MarketState)
    ensures var run := LookupOffers(queries, start);
      KeepsWindow(start, run.state, run.result.Returned?)
  {
    if queries == [] {
      assert start.events[|start.events|..] == [];
      assert start.events[..|start.events|] == start.events;
    } else {
      var prev := LookupOffers(queries[..|queries| - 1], start);
      LookupOffersThrottled(queries[..|queries| - 1], start);
      if prev.result.Returned? {
        var q := queries[|queries| - 1];
        var (kit, afterKit) := Offer("sell", q.0, prev.state);
        OfferKeepsWindow("sell", q.0, prev.state);
        KeepsWindowChain(start, prev.state, afterKit, kit.Returned?);
        if kit.Returned? {
          var (weapon, afterWeapon) := Offer("buy", q.1, afterKit);
          OfferKeepsWindow("buy", q.1, afterKit);
          KeepsWindowChain(start, afterKit, afterWeapon, weapon.Returned?);
        }
      }
    }
  }

  // ---------------------------------------------------------------------------
  // What the flip evaluators compute

  /** `price_ks_flips`'s value for one weapon from its (weapon, kit) lookups:
      None when either failed, else weapon buy minus kit sell. */
  function FlipValue(p: PricePair): Option<int> {
    if p.first.None? || p.second.None? then None
    else Some(BuyValue(p.first.value) - SellValue(p.second.value))
  }

  function FlipValues(pairs: seq<PricePair>): (r: seq<Option<int>>)
    ensures |r| == |pairs|
  {
    seq(|pairs|, j requires 0 <= j < |pairs| => FlipValue(pairs[j]))
  }

  function ListingProfits(pairs: seq<OfferPair>): (r: seq<Option<int>>)
    ensures |r| == |pairs|
  {
    seq(|pairs|, j requires 0 <= j < |pairs| => ListingProfit(pairs[j]))
  }

  /** The (weapon, kit) names `price_ks_flips` looks up for each weapon; the
      quality already ends in a space, so the weapon name has two. */
  function PriceQueries(keys: seq<string>, quality: string): (r: seq<(string, string)>)
    ensures |r| == |keys|
  {
    seq(|keys|, j requires 0 <= j < |keys| =>
      (Spaced(quality) + " Killstreak " + keys[j], "Non-Craftable " + Spaced(quality) + "Killstreak " + keys[j] + " Kit"))
  }

  /** The (kit, weapon) names `refine_ks_flips` looks up for each weapon. */
  function RefineQueries(keys: seq<string>, quality: string): (r: seq<(string, string)>)
    ensures |r| == |keys|
  {
    seq(|keys|, j requires 0 <= j < |keys| =>
      ("Non-Craftable " + Spaced(quality) + "Killstreak " + keys[j] + " Kit", Spaced(quality) + "Killstreak " + keys[j]))
  }

  function ValuesOf(items: seq<Entry>): (r: seq<Option<int>>)
    ensures |r| == |items|
  {
    seq(|items|, j requires 0 <= j < |items| => items[j].1)
  }

  function Nones(n: nat): (r: seq<Option<int>>)
    ensures |r| == n
  {
    seq(n, j => None)
  }

  /** Storing a value under the key at position `i` changes that value only. */
  lemma EntriesUpdate(keys: seq<string>, values: seq<Option<int>>, i: nat, v: Option<int>)
    requires |keys| == |values| && i < |keys|
    ensures Entries(keys, values)[i := (keys[i], v)] == Entries(keys, values[i := v])
  {
  }

  lemma EntriesDistinct(keys: seq<string>, values: seq<Option<int>>)
    requires |keys| == |values|
    requires forall a, b :: 0 <= a < b < |keys| ==> keys[a] != keys[b]
    ensures DistinctKeys(Entries(keys, values)) && KeysOf(Entries(keys, values)) == keys
  {
  }

  lemma EntriesOfItems(items: seq<Entry>)
    ensures Entries(KeysOf(items), ValuesOf(items)) == items
  {
  }

  /** A dict's keys, listed, are pairwise distinct. */
  lemma KeysOfDistinct(items: seq<Entry>)
    requires DistinctKeys(items)
    ensures var keys := KeysOf(items); forall a, b :: 0 <= a < b < |keys| ==> keys[a] != keys[b]
  {
  }

  /** After turn `i` of `price_ks_flips` the first `i + 1` values are set. */
  lemma FlipValuesNext(pairs: seq<PricePair>, p: PricePair, n: nat)
    requires |pairs| < n
    ensures (FlipValues(pairs) + Nones(n - |pairs|))[|pairs| := FlipValue(p)] == FlipValues(pairs + [p]) + Nones(n - |pairs| - 1)
  {
  }

  /** Turn `i` of `price_ks_flips` stores the pair's value under key `i`. */
  lemma FlipStep(keys: seq<string>, pairs: seq<PricePair>, pair: PricePair, items: seq<Entry>, k: string, v: Option<int>)
    requires |pairs| < |keys|
    requires forall a, b :: 0 <= a < b < |keys| ==> keys[a] != keys[b]
    requires items == Entries(keys, FlipValues(pairs) + Nones(|keys| - |pairs|))
    requires k == keys[|pairs|] && v == FlipValue(pair)
    ensures Assign(items, k, v) == Entries(keys, FlipValues(pairs + [pair]) + Nones(|keys| - |pairs| - 1))
    ensures DistinctKeys(Assign(items, k, v))
  {
    var i := |pairs|;
    var values := FlipValues(pairs) + Nones(|keys| - i);
    EntriesDistinct(keys, values);
    AssignPresent(items, i, v);
    EntriesUpdate(keys, values, i, v);
    FlipValuesNext(pairs, pair, |keys|);
    EntriesDistinct(keys, FlipValues(pairs + [pair]) + Nones(|keys| - i - 1));
  }

  /** After turn `i` of `refine_ks_flips` the first `i + 1` values are replaced. */
  lemma ListingProfitsNext(pairs: seq<OfferPair>, p: OfferPair, values: seq<Option<int>>)
    requires |pairs| < |values|
    ensures (ListingProfits(pairs) + values[|pairs|..])[|pairs| := ListingProfit(p)] == ListingProfits(pairs + [p]) + values[|pairs| + 1..]
  {
  }

  /** Turn `i` of `refine_ks_flips` replaces the value under key `i`. */
  lemma RefineStep(keys: seq<string>, pairs: seq<OfferPair>, pair: OfferPair, values: seq<Option<int>>, items: seq<Entry>, k: string, v: Option<int>)
    requires |pairs| < |keys| == |values|
    requires forall a, b :: 0 <= a < b < |keys| ==> keys[a] != keys[b]
    requires items == Entries(keys, ListingProfits(pairs) + values[|pairs|..])
    requires k == keys[|pairs|] && v == ListingProfit(pair)
    ensures Assign(items, k, v) == Entries(keys, ListingProfits(pairs + [pair]) + values[|pairs| + 1..])
    ensures DistinctKeys(Assign(items, k, v))
  {
    var i := |pairs|;
    var current := ListingProfits(pairs) + values[i..];
    EntriesDistinct(keys, current);
    AssignPresent(items, i, v);
    EntriesUpdate(keys, current, i, v);
    ListingProfitsNext(pairs, pair, values);
    EntriesDistinct(keys, ListingProfits(pairs + [pair]) + values[i + 1..]);
  }

  /** The `j`-th unpriced key is still in the dict when its turn to be popped comes. */
  lemma PopStep(original: seq<Entry>, j: nat)
    requires DistinctKeys(original) && j < |KeysOf(Unpriced(original))|
    ensures var names := KeysOf(Unpriced(original));
      && names[j] in KeysOf(Without(original, names[..j]))
      && Without(Without(original, names[..j]), [names[j]]) == Without(original, names[..j + 1])
  {
    UnpricedKeyLeft(original, j);
    WithoutNext(original, KeysOf(Unpriced(original)), j);
  }

  // ---------------------------------------------------------------------------
  // The grabber

  class PriceGrabber {
    /** `sku.parser.Sku.name_to_sku`. */
    const skuOf: string -> string
    /** `date.today()` at construction, as a day number. */
    const today: int
    const daysUntilOld: int

    /** The generation of `price_auth_token`: one per auth POST. */
    var priceAuthToken: nat
    var lastBpSc: int
    /** `time.time()`, in milliseconds; only sleeping moves it. */
    var clock: int
    /** The replies the pricing oracle and the marketplace will give, in order. */
    var oracle: seq<PriceReply>
    var market: seq<SnapshotReply>
    /** Every request sent and every sleep, in order. */
    var trace: seq<Event>

    function Config(): Settings {
      Settings(skuOf, today, daysUntilOld)
    }

    function Market(): MarketState
      reads this
    {
      MarketState(clock, lastBpSc, market, trace)
    }

    function Oracle(): OracleState
      reads this
    {
      OracleState(priceAuthToken, oracle, trace)
    }

    /** The token is replaced once per auth POST, and by nothing else. */
    ghost predicate Valid()
      reads this
    {
      priceAuthToken == CountIf(trace, IsAuth)
    }

    /** `__init__`: fetches the first auth token; nothing was grabbed yet. */
    constructor (skuOf: string -> string, today: int, daysUntilOld: int, clock: int,
                 oracle: seq<PriceReply>, market: seq<SnapshotReply>)
      ensures this.skuOf == skuOf && this.today == today && this.daysUntilOld == daysUntilOld
      ensures this.clock == clock && this.oracle == oracle && this.market == market
      ensures priceAuthToken == 1 && lastBpSc == 0 && trace == [AuthPost]
      ensures Valid()
    {
      this.skuOf := skuOf;
      this.today := today;
      this.daysUntilOld := daysUntilOld;
      this.clock := clock;
      this.oracle := oracle;
      this.market := market;
      priceAuthToken := 1;
      lastBpSc := 0;
      trace := [AuthPost];
      new;
      assert trace[1..] == [];
    }

    /** `time.sleep`. */
    method Sleep(ms: nat)
      requires Valid()
      modifies this
      ensures trace == old(trace) + [Wait(ms)] && clock == old(clock) + ms
      ensures priceAuthToken == old(priceAuthToken) && lastBpSc == old(lastBpSc)
      ensures oracle == old(oracle) && market == old(market)
      ensures Valid()
    {
      WaitedAppend(trace, [Wait(ms)]);
      CountIfAppend(trace, [Wait(ms)], IsAuth);
      assert [Wait(ms)][1..] == [];
      clock := clock + ms;
      trace := trace + [Wait(ms)];
    }

    /** A request whose reply only the caller looks at. */
    method Send(e: Event)
      requires Valid() && !e.Wait? && !e.AuthPost?
      modifies this
      ensures trace == old(trace) + [e]
      ensures priceAuthToken == old(priceAuthToken) && lastBpSc == old(lastBpSc) && clock == old(clock)
      ensures oracle == old(oracle) && market == old(market)
      ensures Valid()
    {
      WaitedAppend(trace, [e]);
      CountIfAppend(trace, [e], IsAuth);
      assert [e][1..] == [];
      trace := trace + [e];
    }

    /** The auth POST: the next token. */
    method RenewToken()
      requires Valid()
      modifies this
      ensures trace == old(trace) + [AuthPost] && priceAuthToken == old(priceAuthToken) + 1
      ensures lastBpSc == old(lastBpSc) && clock == old(clock)
      ensures oracle == old(oracle) && market == old(market)
      ensures Valid()
    {
      WaitedAppend(trace, [AuthPost]);
      CountIfAppend(trace, [AuthPost], IsAuth);
      assert [AuthPost][1..] == [];
      priceAuthToken := priceAuthToken + 1;
      trace := trace + [AuthPost];
    }

    /** The `match page.status_code` of `check_price`: a 200 binds `price` and may
        ask for a refresh, a 401 fetches a new token, a 404 asks for a refresh
        and sets `retries = 0`, a 429 sleeps `retry-after` milliseconds. */
    method React(path: string, rqUpdate: bool, page: PriceReply, retries: int) returns (price: Option<PriceRecord>, left: int)
      requires Valid()
      modifies this
      ensures trace == old(trace) + Reaction(Config(), path, rqUpdate, page)
      ensures priceAuthToken == if page.status == 401 then old(priceAuthToken) + 1 else old(priceAuthToken)
      ensures price == (if page.status == 200 then Some(page.record) else None)
      ensures left == if page.status == 404 then 0 else retries
      ensures clock == old(clock) + if page.status == 429 then page.retryAfterMs else 0
      ensures lastBpSc == old(lastBpSc) && oracle == old(oracle) && market == old(market)
      ensures Valid()
    {
      price, left := None, retries;
      match page.status {
        case 200 =>
          price := Some(page.record);
          if rqUpdate && today > page.record.updatedAt + daysUntilOld {
            Send(RefreshPost(path));
          } else {
            assert old(trace) + [] == trace;
          }
        case 401 =>
          RenewToken();
        case 404 =>
          Send(RefreshPost(path));
          left := 0;
        case 429 =>
          Sleep(page.retryAfterMs);
        case _ =>
          assert old(trace) + [] == trace;
      }
    }

    /** `check_price(name, item_sku, retries, rq_update)`: a name, when given,
        decides the sku; without either, `None.replace` raises. */
    method CheckPrice(name: string, itemSku: Option<string>, retries: int, rqUpdate: bool) returns (r: Outcome<Option<PriceRecord>>)
      requires Valid()
      modifies this
      ensures var run := CheckPriceRun(ReturnsFromBranches, Config(), name, itemSku, retries, rqUpdate, old(priceAuthToken), old(oracle));
        && r == run.result && priceAuthToken == run.token && oracle == run.rest && trace == old(trace) + run.events
        && clock == old(clock) + Waited(run.events)
      ensures lastBpSc == old(lastBpSc) && market == old(market)
      ensures Valid()
    {
      var sku := itemSku;
      if name != "" {
        sku := Some(skuOf(name));
      }
      if sku.None? {
        assert trace == old(trace) + [];
        return Raised(NoneAttribute);
      }
      r := PriceAttempts(sku.value, retries, rqUpdate);
    }

    /** The body of `check_price` once `item_sku` is set. Its retry passes the
        same name and the sku it resolved to, so it resolves to that sku again;
        the recursion is written on the sku. */
    method PriceAttempts(sku: string, retries: int, rqUpdate: bool) returns (r: Outcome<Option<PriceRecord>>)
      requires Valid()
      modifies this
      ensures var run := Attempts(ReturnsFromBranches, Config(), sku, retries, rqUpdate, old(priceAuthToken), old(oracle));
        && r == run.result && priceAuthToken == run.token && oracle == run.rest && trace == old(trace) + run.events
        && clock == old(clock) + Waited(run.events)
      ensures lastBpSc == old(lastBpSc) && market == old(market)
      ensures Valid()
      decreases |oracle|
    {
      var path := Quote(sku);
      ghost var cfg, token0, replies0 := Config(), priceAuthToken, oracle;
      Send(PriceGet(path));
      if oracle == [] {
        assert Waited([PriceGet(path)]) == 0;
        return Raised(NoReply);
      }
      var page := oracle[0];
      oracle := oracle[1..];
      var price, left := React(path, rqUpdate, page, retries);
      ghost var head := [PriceGet(path)] + Reaction(cfg, path, rqUpdate, page);
      assert trace == old(trace) + head;
      HeadWaits(cfg, path, rqUpdate, page);
      if !IsOk(page.status) && left != 0 {
        ghost var mid := trace;
        RetryOutcome(ReturnsFromBranches, cfg, sku, retries, rqUpdate, token0, replies0);
        ghost var sub := Attempts(ReturnsFromBranches, cfg, sku, retries - 1, rqUpdate, if page.status == 401 then token0 + 1 else token0, replies0[1..]);
        assert priceAuthToken == (if page.status == 401 then token0 + 1 else token0) && oracle == replies0[1..] && left - 1 == retries - 1;
        r := PriceAttempts(sku, left - 1, rqUpdate);
        assert trace == mid + sub.events;
        JoinTrace(old(trace), head, mid, sub.events, trace);
        WaitedAppend(head, sub.events);
      } else {
        LastAttempt(ReturnsFromBranches, cfg, sku, retries, rqUpdate, token0, replies0);
        if !IsOk(page.status) {
          r := Returned(None);
        } else if price.Some? {
          r := Returned(price);
        } else {
          r := Raised(UnboundLocal);
        }
      }
    }

    /** Sleeps until the snapshot cache has expired: 60 s after `last_bp_sc`. */
    method AwaitWindow()
      requires Valid()
      modifies this
      ensures trace == old(trace) + Pause(old(clock), old(lastBpSc)) && clock == Resume(old(clock), old(lastBpSc))
      ensures priceAuthToken == old(priceAuthToken) && lastBpSc == old(lastBpSc)
      ensures oracle == old(oracle) && market == old(market)
      ensures Valid()
    {
      var untilUncached := lastBpSc + ThrottleMs - clock;
      if untilUncached > 0 {
        Sleep(untilUncached);
      } else {
        assert trace == old(trace) + [];
      }
    }

    /** After a 429 the grabber sleeps `retry-after` seconds. */
    method BackOff(page: SnapshotReply)
      requires Valid()
      modifies this
      ensures trace == old(trace) + Backoff(page) && clock == old(clock) + BackoffMs(page)
      ensures priceAuthToken == old(priceAuthToken) && lastBpSc == old(lastBpSc)
      ensures oracle == old(oracle) && market == old(market)
      ensures Valid()
    {
      if page.status == 429 {
        Sleep(page.retryAfterS * 1000);
      } else {
        assert trace == old(trace) + [];
      }
    }

    /** One snapshot request of `grab_listings`: wait out the cache window,
        send, stamp `last_bp_sc`, and sleep after a 429. None when no reply came. */
    method Fetch(itemName: string) returns (page: Option<SnapshotReply>)
      requires Valid()
      modifies this
      ensures old(market) == [] ==>
        && page.None? && market == [] && lastBpSc == old(lastBpSc) && clock == Resume(old(clock), old(lastBpSc))
        && trace == old(trace) + Pause(old(clock), old(lastBpSc)) + [SnapshotGet(itemName)]
      ensures old(market) != [] ==>
        && page == Some(old(market)[0]) && market == old(market)[1..]
        && lastBpSc == Resume(old(clock), old(lastBpSc))
        && clock == Resume(old(clock), old(lastBpSc)) + BackoffMs(old(market)[0])
        && trace == old(trace) + (Pause(old(clock), old(lastBpSc)) + [SnapshotGet(itemName)] + Backoff(old(market)[0]))
      ensures priceAuthToken == old(priceAuthToken) && oracle == old(oracle)
      ensures Valid()
    {
      ghost var now := Resume(clock, lastBpSc);
      ghost var sent := old(trace) + Pause(clock, lastBpSc) + [SnapshotGet(itemName)];
      AwaitWindow();
      Send(SnapshotGet(itemName));
      assert trace == sent && clock == now;
      if market == [] {
        return None;
      }
      var reply := market[0];
      market := market[1..];
      lastBpSc := clock;
      BackOff(reply);
      assert trace == sent + Backoff(reply);
      page := Some(reply);
    }

    /** `grab_listings(item_name, retries)`. `response` is None while unbound. */
    method GrabListings(itemName: string, retries: int) returns (r: Outcome<Option<seq<Listing>>>)
      requires Valid()
      modifies this
      ensures var run := GrabListingsRun(itemName, retries, old(clock), old(lastBpSc), old(market));
        && r == run.result && clock == run.clock && lastBpSc == run.lastBpSc && market == run.rest
        && trace == old(trace) + run.events
      ensures priceAuthToken == old(priceAuthToken) && oracle == old(oracle)
      ensures Valid()
      decreases |market|
    {
      ghost var clock0, last0, replies0 := clock, lastBpSc, market;
      var fetched := Fetch(itemName);
      if fetched.None? {
        NoReplyGrab(itemName, retries, clock0, last0);
        return Raised(NoReply);
      }
      var page := fetched.value;
      var response: Option<SnapshotReply> := None;
      if page.status == 200 {
        response := Some(page);
      }
      ghost var head := Pause(clock0, last0) + [SnapshotGet(itemName)] + Backoff(page);
      if !IsOk(page.status) && retries > 0 {
        ghost var mid := trace;
        ghost var sub := GrabListingsRun(itemName, retries - 1, clock, lastBpSc, market);
        AgainUnfold(itemName, retries, clock0, last0, replies0);
        r := GrabListings(itemName, retries - 1);
        JoinTrace(old(trace), head, mid, sub.events, trace);
      } else if !IsOk(page.status) {
        LastGrab(itemName, retries, clock0, last0, replies0);
        r := Returned(None);
      } else if response.None? {
        LastGrab(itemName, retries, clock0, last0, replies0);
        r := Raised(UnboundLocal);
      } else if response.value.sku != itemName {
        ghost var mid := trace;
        ghost var sub := GrabListingsRun(itemName, DefaultRetries, clock, lastBpSc, market);
        AgainUnfold(itemName, retries, clock0, last0, replies0);
        r := GrabListings(itemName, DefaultRetries);
        JoinTrace(old(trace), head, mid, sub.events, trace);
      } else {
        LastGrab(itemName, retries, clock0, last0, replies0);
        r := Returned(response.value.listings);
      }
    }

    /** `sort_listings(intent, item_name, banned_attributes)`: grabs the snapshot,
        keeps the eligible listings and picks the cheapest 'sell' or the dearest
        'buy' offer. */
    method SortListings(intent: string, itemName: string, banned: seq<int>) returns (r: Outcome<Option<Listing>>)
      requires Valid()
      modifies this
      ensures var run := GrabListingsRun(itemName, DefaultRetries, old(clock), old(lastBpSc), old(market));
        && r == SelectBest(run.result, intent, banned)
        && clock == run.clock && lastBpSc == run.lastBpSc && market == run.rest && trace == old(trace) + run.events
      ensures priceAuthToken == old(priceAuthToken) && oracle == old(oracle)
      ensures Valid()
    {
      var listings := GrabListings(itemName, DefaultRetries);
      if listings.Raised? {
        return Raised(listings.fault);
      }
      if listings.value.None? {
        return Returned(None);
      }
      var valid := Collect(listings.value.value, intent, banned, true);
      if valid != [] {
        if intent == "sell" {
          return Returned(Some(SortBy(valid, Price)[0]));
        }
        if intent == "buy" {
          var sorted := SortBy(valid, Price);
          return Returned(Some(sorted[|sorted| - 1]));
        }
      }
      r := Returned(None);
    }

    /** `sort_flips(flips)`: pops every unpriced weapon from the caller's dict,
        rebuilds the rest by falling profit and appends the unpriced ones. */
    static method SortFlips(flips: FlipDict) returns (r: FlipDict)
      requires flips.Valid()
      modifies flips
      ensures flips.items == Priced(old(flips.items)) && flips.Valid()
      ensures fresh(r) && r.items == RankedFlips(old(flips.items)) && r.Valid()
    {
      ghost var original := flips.items;
      PricedDistinct(original);
      var unpriced := Unpriced(flips.items);
      var names := KeysOf(unpriced);
      var j := 0;
      WithoutNothing(original);
      assert names[..0] == [];
      while j < |names|
        invariant 0 <= j <= |names|
        invariant flips.items == Without(original, names[..j]) && flips.Valid()
      {
        PopStep(original, j);
        var popped := flips.Pop(names[j]);
        j := j + 1;
      }
      assert names[..j] == names;
      PopUnpricedLeavesPriced(original);
      r := new FlipDict.FromEntries(SortByDesc(flips.items, Profit));
      r.Update(unpriced);
      RebuildIsRanked(original);
      RankedDistinct(original);
    }

    /** The two `check_price` calls of one `price_ks_flips` turn: the weapon's,
        then the kit's unless the first raised. */
    method PricePairOf(weaponName: string, kitName: string) returns (r: Outcome<PricePair>)
      requires Valid()
      modifies this
      ensures (r, Oracle()) == LookupPair(ReturnsFromBranches, Config(), (weaponName, kitName), old(Oracle()))
      ensures clock == old(clock) + Waited(trace) - Waited(old(trace))
      ensures lastBpSc == old(lastBpSc) && market == old(market)
      ensures Valid()
    {
      ghost var a := Lookup(ReturnsFromBranches, Config(), weaponName, Oracle());
      var weaponJson := CheckPrice(weaponName, None, 3, true);
      WaitedAppend(old(trace), a.events);
      if weaponJson.Raised? {
        return Raised(weaponJson.fault);
      }
      ghost var afterA := Oracle();
      ghost var b := Lookup(ReturnsFromBranches, Config(), kitName, afterA);
      var kitJson := CheckPrice(kitName, None, 3, true);
      WaitedAppend(afterA.events, b.events);
      if kitJson.Raised? {
        return Raised(kitJson.fault);
      }
      r := Returned(PricePair(weaponJson.value, kitJson.value));
    }

    /** One weapon of the `price_ks_flips` loop: the killstreak weapon's
        `check_price`, then its kit's (an exception in the first skips the
        second), and the value stored under the weapon's key `keys[i]`. */
    method PriceTurn(flips: FlipDict, keys: seq<string>, i: nat, weaponName: string, kitName: string, ghost pairs: seq<PricePair>)
      returns (r: Outcome<PricePair>)
      requires Valid()
      requires |pairs| == i < |keys| && forall a, b :: 0 <= a < b < |keys| ==> keys[a] != keys[b]
      requires flips.items == Entries(keys, FlipValues(pairs) + Nones(|keys| - i))
      modifies this, flips
      ensures (r, Oracle()) == LookupPair(ReturnsFromBranches, Config(), (weaponName, kitName), old(Oracle()))
      ensures r.Raised? ==> flips.items == old(flips.items)
      ensures r.Returned? ==> flips.items == Entries(keys, FlipValues(pairs + [r.value]) + Nones(|keys| - i - 1))
      ensures flips.Valid()
      ensures clock == old(clock) + Waited(trace) - Waited(old(trace))
      ensures lastBpSc == old(lastBpSc) && market == old(market)
      ensures Valid()
    {
      EntriesDistinct(keys, FlipValues(pairs) + Nones(|keys| - i));
      r := PricePairOf(weaponName, kitName);
      if r.Raised? {
        return;
      }
      var value := FlipValue(r.value);
      FlipStep(keys, pairs, r.value, flips.items, keys[i], value);
      flips.Set(keys[i], value);
    }

    /** The `for flip in flips` loop of `price_ks_flips` over a dict whose
        values are all None: every value is replaced by the flip value of
        weapon `keys[i]`, or the loop stops at the first exception. */
    method PriceLoop(flips: FlipDict, quality: string, q: string) returns (failed: Option<Fault>)
      requires Valid() && flips.Valid() && q == Spaced(quality)
      requires flips.items == Entries(KeysOf(flips.items), Nones(|flips.items|))
      modifies this, flips
      ensures var keys := KeysOf(old(flips.items));
        var run := LookupPairs(ReturnsFromBranches, Config(), PriceQueries(keys, quality), old(Oracle()));
        && Oracle() == run.state
        && (failed.Some? <==> run.result.Raised?)
        && (failed.Some? ==> failed.value == run.result.fault)
        && (failed.None? ==> flips.items == Entries(keys, FlipValues(run.result.value)))
      ensures flips.Valid()
      ensures clock == old(clock) + Waited(trace) - Waited(old(trace))
      ensures lastBpSc == old(lastBpSc) && market == old(market)
      ensures Valid()
    {
      var keys := KeysOf(flips.items);
      ghost var cfg, queries, start := Config(), PriceQueries(keys, quality), Oracle();
      ghost var pairs: seq<PricePair> := [];
      assert flips.items == Entries(keys, FlipValues(pairs) + Nones(|keys|));
      var i := 0;
      while i < |keys|
        invariant 0 <= i <= |keys| && |pairs| == i
        invariant flips.Valid()
        invariant LookupPairs(ReturnsFromBranches, cfg, queries[..i], start) == PairsRun(Returned(pairs), Oracle())
        invariant flips.items == Entries(keys, FlipValues(pairs) + Nones(|keys| - i))
        invariant clock - Waited(trace) == old(clock) - Waited(old(trace))
        invariant lastBpSc == old(lastBpSc) && market == old(market)
        invariant Valid()
      {
        var flip := keys[i];
        LookupPairsNext(ReturnsFromBranches, cfg, queries, i, start);
        var weaponName := q + " Killstreak " + flip;
        var kitName := "Non-Craftable " + q + "Killstreak " + flip + " Kit";
        assert queries[i].0 == Spaced(quality) + " Killstreak " + keys[i];
        assert queries[i].1 == "Non-Craftable " + Spaced(quality) + "Killstreak " + keys[i] + " Kit";
        assert (weaponName, kitName) == queries[i];
        var prices := PriceTurn(flips, keys, i, weaponName, kitName, pairs);
        if prices.Raised? {
          LookupPairsStops(ReturnsFromBranches, cfg, queries, i + 1, start);
          return Some(prices.fault);
        }
        pairs := pairs + [prices.value];
        i := i + 1;
      }
      assert queries[..i] == queries;
      failed := None;
    }

    /** `price_ks_flips(quality)`: one entry per non-blank weapon name, valued
        by the oracle's buy price of the killstreak weapon minus its sell price
        of the kit, or None when either lookup found nothing. `weaponNames` are
        the lines of killstreakable_weapons_names.txt. */
    method PriceKsFlips(weaponNames: seq<string>, quality: string) returns (r: Outcome<FlipDict>)
      requires Valid()
      modifies this
      ensures var keys := UniqueNames(weaponNames);
        var run := LookupPairs(ReturnsFromBranches, Config(), PriceQueries(keys, quality), old(Oracle()));
        && Oracle() == run.state
        && (r.Raised? <==> run.result.Raised?)
        && (r.Raised? ==> r.fault == run.result.fault)
        && (r.Returned? ==> fresh(r.value) && r.value.Valid() && r.value.items == Entries(keys, FlipValues(run.result.value)))
      ensures clock == old(clock) + Waited(trace) - Waited(old(trace))
      ensures lastBpSc == old(lastBpSc) && market == old(market)
      ensures Valid()
    {
      var q := quality;
      if q != "" {
        q := q + " ";
      }
      var flips := new FlipDict.FromKeys(NonBlank(weaponNames));
      assert KeysOf(flips.items) == UniqueNames(weaponNames);
      assert flips.items == Entries(KeysOf(flips.items), Nones(|flips.items|));
      var failed := PriceLoop(flips, quality, q);
      if failed.Some? {
        return Raised(failed.value);
      }
      r := Returned(flips);
    }

    /** One weapon of the `refine_ks_flips` loop: the kit's cheapest 'sell'
        offer, then the weapon's dearest 'buy' offer (an exception in the first
        skips the second), and the profit stored under the weapon's key `keys[i]`. */
    method RefineTurn(ranked: FlipDict, keys: seq<string>, ghost values: seq<Option<int>>, i: nat, kitName: string, weaponName: string,
                      ghost pairs: seq<OfferPair>)
      returns (r: Outcome<OfferPair>)
      requires Valid()
      requires |pairs| == i < |keys| == |values| && forall a, b :: 0 <= a < b < |keys| ==> keys[a] != keys[b]
      requires ranked.items == Entries(keys, ListingProfits(pairs) + values[i..])
      modifies this, ranked
      ensures var after := NextOffer((kitName, weaponName), OffersRun(Returned(pairs), old(Market())));
        && Market() == after.state
        && (r.Raised? <==> after.result.Raised?)
        && (r.Raised? ==> r.fault == after.result.fault && ranked.items == old(ranked.items))
        && (r.Returned? ==> after.result.value == pairs + [r.value]
                            && ranked.items == Entries(keys, ListingProfits(pairs + [r.value]) + values[i + 1..]))
      ensures ranked.Valid()
      ensures priceAuthToken == old(priceAuthToken) && oracle == old(oracle)
      ensures Valid()
    {
      EntriesDistinct(keys, ListingProfits(pairs) + values[i..]);
      var kitListing := SortListings("sell", kitName, BannedCodes);
      if kitListing.Raised? {
        return Raised(kitListing.fault);
      }
      var weaponListing := SortListings("buy", weaponName, BannedCodes);
      if weaponListing.Raised? {
        return Raised(weaponListing.fault);
      }
      r := Returned(OfferPair(kitListing.value, weaponListing.value));
      var profit := ListingProfit(r.value);
      RefineStep(keys, pairs, r.value, values, ranked.items, keys[i], profit);
      ranked.Set(keys[i], profit);
    }

    /** The `for flip in flips` loop of `refine_ks_flips` over the ranked copy:
        every value is replaced by the profit of weapon `keys[i]`, or the loop
        stops at the first exception. */
    method RefineLoop(ranked: FlipDict, quality: string, q: string) returns (failed: Option<Fault>)
      requires Valid() && ranked.Valid() && q == Spaced(quality)
      modifies this, ranked
      ensures var keys := KeysOf(old(ranked.items));
        var run := LookupOffers(RefineQueries(keys, quality), old(Market()));
        && Market() == run.state
        && (failed.Some? <==> run.result.Raised?)
        && (failed.Some? ==> failed.value == run.result.fault)
        && (failed.None? ==> ranked.items == Entries(keys, ListingProfits(run.result.value)))
      ensures ranked.Valid()
      ensures priceAuthToken == old(priceAuthToken) && oracle == old(oracle)
      ensures Valid()
    {
      var keys := KeysOf(ranked.items);
      ghost var values := ValuesOf(ranked.items);
      EntriesOfItems(ranked.items);
      KeysOfDistinct(ranked.items);
      ghost var queries, start := RefineQueries(keys, quality), Market();
      ghost var pairs: seq<OfferPair> := [];
      assert values[0..] == values;
      var i := 0;
      while i < |keys|
        invariant 0 <= i <= |keys| && |pairs| == i
        invariant ranked.Valid()
        invariant LookupOffers(queries[..i], start) == OffersRun(Returned(pairs), Market())
        invariant ranked.items == Entries(keys, ListingProfits(pairs) + values[i..])
        invariant priceAuthToken == old(priceAuthToken) && oracle == old(oracle)
        invariant Valid()
      {
        var flip := keys[i];
        LookupOffersNext(queries, i, start);
        var kitName := "Non-Craftable " + q + "Killstreak " + flip + " Kit";
        var weaponName := q + "Killstreak " + flip;
        assert queries[i].0 == "Non-Craftable " + Spaced(quality) + "Killstreak " + keys[i] + " Kit";
        assert queries[i].1 == Spaced(quality) + "Killstreak " + keys[i];
        assert (kitName, weaponName) == queries[i];
        var offers := RefineTurn(ranked, keys, values, i, kitName, weaponName, pairs);
        if offers.Raised? {
          LookupOffersStops(queries, i + 1, start);
          return Some(offers.fault);
        }
        pairs := pairs + [offers.value];
        i := i + 1;
      }
      assert queries[..i] == queries;
      assert ListingProfits(pairs) + values[i..] == ListingProfits(pairs);
      failed := None;
    }

    /** The loop of `refine_ks_flips` and the final ranking, on the ranked copy. */
    method RefineRanked(ranked: FlipDict, quality: string, q: string) returns (r: Outcome<FlipDict>)
      requires Valid() && ranked.Valid() && q == Spaced(quality)
      modifies this, ranked
      ensures var keys := KeysOf(old(ranked.items));
        var run := LookupOffers(RefineQueries(keys, quality), old(Market()));
        && Market() == run.state
        && (r.Raised? <==> run.result.Raised?)
        && (r.Raised? ==> r.fault == run.result.fault)
        && (r.Returned? ==> fresh(r.value) && r.value.Valid()
                            && r.value.items == RankedFlips(Entries(keys, ListingProfits(run.result.value))))
      ensures priceAuthToken == old(priceAuthToken) && oracle == old(oracle)
      ensures Valid()
    {
      var failed := RefineLoop(ranked, quality, q);
      if failed.Some? {
        return Raised(failed.value);
      }
      var sorted := SortFlips(ranked);
      r := Returned(sorted);
    }

    /** `refine_ks_flips(flips, quality)`: ranks the caller's dict (which loses
        its unpriced entries), replaces every value by the profit of the
        weapon's dearest 'buy' offer over the kit's cheapest 'sell' offer on the
        marketplace, or None when either has none, and ranks the result. */
    method RefineKsFlips(flips: FlipDict, quality: string) returns (r: Outcome<FlipDict>)
      requires Valid() && flips.Valid()
      modifies this, flips
      ensures flips.items == Priced(old(flips.items))
      ensures var keys := KeysOf(RankedFlips(old(flips.items)));
        var run := LookupOffers(RefineQueries(keys, quality), old(Market()));
        && Market() == run.state
        && (r.Raised? <==> run.result.Raised?)
        && (r.Raised? ==> r.fault == run.result.fault)
        && (r.Returned? ==> fresh(r.value) && r.value.Valid()
                            && r.value.items == RankedFlips(Entries(keys, ListingProfits(run.result.value))))
      ensures priceAuthToken == old(priceAuthToken) && oracle == old(oracle)
      ensures Valid()
    {
      var ranked := SortFlips(flips);
      var q := quality;
      if q != "" {
        q := q + " ";
      }
      r := RefineRanked(ranked, quality, q);
    }
  }
}
