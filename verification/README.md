# PriceGrabber in Dafny

A model of the four versions of the `PriceGrabber` class of a Team Fortress 2
trading helper. The class prices items through the prices.tf oracle
(`check_price`, with token renewal, refresh requests and retries). It reads
backpack.tf listing snapshots (`grab_listings`, with retries, throttling and a
check that the snapshot is for the right item). It picks the best eligible
listing (`sort_listings`). It ranks killstreak-kit flips by profit or by a
profit band.

The four files disagree in many details, and each one is modelled as written:

| file | Dafny module | what differs |
|---|---|---|
| main4.py | `Main4` | 60 s snapshot throttle on `last_bp_sc` and a clock; `check_price` leaves `price` unbound on an ok non-200 status; name→profit dictionaries (`price_ks_flips`, `refine_ks_flips`, `sort_flips`) |
| mainv3.py | `MainV3` | `check_price` starts from `price = None`; a retried snapshot request always ends in an exception; profit bands; `validate_killstreak_flipping` sorts the caller's list in place |
| mainv2.py | `MainV2` | no oracle; `defindex` compared without `int`; the dearest listing for either intent; profits ranked as a list |
| main.py | `MainPy` | the oracle part of mainv3.py; profit bands; a single-request `grab_listings` that returns the page |

Logic shared word for word between files lives once:

- `Common`: the data, the events a grabber sends, the marketplace's 429 back-off, unit selection, name deduplication and sku quoting.
- `Sorting`: Python's stable `sorted`/`list.sort`, with stability and extremum lemmas.
- `Listings`: the filter loop and the extremal choice of `sort_listings`.
- `Oracle`: `check_price` as a function of the oracle's replies. main4.py and mainv3.py/main.py differ only on an ok non-200 reply, selected by a `Variant`.
- `Flips`: main4.py's name→profit dictionary as a class.
- `FlipLists`: the profit and band lists of the other versions.

HTTP is modelled by state, not performed:

- Each class holds the replies its servers will give as a sequence field (`oracle`, `market`). Each GET (a price check or a snapshot request) consumes one reply, and a GET with none left is the exception `NoReply`. The auth and refresh POSTs consume no reply and always succeed.
- Everything a grabber sends or waits for is appended to a `trace` of events.
- The auth token is a generation counter. `Valid()` ties it to the number of auth requests in the trace.
- Every method is proved against a function of the old state: `GrabListingsRun`, `Attempts`, `LookupPairs` and `LookupOffers`. The lemmas below state what the source promises about these functions.

## Model

| member | source | states |
|---|---|---|
| Common.UniqueNames | main4.py:262 | the weapon keys are exactly the non-empty input names, each once (`dict.fromkeys` over the non-blank names) |
| Common.DistinctKeepsFirstOrder | mainv3.py:117 | deduplication keeps names in the order of their first occurrence |
| Common.Quote | main4.py:37 | the request path for a sku contains no `;` |
| Common.UnquoteQuote | main4.py:37 | replacing `;` by `%3B` loses nothing for skus without `%`: unquoting gives the sku back |
| Common.QuoteIdentity | main4.py:53 | a sku without `;` is used unchanged as the path |
| Common.IsOk | main4.py:89 | definition of `page.ok` (a status outside 400-599); used by every retry lemma (Oracle.AttemptBound, Main4.NoBudgetGivesNone, MainV2.NoneOnlyAfterFailures) |
| Common.NonBlank | main4.py:262 | the names kept are exactly the non-empty input names |
| Common.NonBlankAppend | main4.py:262 | dropping blanks keeps input order: it splits over a concatenation |
| Common.NonBlankKeepsFirstOrder | main4.py:262 | dropping blanks keeps the order in which names first occur in the input |
| Common.UniqueNamesKeepsFirstOrder | main4.py:262 | the weapon keys come in the order in which they first occur among the raw names |
| Common.Distinct | mainv3.py:117 | `dict.fromkeys`: exactly the input names, each once; its order is stated by Common.DistinctKeepsFirstOrder |
| Common.BuyValue | main4.py:282 | definition: `buyKeyHalfScrap` when `buyKeys` is set, else `buyHalfScrap`; used by FlipLists.BandsMembers and Main4.PriceGrabber.PriceKsFlips |
| Common.SellValue | main4.py:281 | definition: `sellKeyHalfScrap` when `sellKeys` is set, else `sellHalfScrap`; used by the same members |
| Common.Spaced | mainv2.py:96-97 | definition: `quality` followed by a space when non-empty; used by MainV2.PriceGrabber.CheckKillstreakFlipping and the query functions |
| Sorting.SortBy | main4.py:237 | `sorted` by price returns a permutation of its input in ascending key order |
| Sorting.SortByDesc | main4.py:336 | `sorted(..., reverse=True)` returns a permutation in descending key order |
| Sorting.InsertAscending | main4.py:237 | inserting into an ascending list keeps it ascending |
| Sorting.SortByStable | main4.py:237 | the sort is stable: items with equal keys keep their input order |
| Sorting.SortByDescStable | main4.py:336 | the reverse sort is stable as well (ties are not reversed) |
| Sorting.FirstMinIndex | main4.py:237 | the first index holding the smallest key |
| Sorting.LastMaxIndex | main4.py:243 | the last index holding the largest key |
| Sorting.FirstMaxIndex | mainv2.py:86 | the first index holding the largest key |
| Sorting.SortByHead | main4.py:237 | element 0 of the ascending sort is the first minimum of the input |
| Sorting.SortByLast | main4.py:243 | element -1 of the ascending sort is the last maximum of the input |
| Sorting.SortByDescHead | mainv2.py:86 | element 0 of the descending sort is the first maximum of the input |
| Listings.IsBanned | main4.py:217 | definition of one attribute's banned test, with (`int`) or without conversion; its effect is stated by Listings.IntFilterStricter |
| Listings.Eligible | main4.py:210-221 | definition of the three filters; Listings.Survivors and Listings.SelectBestSound state what it lets through |
| Listings.Survivors | main4.py:207-224 | a listing survives iff it has the requested intent, no banned `defindex` and no `usd` currency |
| Listings.SurvivorsAppend | main4.py:207-224 | the filter keeps input order: filtering a concatenation is the concatenation of the filtered parts |
| Listings.SurvivorsOne | main4.py:210-224 | a single listing is kept exactly when it is eligible |
| Listings.AnyBanned | main4.py:217-218 | the attribute scan finds a banned code iff some attribute's code is banned |
| Listings.Collect | main4.py:204-228 | the filter loop appends exactly the survivors, in input order |
| Listings.PickBestSell | main4.py:234-237 | for `sell` the pick is the first cheapest survivor |
| Listings.PickBestBuy | main4.py:240-243 | for `buy` the pick is the last dearest survivor |
| Listings.PickBestNone | main4.py:230-248 | no pick iff there are no survivors or the intent is neither `sell` nor `buy` |
| Listings.PickHighestIsFirstMax | mainv2.py:84-86 | the reverse sort picks the first dearest survivor |
| Listings.PickBest | main4.py:230-248 | definition of the pick among survivors; its properties are Listings.PickBestSell, PickBestBuy and PickBestNone |
| Listings.PickHighest | mainv2.py:84-91 | definition of mainv2.py's pick; its property is Listings.PickHighestIsFirstMax |
| Listings.SelectBest | main4.py:192-248 | definition of `sort_listings` on the grab's result (`int` codes); its properties are Listings.SelectBestSound and SelectNone |
| Listings.SelectHighest | mainv2.py:57-91 | definition of mainv2.py's `sort_listings` on the grab's result (raw codes); its properties are Listings.SelectHighestSound and SelectNone |
| Listings.ListingProfit | main4.py:314-322 | definition: weapon buy price minus kit sell price, or None when either lookup failed; used by Main4.PriceGrabber.RefineKsFlips |
| Listings.SelectBestSound | main4.py:207-243 | a returned listing is in the snapshot, passes all three filters, and is the extreme price on its side |
| Listings.SelectHighestSound | mainv2.py:65-86 | a returned listing passes the filters (raw `defindex`) and is priced at least as high as every survivor |
| Listings.SelectNone | main4.py:199-248 | `sort_listings` gives None iff the grab gave None, nothing survives, or (main4/v3) the intent is unknown |
| Listings.IntFilterStricter | mainv2.py:72 | for every listing: the `int()` filter keeps only listings the raw filter keeps, and the raw filter keeps extra listings exactly when they hold a banned code carried as text |
| Listings.TextCodeOnlyCaughtByInt | mainv2.py:72 | a witness that the divergence occurs: one listing with a banned code sent as text is kept by mainv2.py only |
| Oracle.Attempts | main4.py:27-107 | the run consumes no more replies than there are, and the token never decreases |
| Oracle.ResolveSku | main4.py:29-33 | definition: a non-empty name gives `name_to_sku(name)`, else the given sku; its property is Oracle.NameDecidesSku |
| Oracle.Stale | main4.py:49-50 | definition: `today > updatedAt + days_until_old`, strictly; used by Oracle.FoundReturnsRecord |
| Oracle.Reaction | main4.py:40-86 | definition of a reply's side effects (refresh, auth request, wait); stated by Oracle.HeadCounts and HeadWaits |
| Oracle.HeadCounts | main4.py:37-86 | one attempt sends one price request, and one auth request exactly on a 401 |
| Oracle.HeadWaits | main4.py:77-81 | one attempt waits `retry-after` exactly on a 429, and otherwise not at all |
| Oracle.CheckPriceRun | main4.py:27-107 | definition of `check_price`: sku resolution, then Attempts; its properties are Oracle.NameDecidesSku and the Attempts lemmas |
| Oracle.AttemptBound | main4.py:89-102 | at most `retries + 1` price requests when `retries >= 0` |
| Oracle.NegativeBudgetNeverStops | main4.py:92-97 | with a negative budget failures are retried until the replies run out |
| Oracle.ExhaustedBudget | main4.py:99-102 | `retries + 1` failures give None |
| Oracle.NotFoundStops | main4.py:65-74 | a 404 sends one refresh request and gives None after a single attempt |
| Oracle.FoundReturnsRecord | main4.py:43-56 | a 200 returns the record, and requests a refresh exactly when `rq_update` holds and the record is strictly older than `days_until_old` |
| Oracle.AuthAndThrottleSpendRetry | main4.py:59-83 | a 401 renews the token and a 429 waits `retry-after`; each then spends one retry |
| Oracle.OkWithoutBody | main4.py:104-107 | an ok non-200 reply raises in main4.py (unbound `price`) and gives None in mainv3.py |
| Oracle.VariantsAgree | mainv3.py:32 | on replies that are 200 or failures, both versions of `check_price` behave identically |
| Oracle.RetryOutcome | mainv3.py:95-103 | a retried failure takes the recursive call's result, token and remaining replies |
| Oracle.LastAttempt | mainv3.py:30-105 | the outcome of the final attempt, status by status |
| Oracle.RecordFromFound | main4.py:105-107 | a returned record is the body of the last 200 reply consumed |
| Oracle.TokenCountsAuth | main4.py:62 | the token generation grows by exactly the number of auth requests sent |
| Oracle.PathsQuoted | main4.py:37-71 | every price and refresh request uses the quoted sku as its path |
| Oracle.NameDecidesSku | main4.py:29-33 | a given name decides the sku; no name and no sku raises |
| Oracle.LookupPair | main4.py:268-269 | a pair of lookups only appends to the trace |
| Oracle.LookupPairs | main4.py:265-285 | a completed lookup loop has one pair per query, and the trace only grows |
| Oracle.LookupPairsStops | main4.py:265-285 | an exception stops the loop: later queries change nothing |
| Oracle.LookupPairsTokens | main4.py:265-285 | across a whole loop the token still counts the auth requests |
| Flips.Assign | main4.py:285 | `flips[k] = v` keeps the key order and appends a new key at the end |
| Flips.Without | main4.py:332-333 | popping keys removes exactly their entries |
| Flips.Priced | main4.py:336 | the priced entries, in order |
| Flips.Unpriced | main4.py:331 | the unpriced entries, in order |
| Flips.PricedAppend | main4.py:336 | the priced part keeps input order: it splits over a concatenation |
| Flips.UnpricedAppend | main4.py:331 | the unpriced part keeps input order: it splits over a concatenation |
| Flips.PartsOfOne | main4.py:331-336 | a single entry lands in exactly one part |
| Flips.Profit | main4.py:336 | definition of the sort key `ele[1]` |
| Flips.RankedFlips | main4.py:326-341 | definition of what `sort_flips` returns; its properties are Flips.RankedSameEntries, RankedOrder, RankedStable, RankedDistinct and RebuildIsRanked |
| Flips.FlipDict.FromKeys | main4.py:262 | `dict.fromkeys` gives every unique name with the value None, and the dict's keys are distinct |
| Flips.NoneEntriesDistinct | main4.py:262 | `dict.fromkeys` over distinct keys has exactly those keys, in that order, and they stay distinct |
| Flips.FlipDict.FromEntries | main4.py:336 | the dictionary comprehension assigns the sorted items in order, and the result has distinct keys |
| Flips.FlipDict.Set | main4.py:275 | assigning a key updates the dictionary as `Assign` says and keeps its keys distinct |
| Flips.FlipDict.Pop | main4.py:333 | popping a present key returns its value and removes it; an absent key raises; the keys stay distinct |
| Flips.FlipDict.Update | main4.py:339 | `update` assigns the given entries in order and keeps the keys distinct |
| Flips.AssignKeepsDistinct | main4.py:275 | `d[k] = v` keeps a dict's keys distinct |
| Flips.AssignAllKeepsDistinct | main4.py:336-339 | a comprehension, or `update`, keeps a dict's keys distinct |
| Flips.WithoutKeepsDistinct | main4.py:332-333 | popping keys keeps a dict's keys distinct |
| Flips.PricedDistinct | main4.py:331-336 | the priced and the unpriced part each keep distinct keys |
| Flips.PopUnpricedLeavesPriced | main4.py:331-333 | popping every unpriced key leaves exactly the priced entries |
| Flips.AssignAbsent | main4.py:285 | assigning a new key appends it |
| Flips.AssignPresent | main4.py:285 | assigning an existing key changes its value in place |
| Flips.AssignAllFresh | main4.py:339 | updating with fresh keys appends them in order |
| Flips.PricedUnpricedSplit | main4.py:331-339 | the priced and the unpriced entries together are the input |
| Flips.RankedSameEntries | main4.py:327-341 | `sort_flips` returns exactly the input entries |
| Flips.RankedOrder | main4.py:336-339 | priced entries come first in non-increasing profit order, then the unpriced ones |
| Flips.RankedStable | main4.py:336-339 | equal profits keep their input order, and the unpriced entries keep theirs |
| Flips.RankedDistinct | main4.py:336-339 | the ranked dictionary has distinct keys |
| Flips.RebuildIsRanked | main4.py:336-341 | rebuilding the dictionary from the sorted priced items, then updating it with the unpriced ones, yields the ranking |
| FlipLists.Kept | mainv3.py:127-131 | skipping failed lookups never lengthens the list |
| FlipLists.KeptSnoc | mainv3.py:140 | appending a successful lookup appends its entry |
| FlipLists.KeptMembers | mainv3.py:127-140 | an entry is kept iff some lookup produced it |
| FlipLists.BandOrdered | mainv3.py:110 | if each record's buy value is at most its sell value, the band's minimum is at most its maximum |
| FlipLists.BandCanBeReversed | mainv3.py:134-140 | without that assumption a band can have its minimum above its maximum |
| FlipLists.BandsOf | mainv3.py:120-140 | one optional band per weapon |
| FlipLists.BandQueries | mainv3.py:123-124 | one pair of price queries per weapon |
| FlipLists.BandsNext | mainv3.py:127-140 | one more lookup appends its band only when both prices were found |
| FlipLists.AddBand | mainv3.py:127-140 | appending a looked-up pair keeps the band list equal to the kept bands (shared by mainv3.py and main.py) |
| FlipLists.RankedBands | mainv3.py:145 | definition of the band ranking; its property is FlipLists.RankedBandsSpec |
| FlipLists.BandsMembers | mainv3.py:127-140 | an entry is a band `[weapon_low - kit_high, weapon_high - kit_low]` of a weapon with both prices, and every such band is there |
| FlipLists.RankedBandsSpec | mainv3.py:145 | the result is a permutation of the bands, in descending order of minimum and stable |
| FlipLists.ProfitsOf | mainv2.py:109-128 | one optional profit per weapon |
| FlipLists.ProfitsNext | mainv2.py:119-128 | one more lookup appends its profit only when both listings were found |
| FlipLists.AddProfit | mainv2.py:119-128 | appending a looked-up pair keeps the profit list equal to the kept profits (shared by mainv2.py and mainv3.py) |
| FlipLists.RankedProfits | mainv2.py:131 | definition of the profit ranking; its property is FlipLists.RankedProfitsSpec |
| FlipLists.OfferQueries | mainv2.py:113-117 | one pair of listing queries per weapon |
| FlipLists.ProfitsMembers | mainv2.py:119-128 | an entry is weapon buy price minus kit sell price of a weapon with both listings, and every such weapon is there |
| FlipLists.RankedProfitsSpec | mainv2.py:131 | the result is a permutation of the profits, in descending order and stable |
| FlipLists.NextOffer | mainv2.py:113-128 | one pair of listing lookups; an earlier exception passes through |
| FlipLists.LookupOffers | mainv2.py:109-128 | a completed loop has one pair of offers per weapon |
| FlipLists.LookupOffersStops | mainv2.py:109-128 | an exception stops the loop: later weapons change nothing |
| Main4.Resume | main4.py:115-118 | after the throttle pause the time is at least `last_bp_sc + 60` s, and no pause happens when that time has passed |
| Main4.Pause | main4.py:115-118 | the pause waits exactly until that time and sends nothing |
| Common.Backoff | main4.py:145-148 | a 429 from the marketplace waits exactly `retry-after` seconds and sends no request; shared by the 429 arms at mainv2.py:36-38 and mainv3.py:173-175 |
| Main4.Again | main4.py:158-178 | definition: whether an attempt calls itself again (a failure with retries left, or a 200 for another item); used by Main4.RequestsOfLast and LastGrab |
| Main4.Budget | main4.py:164-178 | definition: the budget of the next call, `retries - 1` after a failure and the default after a mismatch; its property is Main4.MismatchResetsBudget |
| Main4.Final | main4.py:158-190 | definition of a last attempt's result; its property is Main4.OkReplyEnds |
| Main4.GrabListingsRun | main4.py:109-190 | the run consumes no more replies than there are |
| Main4.GrabThrottled | main4.py:115-125 | every snapshot request is at least 60 s after the previous one, and after the initial `last_bp_sc` |
| Main4.GrabClock | main4.py:115-148 | the clock advances by exactly the time waited |
| Main4.NoBudgetGivesNone | main4.py:158-170 | a failure with no retries left gives None after one request |
| Main4.FailuresBounded | main4.py:158-170 | at most `retries + 1` requests while every snapshot is for the right item |
| Main4.MismatchResetsBudget | main4.py:172-178 | a snapshot of another item retries with the default budget |
| Main4.OkReplyEnds | main4.py:172-190 | a matching 200 ends the run with its listings, or None without a `listings` key; an ok non-200 raises (unbound `response`) |
| Main4.ListingsFromMatch | main4.py:180-190 | returned listings come from the last reply consumed, a 200 for the requested item |
| Main4.GrabEnd | main4.py:124-125 | `last_bp_sc` ends as the time of the last request, and the clock as that time plus the last back-off |
| Main4.LookupOffers | main4.py:301-322 | a completed refine loop has one pair of offers per key, and the trace only grows |
| Main4.LookupOffersStops | main4.py:301-322 | an exception stops the refine loop |
| Main4.LookupOffersThrottled | main4.py:301-322 | across the refine loop the throttle window and the clock stay consistent |
| Main4.Offer | main4.py:192-248 | definition of `sort_listings` with banned codes 1004-1009, from the marketplace state; its properties are Listings.SelectBestSound and SelectNone, and Main4.OfferKeepsWindow |
| Main4.OfferKeepsWindow | main4.py:305-310 | one `sort_listings` call keeps the throttle window and clock consistent |
| Main4.NextOffer | main4.py:305-310 | one kit and one weapon listing lookup |
| Main4.FlipValues | main4.py:279-285 | one value per weapon |
| Main4.FlipValue | main4.py:279-285 | definition: weapon buy value minus kit sell value, or None when a lookup failed; used by Main4.PriceGrabber.PriceKsFlips |
| Main4.ListingProfits | main4.py:321-322 | one value per key |
| Main4.PriceQueries | main4.py:268-269 | one pair of price queries per key |
| Main4.RefineQueries | main4.py:305-310 | one pair of listing queries per key |
| Main4.PriceGrabber.constructor | main4.py:11-25 | one auth request, token generation 1, `last_bp_sc` 0, `today` fixed at construction |
| Main4.PriceGrabber.React | main4.py:40-86 | the effect of one reply: refresh, token renewal, wait or nothing, and the remaining budget |
| Main4.PriceGrabber.RenewToken | main4.py:59-62 | one auth request; the token moves to the next generation |
| Main4.PriceGrabber.AwaitWindow | main4.py:115-118 | waits until 60 s after `last_bp_sc` and sends nothing |
| Main4.PriceGrabber.BackOff | main4.py:136-148 | waits a 429's `retry-after` seconds and sends nothing |
| Main4.PriceGrabber.CheckPrice | main4.py:27-107 | result, token, replies and trace are those of `CheckPriceRun` from the old state |
| Main4.PriceGrabber.PriceAttempts | main4.py:37-107 | the recursive retry agrees with `Attempts` |
| Main4.PriceGrabber.Fetch | main4.py:113-125 | one throttled snapshot request, stamping `last_bp_sc` with its time |
| Main4.PriceGrabber.GrabListings | main4.py:109-190 | the recursive retry agrees with `GrabListingsRun`, clock and `last_bp_sc` included |
| Main4.PriceGrabber.SortListings | main4.py:192-248 | the pick is `SelectBest` of the grab's result, with `int` codes |
| Main4.PriceGrabber.SortFlips | main4.py:326-341 | the returned dictionary is the ranking of the input, and the caller's dictionary is left with only its priced entries |
| Main4.PriceGrabber.PricePairOf | main4.py:268-269 | the two price lookups agree with `LookupPair` |
| Main4.PriceGrabber.PriceLoop | main4.py:265-285 | the loop assigns every key its flip value, or stops at the first exception |
| Main4.PriceGrabber.PriceTurn | main4.py:265-285 | one loop turn: the lookups as `LookupPair`, and the key's value set to its flip value |
| Main4.PriceGrabber.PriceKsFlips | main4.py:250-288 | keys are the unique names; a value is None when a lookup failed, else weapon buy minus kit sell |
| Main4.PriceGrabber.RefineLoop | main4.py:301-322 | the loop assigns every key its listing profit, or stops at the first exception |
| Main4.PriceGrabber.RefineTurn | main4.py:301-322 | one loop turn: the lookups as `NextOffer`, and the key's value set to its listing profit |
| Main4.PriceGrabber.RefineRanked | main4.py:297-324 | the refine loop over the given keys followed by the final `sort_flips` |
| Main4.PriceGrabber.RefineKsFlips | main4.py:290-324 | the caller's dictionary keeps only its priced entries; the result is the ranking of the listing profits of the ranked keys |
| MainV3.GrabListingsRun | mainv3.py:151-204 | the run consumes no more replies than there are |
| MainV3.RetryRaises | mainv3.py:181-194 | a failure with retries left always ends in an exception: the retry's own, or the unbound `response` |
| MainV3.NoBudgetGivesNone | mainv3.py:187-189 | a failure with no retries left gives None after one request |
| MainV3.MismatchResetsBudget | mainv3.py:194-198 | a snapshot of another item sleeps 5 s and retries with the default budget |
| MainV3.RequestsOfRetry | mainv3.py:183-185 | a retried failure adds one request to the retry's |
| MainV3.RequestsBounded | mainv3.py:181-189 | at most `retries + 1` requests while every snapshot is for the right item |
| MainV3.ReturnedFromLastReply | mainv3.py:181-204 | None comes from a failed last reply; listings come from a 200 for the requested item |
| MainV3.Weapons | mainv3.py:263 | the weapon names of the caller's list, in order |
| MainV3.Offer | mainv3.py:206-246 | definition of `sort_listings` with banned codes 1004-1009, from the marketplace state; its properties are Listings.SelectBestSound and SelectNone |
| MainV3.SortByBandMinimum | mainv3.py:286 | definition of the final sort, whose key indexes an int; its property is MainV3.ValidationOutcome |
| MainV3.ValidationOutcome | mainv3.py:277-286 | the final sort raises exactly when some weapon had both listings, and otherwise returns the empty list |
| MainV3.BandList.SortByLow | mainv3.py:258 | the caller's list is sorted in place, descending by minimum bound |
| MainV3.PriceGrabber.constructor | mainv3.py:11-23 | one auth request and token generation 1 |
| MainV3.PriceGrabber.RequestPriceAuth | mainv3.py:25-28 | one auth request; the token moves to the next generation |
| MainV3.PriceGrabber.React | mainv3.py:45-92 | the effect of one reply, as in main4.py |
| MainV3.PriceGrabber.CheckPrice | mainv3.py:30-105 | agrees with `CheckPriceRun` for the `price = None` version |
| MainV3.PriceGrabber.PriceAttempts | mainv3.py:42-105 | the recursive retry agrees with `Attempts` |
| MainV3.PriceGrabber.PricePairOf | mainv3.py:123-124 | the two price lookups agree with `LookupPair` |
| MainV3.PriceGrabber.BandTurn | mainv3.py:120-140 | one loop turn: lookups as `LookupPair`, and the band list extended as `BandsOf` says |
| MainV3.PriceGrabber.BandLoop | mainv3.py:120-142 | the loop yields exactly the bands of the weapons with both prices, or stops at the first exception |
| MainV3.PriceGrabber.GetKillstreakFlipping | mainv3.py:107-149 | the result is `RankedBands` of the unique names |
| MainV3.PriceGrabber.Fetch | mainv3.py:156-157 | one snapshot request consuming one reply |
| MainV3.PriceGrabber.GrabListings | mainv3.py:151-204 | the recursive retry agrees with `GrabListingsRun` |
| MainV3.PriceGrabber.SortListings | mainv3.py:206-246 | the pick is `SelectBest` of the grab's result, with `int` codes |
| MainV3.PriceGrabber.OfferPairOf | mainv3.py:267-273 | the kit and weapon listing lookups agree with `PairOffers` |
| MainV3.PriceGrabber.ProfitTurn | mainv3.py:261-284 | one loop turn over the caller's list |
| MainV3.PriceGrabber.ProfitLoop | mainv3.py:261-284 | the loop yields exactly the profits of the weapons with both listings, or stops at the first exception |
| MainV3.PriceGrabber.ValidateKillstreakFlipping | mainv3.py:248-290 | sorts the caller's list in place, then looks up its weapons; the outcome is the final sort of the confirmed profits |
| MainV2.GrabListingsRun | mainv2.py:14-55 | the run consumes no more replies than there are |
| Common.HeadRequestsOnce | mainv2.py:19-38 | each snapshot attempt, back-off included, sends exactly one request; used for mainv2.py and mainv3.py |
| MainV2.RequestsOfRetry | mainv2.py:43-47 | a retried failure adds one request to the retry's |
| MainV2.RequestsOfLast | mainv2.py:25-51 | a final attempt sends one request |
| MainV2.RequestsBounded | mainv2.py:43-51 | at most `retries + 1` requests |
| MainV2.ThrottledRetries | mainv2.py:29-47 | a 429 waits `retry-after` seconds, then spends one retry |
| MainV2.NoneOnlyAfterFailures | mainv2.py:43-51 | None means `retries + 1` failed requests in a row |
| MainV2.ListingsFromOk | mainv2.py:25-27 | returned listings are those of the last reply, a 200 |
| MainV2.Offer | mainv2.py:57-91 | definition of `sort_listings` with banned codes 1004-1009, from the marketplace state; its properties are Listings.SelectHighestSound and SelectNone |
| MainV2.PriceGrabber.constructor | mainv2.py:8-12 | no replies consumed and nothing sent |
| MainV2.PriceGrabber.Fetch | mainv2.py:19-20 | one snapshot request consuming one reply |
| MainV2.PriceGrabber.GrabListings | mainv2.py:14-55 | the recursive retry agrees with `GrabListingsRun` |
| MainV2.PriceGrabber.SortListings | mainv2.py:57-91 | the pick is `SelectHighest` of the grab's result, with raw codes |
| MainV2.PriceGrabber.OfferPairOf | mainv2.py:113-117 | the kit and weapon listing lookups agree with `PairOffers` |
| MainV2.PriceGrabber.ProfitTurn | mainv2.py:109-128 | one loop turn: lookups as `PairOffers`, and the profit list extended as `ProfitsOf` says |
| MainV2.PriceGrabber.ProfitLoop | mainv2.py:109-128 | the loop yields exactly the profits of the weapons with both listings, or stops at the first exception |
| MainV2.PriceGrabber.CheckKillstreakFlipping | mainv2.py:93-135 | the result is `RankedProfits` of the unique names, queried with `quality` followed by a space when it is non-empty |
| MainPy.PageOutcomeCases | main.py:164-179 | the page exactly on a 200, None exactly on a failure, an exception on any other ok status |
| MainPy.PageOutcome | main.py:164-179 | definition of what `grab_listings` makes of a reply; its property is MainPy.PageOutcomeCases |
| MainPy.PriceGrabber.constructor | main.py:11-23 | one auth request and token generation 1 |
| MainPy.PriceGrabber.RequestPriceAuth | main.py:25-28 | one auth request; the token moves to the next generation |
| MainPy.PriceGrabber.React | main.py:45-92 | the effect of one reply, as in mainv3.py |
| MainPy.PriceGrabber.CheckPrice | main.py:30-105 | agrees with `CheckPriceRun` for the `price = None` version |
| MainPy.PriceGrabber.PriceAttempts | main.py:42-105 | the recursive retry agrees with `Attempts` |
| MainPy.PriceGrabber.PricePairOf | main.py:124-125 | the two price lookups agree with `LookupPair` |
| MainPy.PriceGrabber.BandTurn | main.py:121-141 | one loop turn of the band loop |
| MainPy.PriceGrabber.BandLoop | main.py:121-143 | the loop yields exactly the bands of the weapons with both prices, or stops at the first exception |
| MainPy.PriceGrabber.CheckKillstreakFlipping | main.py:107-150 | the result is `RankedBands` of the unique names |
| MainPy.PriceGrabber.GrabListings | main.py:152-179 | a given sku decides the name; one request, whose reply maps to `PageOutcome` |

## Left out

- HTTP is not performed. The replies of prices.tf and backpack.tf are sequences held by the object, and the requests sent are events in a trace. JSON decoding, headers, the API token and the API key are not modelled.
- `time.sleep` becomes a `Wait` event. `time.time()` is the `clock` field of main4.py's grabber, in milliseconds. It advances only by the waits, because requests are taken to be instantaneous.
- The float `retry-after / 1000` of the oracle's 429 is kept as an integer count of milliseconds (`retryAfterMs`).
- `sku.parser`'s `name_to_sku` and `sku_to_name` are an external library. They are the uninterpreted parameters `skuOf` and `nameOf`, so no name↔sku round-trip is stated.
- `date.today()` and `date.fromisoformat(updatedAt[:10])` are integer day numbers.
- The auth POST (main4.py:19 and main4.py:62, mainv3.py:28, main.py:28) and the refresh POSTs (main4.py:53 and main4.py:70, mainv3.py:58 and mainv3.py:76, main.py:58 and main.py:76) are taken to succeed. They consume no reply. Their failure is not modelled: `requests.post` raising, or `.json()["accessToken"]` failing, would end `__init__` or `check_price` with an exception.
- `days_until_old` is declared a float with default 5 (main4.py:11). The model takes it as a whole number of days. Adding `timedelta(days=d)` to a `date` adds only the whole days of `d`, rounded down, so a fractional value acts as its floor.
- Prices and price fields are integers. The JSON of either site may carry floats, so the subtractions at main4.py:285, main4.py:322, mainv2.py:128 and mainv3.py:284 are modelled on integers only.
- Listings.IsBanned: a defindex sent as text is assumed to hold a decimal integer (`TextCode(code)`). `int()` of non-numeric text raises `ValueError`, and `int()` of a float truncates it; neither is modelled.
- The weapon-name files are read by the caller and passed in as `weaponNames`.
- `auth.json`, the `__main__` blocks, `print` and `logging` are not modelled. That includes mainv3.py's hard-coded profit list and the `fails` counter, which is only printed.
- main.py's `grab_listings` with neither a name nor a sku sends `None` as the sku. The model takes the name to be a string.
- Python's `sorted` and `list.sort` are modelled by a stable insertion sort. It has the same result.
- An in-place `list.sort` is the assignment of that result to the list's field.
- Main4.PriceGrabber.SortFlips: the dictionary is an ordered sequence of entries with distinct keys. Python's dict hashing is not modelled.
- Oracle.AttemptBound: the bound holds only for `retries >= 0`. With a negative budget, `if retries:` is true, and the source retries until the replies run out, as Oracle.NegativeBudgetNeverStops states.
- Main4.FailuresBounded: the bound assumes every snapshot is for the requested item. A mismatch resets the budget, so without that assumption only the length of the reply sequence bounds the requests.
- MainV3.RequestsBounded: the same assumption, for the same reason.
