# rate-now: the server-side rate pipeline, in Dafny

This project models the core of rate-now, a currency-conversion web application, and proves properties of the model. The core is the server-side pipeline behind `/api/rates`:

- **Rate normaliser** (`fetchRates`). Upstream publishes one quote per currency against the US dollar, keyed `USD<code>` with an `Exrate` field. The normaliser anchors on `USDTWD` and builds a table of New Taiwan dollars per unit of each supported currency. TWD itself is fixed at 1.
- **Pair calculator** (`getExchangeRate`). It divides two entries of that table, or gives null.
- **Retention predicate** (`isWithinDays`). It is a strict comparison on a whole-day difference.
- **Rolling daily-snapshot cache** and the **GET/POST handlers** that serve from it, refresh it, prune it to 30 days and fall back to it when upstream fails.
- **Constants**: the ten supported currencies and the 30-day retention window.

Modules, one per source file (the route's history steps get their own module):

| file | module | models |
|---|---|---|
| `wrappers.dfy` | `Wrappers` | `Option` for `null`/`undefined`, `Result` for thrown errors |
| `constants.dfy` | `Constants` | `constants/index.ts` |
| `date_utils.dfy` | `DateUtils` | `utils/dateUtils.ts` |
| `rate_utils.dfy` | `RateUtils` | `utils/rateUtils.ts` |
| `history.dfy` | `History` | the `filter`/`push`/`some`/`find` steps of `app/api/rates/route.ts` |
| `rates_route.dfy` | `RatesRoute` | the `GET`/`POST` handlers of `app/api/rates/route.ts`, as class `RateService` owning the cache store |

Modelling choices:

- Rates are exact `real`s. JavaScript's truthiness of an `Exrate` or a table entry is "present and non-zero".
- The upstream document is a `map<string, Quote>`. A `Quote` carries an optional `exrate`, so `json[key]?.Exrate` can be missing at either level.
- The HTTP request is an input, `NotOk | Ok(doc)`. `FetchRates` is the loop of `fetchRates`. It is proved equal to `Normalise`, a map comprehension that serves as the reference definition. The properties are then proved about `Normalise`.
- A `YYYY-MM-DD` date is an integer day number, so dayjs's day difference is `today - date`.
- The cache file is the field `cache: Option<Envelope>` of `RateService`. `None` means the file is missing or unparseable. A write replaces the whole envelope.
- `today`, `now`, the fetch outcome and the `from`/`to` query parameters are method parameters. A query parameter is an `Option<string>`. `from && to` holds when both are present and non-empty.
- Two ghost counters, `fetches` and `writes`, record when a handler asks upstream and when it writes the cache. This is how "no fetch" and "nothing written" are stated.

Two behaviours of the code worth noting:

- On a cache miss, GET does not strip today's entries before appending (app/api/rates/route.ts:48-52). Only POST strips them (app/api/rates/route.ts:86). The miss path is only reached when no entry is dated today, so the two merges agree there. `History.MergeReadIsRefreshOnMiss` proves this.
- Table entries are not necessarily positive. An upstream quote that is negative is truthy and goes into the table. Only zero and absence are dropped.

## Model

| member | source | states |
|---|---|---|
| `Constants.CurrenciesCount` | constants/index.ts:3 | the currency list has exactly ten codes |
| `Constants.CurrenciesDistinct` | constants/index.ts:3 | the currency list has no duplicates |
| `Constants.CurrenciesHoldBaseAndPivot` | constants/index.ts:3 | the list contains TWD, so the normaliser's base branch always fires, and it contains USD |
| `Constants.HistoryDaysPositive` | constants/index.ts:4 | the retention window is 30 days, which is positive |
| `DateUtils.BoundaryExcluded` | utils/dateUtils.ts:8 | the comparison is strict: a date exactly `days` before today is not within, and the day after it is |
| `DateUtils.TodayWithin` | utils/dateUtils.ts:8 | today itself is within any positive window |
| `DateUtils.FutureWithin` | utils/dateUtils.ts:8 | dates on or after today are always within a positive window, so future-dated entries are never pruned |
| `DateUtils.WithinMonotone` | utils/dateUtils.ts:8 | if a date is within, every later date is within |
| `RateUtils.TableOverSnoc` | utils/rateUtils.ts:11-19 | one loop iteration adds the visited code's entry when it is the base or quoted, and changes nothing otherwise |
| `RateUtils.FetchRates` | utils/rateUtils.ts:3-22 | the loop that fills `rates` computes the table `Normalise` defines, including both thrown errors |
| `RateUtils.GetExchangeRate` | utils/rateUtils.ts:24-33 | a rate exists iff both currencies are present and non-zero; it is the ratio (`rate * rates[to] == rates[from]`) and non-zero; otherwise null, never a failure |
| `RateUtils.NormaliseFetchFailure` | utils/rateUtils.ts:5-6 | a non-ok response yields the error "Failed to fetch rates" and no table |
| `RateUtils.NormaliseAnchorMissing` | utils/rateUtils.ts:8-9 | normalising a parsed body fails iff `USDTWD.Exrate` is absent or zero, and the error is "USDTWD not found" |
| `RateUtils.NormaliseBaseIsOne` | utils/rateUtils.ts:12-13 | on success TWD is in the table with value exactly 1, whatever upstream's `USDTWD` is |
| `RateUtils.NormaliseQuoted` | utils/rateUtils.ts:15-18 | a supported currency other than TWD with a truthy `USD<code>` quote maps to `USDTWD / quote` |
| `RateUtils.NormaliseDomain` | utils/rateUtils.ts:10-20 | the table's keys are exactly the supported codes that are TWD or quoted, so unquoted or zero-quoted currencies and extra upstream keys are absent; no entry is 0 |
| `RateUtils.NormalisedQuote` | utils/rateUtils.ts:8-18 | every entry of a normalised table, TWD included, is `USDTWD` divided by its own `USD<code>` quote |
| `RateUtils.SelfRateIsOne` | utils/rateUtils.ts:29-30 | a present, non-zero currency converts to itself at exactly 1 |
| `RateUtils.SelfRateOfUnknownIsNull` | utils/rateUtils.ts:29-32 | there is no `from == to` shortcut: an absent or zero currency gives null even against itself |
| `RateUtils.Reciprocal` | utils/rateUtils.ts:29-30 | if `a` to `b` has a rate then so does `b` to `a`, and the two multiply to 1 |
| `RateUtils.RateFromQuotes` | utils/rateUtils.ts:8-32 | over a normalised table, converting `a` to `b` gives `b`'s upstream quote divided by `a`'s, with TWD's quote read from `USDTWD` |
| `RateUtils.OmittedCurrencyIsNull` | utils/rateUtils.ts:29-32 | a currency missing from the table gives null in either direction, never 0 |
| `RateUtils.PartialQuotesQuoted` | tests/utils/rateUtils.test.ts:73-76 | in the two-quote document, only TWD and EUR have a truthy `USD<code>` quote |
| `RateUtils.PartialQuotesKeys` | tests/utils/rateUtils.test.ts:72-89 | normalising the two-quote document succeeds with exactly TWD and EUR as keys |
| `RateUtils.PartialQuotesScenario` | tests/utils/rateUtils.test.ts:72-89 | upstream quotes only TWD (32) and EUR (0.85): the table is exactly `{TWD: 1, EUR: 32 / 0.85}`, so USD, JPY and the rest are undefined |
| `RateUtils.MissingTargetScenario` | tests/utils/rateUtils.test.ts:126-129 | USD to an absent GBP is null |
| `History.Retained` | app/api/rates/route.ts:49-51 | the pruned history holds exactly the old entries within the 30-day window, and is no longer than before |
| `History.WithoutDay` | app/api/rates/route.ts:86 | stripping holds exactly the entries not dated on that day |
| `History.FirstIndexOn` | app/api/rates/route.ts:24-26 | `find` stops at the first entry dated on the day, or runs off the end when there is none |
| `History.RatesOnFirst` | app/api/rates/route.ts:22-26 | `find` succeeds iff `some` does, and returns the rates of the first entry dated today |
| `History.RetainedAppend` | app/api/rates/route.ts:49-51 | pruning distributes over concatenation, so surviving entries keep their original order |
| `History.WithoutDayAppend` | app/api/rates/route.ts:86 | stripping a day distributes over concatenation, so the order is kept |
| `History.RetainedKeepsWithin` | app/api/rates/route.ts:49-51 | pruning a history already inside the window changes nothing |
| `History.WithoutAbsentDay` | app/api/rates/route.ts:86 | stripping a day that no entry carries changes nothing |
| `History.MergesRetain` | app/api/rates/route.ts:48-52 | after the GET merge and after the POST merge (lines 82-87) every entry is within the window, and no entry is exactly 30 days old |
| `History.MergesShape` | app/api/rates/route.ts:48-52 | the written history is the pruned old history (POST: also stripped of today) in its order, with `{today, rates}` last |
| `History.MergeRefreshOneToday` | app/api/rates/route.ts:82-87 | POST's merge leaves exactly one entry dated today, whatever the old history held |
| `History.MergeReadOneToday` | app/api/rates/route.ts:48-52 | when no old entry is dated today, as the miss guard ensures, GET's merge leaves exactly one |
| `History.MergeReadIsRefreshOnMiss` | app/api/rates/route.ts:48-52 | when no old entry is dated today, GET's merge without stripping equals POST's merge |
| `History.MergeRefreshTwice` | app/api/rates/route.ts:82-87 | a second POST the same day replaces the first one's snapshot and leaves the rest alone |
| `History.MergeRefreshIdempotent` | app/api/rates/route.ts:82-87 | merging the same rates twice on one day gives the same history as merging once |
| `History.MergeReadServesToday` | app/api/rates/route.ts:22-52 | after a miss-path write the history has an entry for today, and `find` returns the fresh rates, so the next GET that day is a hit |
| `History.RetainedChronological` | app/api/rates/route.ts:49-51 | pruning keeps dates strictly increasing |
| `History.WithoutDayChronological` | app/api/rates/route.ts:86 | stripping keeps dates strictly increasing |
| `History.MergeRefreshChronological` | app/api/rates/route.ts:82-87 | POST keeps a history in strictly increasing date order when no entry is dated after today |
| `History.MergeReadChronological` | app/api/rates/route.ts:48-52 | GET's miss path does the same, under the same terms |
| `RatesRoute.PairReply` | app/api/rates/route.ts:55-64 | a pair gets a rate reply iff `getExchangeRate` finds one; it echoes `from`, `to` and the timestamp, and its rate times `rates[to]` is `rates[from]`; otherwise 400 "Currency not found" |
| `RatesRoute.RateService.constructor` | utils/cacheUtils.ts:3-11 | the store starts as the envelope read from the file, or `None` when the file is missing or corrupt |
| `RatesRoute.RateService.WriteCache` | utils/cacheUtils.ts:13-16 | a write replaces the whole envelope with `{history, lastUpdated}` |
| `RatesRoute.RateService.Fetch` | app/api/rates/route.ts:47 | one upstream request whose result is `Normalise` of the outcome; the cache is untouched |
| `RatesRoute.RateService.Get` | app/api/rates/route.ts:13-74 | a hit answers from the cache with no fetch and no write. A miss fetches once. On success it writes the GET merge stamped `now`, even when the reply is 400, and the next GET that day is a hit. On failure it writes nothing and falls back. Any write keeps retention and exactly one entry for today |
| `RatesRoute.RateService.Post` | app/api/rates/route.ts:76-97 | always fetches. On success it writes and returns the POST merge stamped `now`. On failure it writes nothing and falls back. Any write keeps retention and exactly one entry for today |
| `RatesRoute.HitReplyPair` | app/api/rates/route.ts:23-41 | a cache hit with a pair answers from the first snapshot dated today: its rate with the cached `lastUpdated`, or 400 when that rate is null |
| `RatesRoute.HitReplyWhole` | app/api/rates/route.ts:43 | a cache hit without a pair returns the stored envelope unchanged |
| `RatesRoute.FreshReplyPair` | app/api/rates/route.ts:55-64 | after a fetch, a pair is answered from the fresh table stamped `now`, or with 400 when it is not found |
| `RatesRoute.EmptyParameterIsNoPair` | app/api/rates/route.ts:23 | an empty `from` is falsy, so the whole envelope is returned |
| `RatesRoute.CachedPairScenario` | app/api/rates/route.ts:22-41 | with today's snapshot `{TWD: 1, USD: 32}` cached, USD to TWD is 32 with the cached timestamp |
| `RatesRoute.NoCacheScenario` | app/api/rates/route.ts:67-72 | with no cache and a failed fetch the answer is 500 "Failed to fetch rates" |

## Left out

- Network: the HTTP request in `fetchRates` (utils/rateUtils.ts:5-7) is not modelled. Its outcome is an input, and a body that is not a JSON object is not modelled. Any exception thrown while normalising is modelled only as the two errors the code throws itself. A `fetch` that rejects with a network error lands in the same `catch` of each handler (app/api/rates/route.ts:67-72, 90-95) as a non-ok response, so `NotOk` stands for it too.
- Clock: `getToday` (utils/dateUtils.ts:3-5) and `dayjs().valueOf()` (app/api/rates/route.ts:15-16) are not modelled. `today` and `now` are parameters, and dates are day numbers: dayjs string parsing and time zones are not modelled.
- Filesystem and JSON: `readCache` and `writeCache` (utils/cacheUtils.ts) are not modelled. They become the `cache` store field, `None` for a missing or corrupt file, and a whole-envelope overwrite. Envelopes that parse but are malformed are not modelled. A cache without `history` makes GET throw outside its `try` at `cache.history.some` (app/api/rates/route.ts:22), while POST reads it as an empty history (app/api/rates/route.ts:82) and fetches and writes normally. A today-dated snapshot whose `rates` is `null` fails the `if (todayRates)` test on a GET hit with a pair, which answers 400 "Currency not found" (app/api/rates/route.ts:24-27, 38-41).
- Floating point: rates are exact `real`s. IEEE rounding, `NaN` (falsy in JavaScript) and `Infinity` are not modelled.
- JavaScript objects: prototype keys such as `toString` look up as truthy on a parsed table. That makes `getExchangeRate` answer `NaN` instead of null. The model's tables are plain maps.
- The module-load check that `RTER_API_URL` is set (app/api/rates/route.ts:8-11) is not modelled.
- Concurrency: two requests that both miss the cache can each fetch and overwrite the file, and the last writer wins. Each handler call is modelled as atomic.
- `app/api/rates-db/route.ts` is not part of this model. It is a thin wrapper over a database client whose semantics are not visible. Neither is the database-backed behaviour some route tests expect (a `from == to` shortcut, "Failed to fetch rates from DB").
- The UI components, layout, the `currencies-list` and `currency-symbol-map` routes, and `utils/remove.ts` are not part of this model.
