/**
 * The `/api/rates` route handlers (app/api/rates/route.ts) over a cache store.
 *
 * The cache file is the field `cache` of a RateService: `None` stands for a
 * file that is missing or does not parse, and a write replaces the whole
 * envelope. The clock (`today`, `now`), the upstream fetch outcome and the
 * `from`/`to` query parameters are passed in. Two ghost counters record how
 * often a handler contacted upstream and how often it wrote the cache.
 */
module RatesRoute {
  import opened Wrappers
  import opened Constants
  import opened DateUtils
  import opened RateUtils
  import opened History

  /** The cache file's contents, `{ history, lastUpdated }`. */
  datatype Envelope = Envelope(history: seq<Snapshot>, lastUpdated: int)

  /** The JSON bodies the handlers answer with, with their HTTP status. */
  datatype Response =
    | RateReply(from: string, to: string, rate: real, lastUpdated: int)
    | CacheReply(envelope: Envelope)
    | ErrorReply(status: int, error: string)

  /** `from && to`: both query parameters are given and neither is the empty string. */
  predicate PairRequested(from: Option<string>, to: Option<string>)
  {
    from.Some? && to.Some? && from.value != "" && to.value != ""
  }

  /** `cache && cache.history.some(d => d.date === today)`. */
  predicate CacheHit(cache: Option<Envelope>, today: Day)
  {
    cache.Some? && HasEntryFor(cache.value.history, today)
  }

  /** `cache?.history || []`. */
  function HistoryOf(cache: Option<Envelope>): seq<Snapshot>
  {
    if cache.Some? then cache.value.history else []
  }

  /** The answer to a requested pair: the rate with its timestamp, or 400 "Currency not found". */
  function PairReply(from: string, to: string, rates: RateTable, lastUpdated: int): (resp: Response)
    ensures resp.RateReply? <==> GetExchangeRate(from, to, rates).Some?
    ensures resp.RateReply? ==>
      resp.from == from && resp.to == to && resp.lastUpdated == lastUpdated &&
      resp.rate * rates[to] == rates[from]
    ensures !resp.RateReply? ==> resp == ErrorReply(400, "Currency not found")
  {
    match GetExchangeRate(from, to, rates)
    case Some(rate) => RateReply(from, to, rate, lastUpdated)
    case None => ErrorReply(400, "Currency not found")
  }

  /** GET's answer from a cache holding today's snapshot. */
  function HitReply(env: Envelope, today: Day, from: Option<string>, to: Option<string>): Response
  {
    if PairRequested(from, to) then
      match RatesOn(env.history, today)
      case Some(rates) => PairReply(from.value, to.value, rates, env.lastUpdated)
      case None => ErrorReply(400, "Currency not found")
    else
      CacheReply(env)
  }

  /** The answer after a successful fetch, stamped with `now`. */
  function FreshReply(history: seq<Snapshot>, rates: RateTable, now: int, from: Option<string>, to: Option<string>): Response
  {
    if PairRequested(from, to) then PairReply(from.value, to.value, rates, now)
    else CacheReply(Envelope(history, now))
  }

  /** The `catch` branch: whatever cache was read, however stale, else 500. */
  function FallbackReply(cache: Option<Envelope>): Response
  {
    if cache.Some? then CacheReply(cache.value) else ErrorReply(500, "Failed to fetch rates")
  }

  /** Every entry of a history lies inside today's retention window. */
  predicate AllWithin(h: seq<Snapshot>, today: Day)
  {
    forall s :: s in h ==> IsWithinDays(s.date, today, HistoryDays)
  }

  class RateService {
    /** The cache file: `None` when it is missing or cannot be parsed. */
    var cache: Option<Envelope>
    /** How many times a handler has requested the upstream rates. */
    ghost var fetches: nat
    /** How many times a handler has written the cache file. */
    ghost var writes: nat

    constructor (stored: Option<Envelope>)
      ensures cache == stored && fetches == 0 && writes == 0
    {
      cache := stored;
      fetches := 0;
      writes := 0;
    }

    /** `writeCache`: overwrite the whole envelope. */
    method WriteCache(history: seq<Snapshot>, lastUpdated: int)
      modifies this
      ensures cache == Some(Envelope(history, lastUpdated))
      ensures writes == old(writes) + 1 && fetches == old(fetches)
    {
      cache := Some(Envelope(history, lastUpdated));
      writes := writes + 1;
    }

    /** `fetchRates(RTER_API_URL)`, with the request's outcome given. */
    method Fetch(upstream: FetchOutcome) returns (r: Result<RateTable, RateError>)
      modifies this
      ensures r == Normalise(upstream)
      ensures cache == old(cache) && writes == old(writes) && fetches == old(fetches) + 1
    {
      fetches := fetches + 1;
      r := FetchRates(upstream);
    }

    /** `GET /api/rates`. */
    method Get(today: Day, now: int, upstream: FetchOutcome, from: Option<string>, to: Option<string>)
      returns (resp: Response)
      modifies this
      // A snapshot for today is cached: answer from it, no fetch, no write.
      ensures CacheHit(old(cache), today) ==>
        resp == HitReply(old(cache).value, today, from, to) &&
        cache == old(cache) && fetches == old(fetches) && writes == old(writes)
      // Otherwise upstream is asked exactly once.
      ensures !CacheHit(old(cache), today) ==> fetches == old(fetches) + 1
      // The fetch succeeded: the merged history is written, whatever the answer.
      ensures !CacheHit(old(cache), today) && Normalise(upstream).Success? ==>
        var history := MergeRead(HistoryOf(old(cache)), today, Normalise(upstream).value);
        cache == Some(Envelope(history, now)) && writes == old(writes) + 1 &&
        resp == FreshReply(history, Normalise(upstream).value, now, from, to)
      // The fetch failed: nothing is written and the old cache, if any, is served.
      ensures !CacheHit(old(cache), today) && Normalise(upstream).Failure? ==>
        cache == old(cache) && writes == old(writes) && resp == FallbackReply(old(cache))
      // Whatever was written keeps the retention window and one entry for today.
      ensures writes != old(writes) ==>
        cache.Some? && AllWithin(cache.value.history, today) &&
        CountOn(cache.value.history, today) == 1 && cache.value.lastUpdated == now
      // ... and the next GET the same day is served from the cache.
      ensures writes != old(writes) ==> CacheHit(cache, today)
    {
      var stored := cache;
      if stored.Some? && HasEntryFor(stored.value.history, today) {
        resp := HitReply(stored.value, today, from, to);
        return;
      }
      var fetched := Fetch(upstream);
      if fetched.Failure? {
        resp := FallbackReply(stored);
        return;
      }
      var rates := fetched.value;
      var history := HistoryOf(stored);
      history := Retained(history, today);
      history := history + [Snapshot(today, rates)];
      MergesRetain(HistoryOf(stored), today, rates);
      MergeReadOneToday(HistoryOf(stored), today, rates);
      MergeReadServesToday(HistoryOf(stored), today, rates);
      WriteCache(history, now);
      resp := FreshReply(history, rates, now, from, to);
    }

    /** `POST /api/rates`: a forced refresh. */
    method Post(today: Day, now: int, upstream: FetchOutcome) returns (resp: Response)
      modifies this
      // Upstream is always asked.
      ensures fetches == old(fetches) + 1
      // The fetch succeeded: today's snapshot replaces any earlier one and the history is written and returned.
      ensures Normalise(upstream).Success? ==>
        var env := Envelope(MergeRefresh(HistoryOf(old(cache)), today, Normalise(upstream).value), now);
        cache == Some(env) && writes == old(writes) + 1 && resp == CacheReply(env)
      // The fetch failed: nothing is written and the old cache, if any, is served.
      ensures Normalise(upstream).Failure? ==>
        cache == old(cache) && writes == old(writes) && resp == FallbackReply(old(cache))
      // Whatever was written keeps the retention window and one entry for today.
      ensures writes != old(writes) ==>
        cache.Some? && AllWithin(cache.value.history, today) &&
        CountOn(cache.value.history, today) == 1 && cache.value.lastUpdated == now
      // ... and the next GET the same day is served from the cache.
      ensures writes != old(writes) ==> CacheHit(cache, today)
    {
      var stored := cache;
      var fetched := Fetch(upstream);
      if fetched.Failure? {
        resp := FallbackReply(stored);
        return;
      }
      var rates := fetched.value;
      var history := HistoryOf(stored);
      history := Retained(history, today);
      history := WithoutDay(history, today);
      history := history + [Snapshot(today, rates)];
      MergesRetain(HistoryOf(stored), today, rates);
      MergeRefreshOneToday(HistoryOf(stored), today, rates);
      assert history[|history| - 1].date == today;
      WriteCache(history, now);
      resp := CacheReply(Envelope(history, now));
    }
  }

  // Properties of the answers

  /**
   * A cache hit with a pair answers from the FIRST snapshot dated today: its
   * rate with the cached `lastUpdated`, or 400 when that rate is null.
   */
  lemma HitReplyPair(env: Envelope, today: Day, from: Option<string>, to: Option<string>)
    requires PairRequested(from, to) && HasEntryFor(env.history, today)
    ensures exists i :: (
      && 0 <= i < |env.history| && env.history[i].date == today
      && (forall j :: 0 <= j < i ==> env.history[j].date != today)
      && HitReply(env, today, from, to) ==
           PairReply(from.value, to.value, env.history[i].rates, env.lastUpdated))
  {
    RatesOnFirst(env.history, today);
    var i := FirstIndexOn(env.history, today);
    assert RatesOn(env.history, today) == Some(env.history[i].rates);
  }

  /** Without a pair, a cache hit returns the stored envelope unchanged. */
  lemma HitReplyWhole(env: Envelope, today: Day, from: Option<string>, to: Option<string>)
    requires !PairRequested(from, to)
    ensures HitReply(env, today, from, to) == CacheReply(env)
  {
  }

  /** After a fetch, a requested pair is answered from the fresh table with `now`, and an unknown pair is 400. */
  lemma FreshReplyPair(history: seq<Snapshot>, rates: RateTable, now: int, from: string, to: string)
    requires from != "" && to != ""
    ensures GetExchangeRate(from, to, rates).Some? ==>
      FreshReply(history, rates, now, Some(from), Some(to)) ==
        RateReply(from, to, GetExchangeRate(from, to, rates).value, now)
    ensures GetExchangeRate(from, to, rates).None? ==>
      FreshReply(history, rates, now, Some(from), Some(to)) == ErrorReply(400, "Currency not found")
  {
  }

  /** The empty string counts as no parameter: the whole envelope is answered. */
  lemma EmptyParameterIsNoPair(env: Envelope, today: Day, to: Option<string>)
    ensures HitReply(env, today, Some(""), to) == CacheReply(env)
  {
  }

  // The scenarios the route is built for

  /** A cached snapshot `{TWD: 1, USD: 32}` for today answers USD to TWD with 32. */
  lemma CachedPairScenario(today: Day, lastUpdated: int)
    ensures HitReply(Envelope([Snapshot(today, map["TWD" := 1.0, "USD" := 32.0])], lastUpdated),
                     today, Some("USD"), Some("TWD"))
      == RateReply("USD", "TWD", 32.0, lastUpdated)
  {
    var h := [Snapshot(today, map["TWD" := 1.0, "USD" := 32.0])];
    assert FirstIndexOn(h, today) == 0;
  }

  /** With no cache and a failed fetch, GET and POST answer 500 "Failed to fetch rates". */
  lemma NoCacheScenario()
    ensures FallbackReply(None) == ErrorReply(500, "Failed to fetch rates")
  {
  }
}
