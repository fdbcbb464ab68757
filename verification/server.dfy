/**
 The request handlers of the HTTP server (server/src/index.ts), as pure steps
 over the sentiment cache. `GET /api/sentiment/:ticker` looks the upper-cased
 ticker up in the cache, answers from it on a hit, and otherwise runs the
 aggregator, stores its result for three minutes and answers with it; a
 failure is answered with 404 or 500 according to its message. The
 aggregator's outcome and the clock are inputs.
 */
module Server {
  import opened Basics
  import opened Text
  import opened Types
  import TtlCache

  /** The sentiment results live for three minutes. */
  const SentimentTtlMinutes: int := 3

  /** What the cache stores: the analysis plus the time it was stored. */
  datatype CachedResult = CachedResult(result: AnalysisResult, timestamp: int)

  /** How `analyzeTicker` ended: a result, or a thrown value whose message is
      present when the value was an `Error`. */
  datatype Outcome = Analyzed(result: AnalysisResult) | Failed(message: Option<string>)

  /** The JSON body and status sent back. A success carries the result and the
      `cached` flag; a hit also carries the stored `timestamp` (spread from the
      cached record) and `cacheAge` in seconds. */
  datatype Response =
    | Success(result: AnalysisResult, cached: bool, timestamp: Option<int>, cacheAge: Option<int>)
    | ErrorResponse(status: int, error: string, message: string)

  type SentimentCache = TtlCache.Cache<CachedResult>

  /** The shared `sentimentCache` instance: empty, with a three-minute default lifetime. */
  function InitialCache(): (c: SentimentCache)
    ensures c.store == map[] && c.defaultTtl == 180000
  {
    TtlCache.New(Some(SentimentTtlMinutes))
  }

  /** `sentiment:<TICKER>`: the key for the upper-cased ticker. */
  function CacheKey(rawTicker: string): (k: string)
    ensures StartsWith(k, "sentiment:") && k[10..] == ToUpper(rawTicker)
  {
    "sentiment:" + ToUpper(rawTicker)
  }

  /** Tickers that differ only in letter case share one cache entry. */
  lemma CacheKeyIgnoresCase(rawTicker: string)
    ensures CacheKey(ToUpper(rawTicker)) == CacheKey(rawTicker)
  {
    ToUpperIdempotent(rawTicker);
  }

  /** `timestamp ? Math.round((now - timestamp) / 1000) : 0`: whole seconds since
      the entry was stored, 0 for a missing (zero) timestamp. */
  function CacheAge(now: int, timestamp: int): (age: int)
    ensures timestamp == 0 ==> age == 0
    ensures timestamp != 0 ==> (age as real - 0.5) * 1000.0 <= (now - timestamp) as real < (age as real + 0.5) * 1000.0
  {
    if timestamp != 0 then Round((now - timestamp) as real / 1000.0) else 0
  }

  /** The error message the handler reports: the `Error`'s message, else "Unknown error". */
  function ErrorMessage(message: Option<string>): (m: string)
    ensures message.Some? ==> m == message.value
    ensures message.None? ==> m == "Unknown error"
  {
    message.GetOr("Unknown error")
  }

  /** A thrown value that is not an `Error` is always a server error: "Unknown error"
      names neither an invalid ticker nor missing data. */
  lemma NonErrorIsServerError()
    ensures ClassifyFailure(ErrorMessage(None)) == ErrorResponse(500, "Failed to analyze sentiment", "Unknown error")
  {
    ContainsNoLonger("Unknown error", "Invalid ticker");
    ContainsNoLonger("Unknown error", "No data found");
  }

  /**
   The failure branch: a message naming an invalid ticker or missing data
   is a client error (404, "Invalid ticker"); anything else is a server
   error (500). The original message is passed on either way.
   */
  function ClassifyFailure(message: string): (r: Response)
    ensures r.ErrorResponse? && r.message == message
    ensures r.status == 404 <==> Contains(message, "Invalid ticker") || Contains(message, "No data found")
    ensures r.status == 404 ==> r.error == "Invalid ticker"
    ensures r.status != 404 ==> r.status == 500 && r.error == "Failed to analyze sentiment"
  {
    if Contains(message, "Invalid ticker") || Contains(message, "No data found") then
      ErrorResponse(404, "Invalid ticker", message)
    else
      ErrorResponse(500, "Failed to analyze sentiment", message)
  }

  /**
   One `GET /api/sentiment/:ticker` request. The handler reads the clock at
   three points: `now` when it looks the key up (and measures a hit's age),
   `stampedAt` for the record's `timestamp` after `analyzeTicker` has
   finished, and `storedAt` inside `set`, which fixes the expiry. `outcome`
   is what the aggregator produces for the upper-cased ticker; it and the two
   later readings are used only on a miss. The lookup may evict an expired
   entry; a success on a miss stores the result; nothing else changes the cache.
   */
  function HandleSentiment(c: SentimentCache, now: int, rawTicker: string, outcome: Outcome,
                           stampedAt: int, storedAt: int): (r: (Response, SentimentCache))
    ensures var key := CacheKey(rawTicker);
            var (hit, c1) := TtlCache.Get(c, key, now);
      && (hit.Some? ==>
            r.0 == Success(hit.value.result, true, Some(hit.value.timestamp), Some(CacheAge(now, hit.value.timestamp)))
            && r.1 == c)
      && (hit.None? && outcome.Analyzed? ==>
            r.0 == Success(outcome.result, false, None, None)
            && r.1 == TtlCache.Set(c1, key, CachedResult(outcome.result, stampedAt), Some(SentimentTtlMinutes), storedAt))
      && (hit.None? && outcome.Failed? ==> r.0 == ClassifyFailure(ErrorMessage(outcome.message)) && r.1 == c1)
  {
    var key := CacheKey(rawTicker);
    var (hit, c1) := TtlCache.Get(c, key, now);
    if hit.Some? then
      (Success(hit.value.result, true, Some(hit.value.timestamp), Some(CacheAge(now, hit.value.timestamp))), c1)
    else
      match outcome
      case Analyzed(result) =>
        (Success(result, false, None, None),
         TtlCache.Set(c1, key, CachedResult(result, stampedAt), Some(SentimentTtlMinutes), storedAt))
      case Failed(message) =>
        (ClassifyFailure(ErrorMessage(message)), c1)
  }

  /** On a hit the aggregator's outcome and the later clock readings are irrelevant: they are never consulted. */
  lemma HitIgnoresOutcome(c: SentimentCache, now: int, rawTicker: string, o1: Outcome, o2: Outcome,
                          s1: int, t1: int, s2: int, t2: int)
    requires TtlCache.Get(c, CacheKey(rawTicker), now).0.Some?
    ensures HandleSentiment(c, now, rawTicker, o1, s1, t1) == HandleSentiment(c, now, rawTicker, o2, s2, t2)
    ensures HandleSentiment(c, now, rawTicker, o1, s1, t1).0.Success? && HandleSentiment(c, now, rawTicker, o1, s1, t1).0.cached
  {
  }

  /** A successful miss stores the result under the key with the `timestamp`
      taken after the analysis, and an expiry three minutes after the `set`;
      it answers with `cached = false`. */
  lemma MissStores(c: SentimentCache, now: int, rawTicker: string, result: AnalysisResult, stampedAt: int, storedAt: int)
    requires TtlCache.Get(c, CacheKey(rawTicker), now).0.None?
    ensures var (resp, c') := HandleSentiment(c, now, rawTicker, Analyzed(result), stampedAt, storedAt);
      && resp == Success(result, false, None, None)
      && CacheKey(rawTicker) in c'.store
      && c'.store[CacheKey(rawTicker)] == TtlCache.Entry(CachedResult(result, stampedAt), storedAt, storedAt + 180000)
  {
  }

  /** A failure never adds an entry: the cache afterwards is the one after the lookup. */
  lemma FailureStoresNothing(c: SentimentCache, now: int, rawTicker: string, message: Option<string>, stampedAt: int, storedAt: int)
    requires TtlCache.Get(c, CacheKey(rawTicker), now).0.None?
    ensures var (resp, c') := HandleSentiment(c, now, rawTicker, Failed(message), stampedAt, storedAt);
      && resp.ErrorResponse? && resp.message == ErrorMessage(message)
      && CacheKey(rawTicker) !in c'.store
      && c'.store.Keys <= c.store.Keys
  {
  }

  /**
   A request for the same ticker, in any letter case, up to three minutes
   after the result was stored is a hit: it answers with the stored result,
   `cached = true`, the stored `timestamp` and the age measured from it,
   whatever the aggregator would have done. The lifetime runs from the
   `set`, not from the lookup, so a slow analysis postpones the expiry.
   */
  lemma SecondRequestHits(c: SentimentCache, t: int, rawTicker: string, result: AnalysisResult,
                          stampedAt: int, storedAt: int, later: int, otherCase: string, outcome: Outcome,
                          s2: int, t2: int)
    requires TtlCache.Get(c, CacheKey(rawTicker), t).0.None?
    requires later <= storedAt + 180000
    requires ToUpper(otherCase) == ToUpper(rawTicker)
    ensures var c' := HandleSentiment(c, t, rawTicker, Analyzed(result), stampedAt, storedAt).1;
            HandleSentiment(c', later, otherCase, outcome, s2, t2).0
              == Success(result, true, Some(stampedAt), Some(CacheAge(later, stampedAt)))
  {
    MissStores(c, t, rawTicker, result, stampedAt, storedAt);
  }

  /** Past three minutes after the `set`, the entry has expired: the request
      is a miss again and the aggregator's outcome decides the answer. */
  lemma StoredEntryExpires(c: SentimentCache, t: int, rawTicker: string, result: AnalysisResult,
                           stampedAt: int, storedAt: int, later: int, outcome: Outcome, s2: int, t2: int)
    requires TtlCache.Get(c, CacheKey(rawTicker), t).0.None?
    requires later > storedAt + 180000
    ensures var c' := HandleSentiment(c, t, rawTicker, Analyzed(result), stampedAt, storedAt).1;
            var r := HandleSentiment(c', later, rawTicker, outcome, s2, t2).0;
            r.Success? ==> !r.cached
  {
    MissStores(c, t, rawTicker, result, stampedAt, storedAt);
  }

  /** The age reported on a hit is never negative once the clock has not gone back. */
  lemma CacheAgeNonNegative(now: int, timestamp: int)
    requires timestamp <= now
    ensures CacheAge(now, timestamp) >= 0
  {
  }

  /** `POST /api/cache/clear`: the cache is empty afterwards. */
  function ClearCache(c: SentimentCache): (r: (string, SentimentCache))
    ensures r.0 == "Cache cleared successfully"
    ensures r.1.store == map[] && r.1.defaultTtl == c.defaultTtl
  {
    ("Cache cleared successfully", TtlCache.Clear(c))
  }

  /** After a clear, the next request for any ticker is a miss. */
  lemma ClearForcesMiss(c: SentimentCache, now: int, rawTicker: string, outcome: Outcome, stampedAt: int, storedAt: int)
    ensures var r := HandleSentiment(ClearCache(c).1, now, rawTicker, outcome, stampedAt, storedAt).0;
            r.Success? ==> !r.cached
  {
  }

  /** `GET /api/cache/stats`: the counts of live and expired entries; the cache is not changed. */
  method CacheStats(c: SentimentCache, now: int) returns (s: TtlCache.Stats)
    ensures s.total == |c.store| == s.active + s.expired
    ensures s.active == |TtlCache.ActiveKeys(c, now)|
  {
    s := TtlCache.GetStats(c, now);
  }

  /** The periodic sweep: a request at the sweep or any time after it is answered
      from what remains exactly as it would have been without the sweep. */
  lemma SweepKeepsAnswers(c: SentimentCache, sweptAt: int, now: int, rawTicker: string, outcome: Outcome,
                          stampedAt: int, storedAt: int)
    requires sweptAt <= now
    ensures HandleSentiment(TtlCache.Unexpired(c, sweptAt), now, rawTicker, outcome, stampedAt, storedAt).0
         == HandleSentiment(c, now, rawTicker, outcome, stampedAt, storedAt).0
  {
  }
}
