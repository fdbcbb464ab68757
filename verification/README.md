# Sentinel backend — a Dafny model

This project models the backend of Sentinel, a stock-sentiment service. For one ticker the backend:

- collects social-media posts from Reddit and StockTwits (Twitter is wired in but returns nothing);
- turns each post into a comment with a sentiment (Bullish, Bearish or Neutral) and an impact score in [0, 10];
- ranks the comments by impact and keeps the top thirty;
- computes an impact-weighted overall score, secondary statistics (volatility, momentum, retail and institutional readings, price levels, put/call ratio), a seven-day trend and a summary;
- serves the result over HTTP behind a three-minute in-memory TTL cache.

Everything is modelled as pure functions over immutable data. The outside world becomes explicit inputs:

- the clock is a `now` argument in milliseconds;
- each network exchange is an input value:
  - the Reddit search is a function `Query -> Fetch`;
  - the StockTwits request is a `Reply`;
  - the language-model call is an `AiReply`;
- every `Math.random()` draw and `Math.sin` base is an input constrained to its range;
- `Math.log10` is a function parameter `lg`. The properties that depend on it assume only `LogLike(lg)`: `lg(1) = 0` and `lg` is non-decreasing from 1 on;
- the locale clock text shown for posts older than a day is an input function.

Modules:

| module | file | models |
|---|---|---|
| `Basics` | basics.dfy | `Option`, `Math.round`, `toFixed(2)`, `slice`, the logarithm's assumed shape |
| `Text` | text.dfy | `${n}` rendering and its inverse, ASCII `toLowerCase`/`toUpperCase`, `includes` |
| `Types` | types.dfy | the records of server/src/types/scraperTypes.ts and the `<prefix>-<now>-<i>` id scheme of all adapters |
| `RelativeTime` | reltime.dfy | the "Nm ago" / "Nh ago" labels shared by Reddit and StockTwits |
| `Ranking` | ranking.dfy | the stable sort by impact and the top-N cut |
| `Synthetic` | synthetic.dfy | the synthetic batches of StockTwits (fallback) and Twitter (dormant) |
| `Reddit`, `StockTwits`, `Twitter` | reddit.dfy, stocktwits.dfy, twitter.dfy | the three adapters |
| `TtlCache` | cache.dfy | the TTL cache |
| `Aggregator` | aggregator.dfy | `analyzeTicker` and its score, statistics, trend and summary |
| `Pipeline` | pipeline.dfy | `analyzeTicker` wired to the three adapters |
| `Server` | server.dfy | the `/api/sentiment/:ticker`, `/api/cache/clear` and `/api/cache/stats` handlers |

## Model

| member | source | states |
|---|---|---|
| TtlCache.New | server/src/utils/cache.ts:11-14 | an empty store; an omitted argument gives 5 minutes (300000 ms), otherwise minutes × 60000 |
| TtlCache.TtlFor | server/src/utils/cache.ts:17 | an omitted or zero `ttlMinutes` selects the default lifetime; any other value gives minutes × 60000 |
| TtlCache.Set | server/src/utils/cache.ts:16-25 | the key maps to a fresh entry stamped `now` and expiring `now + ttl`; the key set grows by at most that key; every other entry is unchanged |
| TtlCache.Get | server/src/utils/cache.ts:27-41 | a value is returned iff the key is present and `now <= expiresAt`, and it is the stored data; a miss leaves the cache alone; an expired entry is removed and nothing else changes |
| TtlCache.Has | server/src/utils/cache.ts:43-57 | true exactly when `get` would return a value, with the same eviction |
| TtlCache.Delete | server/src/utils/cache.ts:59-61 | true iff the key was present; the key is gone afterwards |
| TtlCache.Clear | server/src/utils/cache.ts:63-65 | the store is empty afterwards |
| TtlCache.Cleanup | server/src/utils/cache.ts:68-75 | the loop keeps exactly the live keys, each with its entry unchanged, and equals the reference `Unexpired` |
| TtlCache.GetStats | server/src/utils/cache.ts:78-96 | the loop counts equal the sizes of the live and expired key sets, and total = active + expired = store size |
| TtlCache.CountsPartition | server/src/utils/cache.ts:83-95 | any split of the store into live and expired keys is the live/expired partition, and the sizes add up |
| TtlCache.SetThenGet | server/src/utils/cache.ts:16-41 | storing at `t`, then reading at any time up to `t + ttl` inclusive, returns exactly the stored value and leaves the cache unchanged, so a read never extends the lifetime |
| TtlCache.GetAfterExpiry | server/src/utils/cache.ts:35-38 | once past `t + ttl`, `get` misses and the key is removed |
| TtlCache.GetChangesOnlyItsKey | server/src/utils/cache.ts:27-41 | a read never changes another key or a live entry |
| TtlCache.CleanupObservablySame | server/src/utils/cache.ts:68-75 | after a sweep nothing is expired, the live keys are the same, and every `get` at that time answers as before |
| Text.NatToStringRoundTrip | server/src/services/redditScraper.ts:56 | a number rendered as `${n}` parses back to itself |
| Text.IntToStringRoundTrip | server/src/services/redditScraper.ts:105 | signed numbers rendered in labels parse back to themselves, negative ones included |
| Text.IntToStringInjective | server/src/services/stockTwitsScraper.ts:25 | distinct numbers render as distinct id parts |
| Text.ToLowerOfToUpper | server/src/services/redditScraper.ts:71 | for ASCII text, lower-casing ignores any earlier upper-casing |
| Text.ToUpperIdempotent | server/src/index.ts:33 | upper-casing twice is upper-casing once |
| Text.ContainsNoLonger | server/src/index.ts:69 | `includes` of a substring at least as long as the text holds only when the two are equal |
| RelativeTime.DiffMinutes | server/src/services/redditScraper.ts:101-102 | the whole minutes elapsed, rounded down, also for a future date |
| RelativeTime.FormatAgo | server/src/services/redditScraper.ts:104-110 | under an hour the label reads back as the exact minutes; under a day it reads back as the whole hours; from a day on it is the clock text |
| RelativeTime.HoursOfMinutes | server/src/services/redditScraper.ts:102-107 | the whole hours of the whole minutes are the whole hours of the milliseconds |
| RelativeTime.Label | server/src/services/redditScraper.ts:98-111 | measured in milliseconds: under an hour the label reads back as the elapsed whole minutes, under a day as the elapsed whole hours; from a day on it is the clock text |
| Ranking.Insert | server/src/services/sentimentAggregator.ts:40-41 | inserting into a ranked list gives a ranked list with the same elements plus the new one |
| Ranking.SortByImpact | server/src/services/sentimentAggregator.ts:40-41 | the result is non-increasing by impact and a permutation of the input |
| Ranking.SortStable | server/src/services/sentimentAggregator.ts:40-41 | for every impact value, the comments with that impact keep their input order |
| Ranking.TopByImpact | server/src/services/sentimentAggregator.ts:40-42 | `min(n, length)` ranked comments drawn from the input |
| Ranking.TopDominatesRest | server/src/services/sentimentAggregator.ts:40-42 | no comment that was cut ranks above one that was kept |
| Ranking.TopByImpactMembers | server/src/services/sentimentAggregator.ts:42 | every kept comment is an input comment |
| Reddit.DetectSentiment | server/src/services/redditScraper.ts:70-90 | Bullish iff more distinct bullish than bearish keywords occur in the lower-cased text; Bearish in the mirror case; Neutral iff the counts tie, including 0–0 |
| Reddit.HitsCountMatched | server/src/services/redditScraper.ts:79-85 | the per-keyword tally counts each keyword at most once: it equals the number of distinct keywords found |
| Reddit.DetectSentimentIgnoresCase | server/src/services/redditScraper.ts:71 | voting ignores the letter case of ASCII text |
| Reddit.ImpactScore | server/src/services/redditScraper.ts:92-96 | at most 10; at least 0 for every post score, negative ones included |
| Reddit.ImpactMonotone | server/src/services/redditScraper.ts:94-95 | a higher post score never lowers the impact |
| Reddit.CommentText | server/src/services/redditScraper.ts:59 | the title alone for an empty body; otherwise the title, ": " and then exactly the first `min(200, length)` body characters |
| Reddit.FormatTimestamp | server/src/services/redditScraper.ts:98-111 | with the post time in seconds and the clock in milliseconds, the label reads back as the elapsed whole minutes under an hour and whole hours under a day; older posts show their clock text |
| Reddit.ToComment | server/src/services/redditScraper.ts:55-63 | every field comes from the post: the id `reddit-<now>-<index>`, the author, the title-and-body text, a sentiment voted on title and body together, the post-time label, and the impact computed from the post's score (so `Reddit.ImpactMonotone` applies to it), at most 10 |
| Reddit.SubredditBatch | server/src/services/redditScraper.ts:37-68 | a failed request gives no comments; a successful one gives one Reddit comment per post, comment i taking post i's author, text, voted sentiment, label and score-derived impact; impact at most 10; ids distinct within the batch |
| Reddit.Batches | server/src/services/redditScraper.ts:23-26 | one batch per subreddit, in the fixed order |
| Reddit.ScrapeStockMentions | server/src/services/redditScraper.ts:18-35 | the loop appends the four batches in order and cuts to `limit`: at most `limit` comments, all from Reddit |
| Reddit.MentionsInRange | server/src/services/redditScraper.ts:92-96 | every impact the adapter returns lies in [0, 10] |
| Reddit.FailureIsolated | server/src/services/redditScraper.ts:48-50 | a failing subreddit contributes an empty batch and leaves every other batch as it was |
| StockTwits.MapSentiment | server/src/services/stockTwitsScraper.ts:40-47 | Bullish iff the tag lower-cases to "bullish"; Bearish iff it lower-cases to "bearish"; Neutral otherwise, including a missing or empty tag |
| StockTwits.MapSentimentIgnoresCase | server/src/services/stockTwitsScraper.ts:43 | an ASCII tag is read without regard to case |
| StockTwits.FormatTimestamp | server/src/services/stockTwitsScraper.ts:56-73 | an unparseable date prints "Invalid Date"; a parsed one reads back as the elapsed whole minutes under an hour and whole hours under a day, and shows its clock text after that |
| StockTwits.OrDefault | server/src/services/stockTwitsScraper.ts:27-28 | a present non-empty string is kept; a missing or empty one takes the fallback; a non-empty fallback never yields "" |
| StockTwits.CountOrZero | server/src/services/stockTwitsScraper.ts:31 | a present count is kept and a missing one reads 0 |
| StockTwits.ImpactScore | server/src/services/stockTwitsScraper.ts:49-54 | at most 10; at least 0 for non-negative followers and likes |
| StockTwits.ToComment | server/src/services/stockTwitsScraper.ts:24-31 | a StockTwits comment whose id uses the message id (or the clock when it is missing or 0), whose user is the username or "Anonymous", whose text is the body or "", whose sentiment is the mapped tag, whose label is the formatted `created_at`, and whose impact comes from followers and likes (0 when missing), at most 10 |
| StockTwits.MockStampReads | server/src/services/stockTwitsScraper.ts:104 | a synthetic item's label reads back as its exact recency, in minutes under an hour and in hours under a day |
| StockTwits.MockData | server/src/services/stockTwitsScraper.ts:75-110 | `min(limit, 15)` items; item i uses template and user `i % 10` and the template's sentiment; its label is made from the recency `floor(u × 360) + 5` of its draw; impact within ±0.5 of the template's and inside [0, 10]; source StockTwits; distinct ids |
| StockTwits.ScrapeStockMentions | server/src/services/stockTwitsScraper.ts:6-38 | never fails; a non-OK status or an exception gives the synthetic batch of `min(limit, 15)` items; a success gives `min(limit, messages)` comments, comment i being message i mapped, with "Anonymous" for missing user names |
| StockTwits.ScrapeInRange | server/src/services/stockTwitsScraper.ts:49-54 | on both paths every impact lies in [0, 10] |
| Synthetic.MinutesAgo | server/src/services/stockTwitsScraper.ts:96 | a recency drawn from [0, 1) gives between 5 and `span + 4` minutes |
| Synthetic.Jittered | server/src/services/stockTwitsScraper.ts:105 | the jittered impact stays within half the width of the template's |
| Types.ItemIdsDistinct | server/src/services/stockTwitsScraper.ts:99 | `<prefix>-<now>-<i>` differs for different i |
| Types.AllItemIdsDistinct | server/src/services/redditScraper.ts:56 | within one batch, ids of different positions always differ |
| Synthetic.MockBatch | server/src/services/twitterScraper.ts:38-51 | batch size, template/user/sentiment cycling, jitter bound, the label made from each draw's recency in [5, span + 4], and distinct ids, for any recipe |
| Twitter.ScrapeStockMentions | server/src/services/twitterScraper.ts:6-17 | the empty list for every ticker and limit |
| Twitter.FormatTimestamp | server/src/services/twitterScraper.ts:56-62 | under an hour the label reads back as the minutes, otherwise as the whole hours, with no day band |
| Twitter.FormatAgreesUnderADay | server/src/services/twitterScraper.ts:56-62 | under a day these labels coincide with the Reddit/StockTwits labels |
| Twitter.MockData | server/src/services/twitterScraper.ts:19-54 | `min(limit, 20)` items; template, user and sentiment `i % 10`; the label made from the recency `floor(u × 480) + 5` of its draw; impact within ±0.75 of the template's and inside [0, 10]; source "X (Twitter)"; distinct ids |
| Aggregator.OverallScore | server/src/services/sentimentAggregator.ts:75-93 | 50 for an empty list or a non-positive total weight; in [25, 75] whenever the weights are non-negative |
| Aggregator.WeightedSumBounds | server/src/services/sentimentAggregator.ts:81-90 | with non-negative weights the weighted sum lies between 25 and 75 times the total weight |
| Aggregator.UnanimousScore | server/src/services/sentimentAggregator.ts:83-92 | a list of one sentiment with positive weight scores exactly that sentiment's vote (75, 25 or 50) |
| Aggregator.AccumulateOverallScore | server/src/services/sentimentAggregator.ts:75-93 | the single accumulating pass computes `OverallScore` |
| Aggregator.CountsAddUp | server/src/services/sentimentAggregator.ts:117-119 | the bullish, bearish and neutral counts add up to the list length |
| Aggregator.Count | server/src/services/sentimentAggregator.ts:117-118 | at most the list length; 0 exactly when no comment has the sentiment; the full length exactly when every comment has it |
| Aggregator.Percent | server/src/services/sentimentAggregator.ts:120-122 | the nearest whole percent of `count / total`: `(2p - 1)·total <= 200·count < (2p + 1)·total` for a non-empty list; in [0, 100]; 0 for no matches; 100 when all match |
| Aggregator.VolatilityFor | server/src/services/sentimentAggregator.ts:120-127 | HIGH iff 5·gap > 3·total; MEDIUM iff 5·gap ≤ 3·total < 10·gap; LOW iff 10·gap ≤ 3·total; total = max(length, 1) |
| Aggregator.BalancedIsCalm | server/src/services/sentimentAggregator.ts:126-127 | equal bullish and bearish counts give LOW |
| Aggregator.MomentumFor | server/src/services/sentimentAggregator.ts:130 | BULLISH iff score > 60, BEARISH iff score < 40, NEUTRAL iff 40 ≤ score ≤ 60 |
| Aggregator.PutCallRatio | server/src/services/sentimentAggregator.ts:138-147 | always in [0.3, 2.0]; exactly (150 − score)/100 for a score in [0, 100] |
| Aggregator.PutCallRatioAntitone | server/src/services/sentimentAggregator.ts:138 | a higher score never raises the ratio |
| Aggregator.Institutional | server/src/services/sentimentAggregator.ts:123 | for a score in [0, 100] the institutional reading lies in [0, 95] |
| Aggregator.Dollars | server/src/services/sentimentAggregator.ts:134-135 | "$", the whole dollars (parsing back to `cents / 100`), ".", and two digits whose value is `cents % 100` |
| Aggregator.LevelCents | server/src/services/sentimentAggregator.ts:133-135 | the cents nearest to `basePrice × factor` |
| Aggregator.DollarsRoundTrip | server/src/services/sentimentAggregator.ts:134-135 | a "$d.cc" price reads back as its cents |
| Aggregator.LevelsOrdered | server/src/services/sentimentAggregator.ts:133-135 | support lies in [$114, $133], resistance in [$126, $147], and support is below resistance |
| Aggregator.DeepStatsFor | server/src/services/sentimentAggregator.ts:116-149 | the statistics record of the given comments: volatility from the bullish/bearish gap, momentum from the score, retail share = the rounded bullish percentage, the jittered institutional reading (in [0, 95] for a score in [0, 100]), the clamped put/call ratio, and price strings that read back as the level cents |
| Aggregator.TrendScore | server/src/services/sentimentAggregator.ts:104-109 | between `round(base - 5)` and `round(base + 5)`, so in [55, 80] for a base in [60, 75] |
| Aggregator.TrendData | server/src/services/sentimentAggregator.ts:95-114 | seven points, oldest first, the last labelled "Now", every score in [55, 80] |
| Aggregator.FallbackSummary | server/src/services/sentimentAggregator.ts:198-213 | the template opens with the band's words, the ticker and the band's percentages, and its band reads back as the one the score selects |
| Aggregator.BandOf | server/src/services/sentimentAggregator.ts:206-212 | the strong-bullish template iff the score exceeds 65, the bearish one iff it is below 35, the mixed one iff it lies in [35, 65] |
| Aggregator.ReadOpening | server/src/services/sentimentAggregator.ts:206-212 | the three template openings are told apart |
| Aggregator.BandAgreesWithMomentum | server/src/services/sentimentAggregator.ts:206-212 | the bullish template implies BULLISH momentum and the bearish template BEARISH momentum |
| Aggregator.ChooseSummary | server/src/services/sentimentAggregator.ts:151-196 | the model's text iff there is a client and it returned non-empty text; otherwise, including a thrown request, the fallback |
| Aggregator.Shown | server/src/services/sentimentAggregator.ts:33-42 | the Reddit, Twitter and StockTwits comments ranked and cut to `min(volume, 30)` |
| Aggregator.AnalyzeTicker | server/src/services/sentimentAggregator.ts:23-67 | upper-cased ticker; volume counts every comment before the cut; shown = ranked top 30; score, statistics and summary computed over the shown comments; trend from its own draws |
| Aggregator.ConcatInRange | server/src/services/sentimentAggregator.ts:33-37 | impacts in [0, 10] survive concatenation |
| Aggregator.ShownInRange | server/src/services/sentimentAggregator.ts:40-42 | impacts in [0, 10] survive ranking and cutting |
| Aggregator.AnalysisInRange | server/src/services/sentimentAggregator.ts:45-51 | impacts in [0, 10] give a score in [25, 75], an institutional reading in [0, 95] and a ratio of exactly (150 − score)/100 |
| Pipeline.Analyze | server/src/services/sentimentAggregator.ts:26-30 | twenty comments asked of each source; volume at most 40; `min(volume, 30)` shown |
| Pipeline.AnalyzeInRange | server/src/services/sentimentAggregator.ts:26-51 | with a log10-like logarithm and non-negative engagement counts, the score lies in [25, 75] |
| Server.InitialCache | server/src/utils/cache.ts:99-100 | the shared cache starts empty with a 180000 ms default lifetime |
| Server.CacheKey | server/src/index.ts:33-36 | "sentiment:" followed by the upper-cased ticker |
| Server.CacheKeyIgnoresCase | server/src/index.ts:33-36 | tickers differing only in case share a key |
| Server.CacheAge | server/src/index.ts:44 | 0 without a timestamp; otherwise the elapsed milliseconds rounded to the nearest second |
| Server.CacheAgeNonNegative | server/src/index.ts:44 | the age is never negative when the clock has not gone back |
| Server.ClassifyFailure | server/src/index.ts:66-80 | 404 "Invalid ticker" iff the message contains "Invalid ticker" or "No data found"; otherwise 500 "Failed to analyze sentiment"; the message is kept |
| Server.ErrorMessage | server/src/index.ts:66 | an `Error`'s own message, otherwise "Unknown error" |
| Server.NonErrorIsServerError | server/src/index.ts:66-80 | a thrown value that is not an `Error` always gives 500 "Failed to analyze sentiment" with message "Unknown error" |
| Server.HandleSentiment | server/src/index.ts:31-82 | hit: the cached result, `cached = true`, the stored `timestamp` and its age, cache unchanged; miss and success: the result with `cached = false`, stored with the `timestamp` read after the analysis and an expiry three minutes after the `set`; miss and failure: the classified error, nothing stored |
| Server.HitIgnoresOutcome | server/src/index.ts:37-46 | on a hit the aggregator's outcome does not matter |
| Server.MissStores | server/src/index.ts:50-61 | a successful miss stores the post-analysis `timestamp` and an entry expiring 180000 ms after the `set` |
| Server.FailureStoresNothing | server/src/index.ts:63-81 | a failure adds no entry |
| Server.SecondRequestHits | server/src/index.ts:37-56 | up to three minutes after the `set`, a request for the same ticker in any case is a hit with the stored result and `timestamp`, its age measured from that `timestamp` |
| Server.StoredEntryExpires | server/src/index.ts:37-56 | later than three minutes after the `set`, the same request is no longer answered from the cache |
| Server.ClearCache | server/src/index.ts:85-88 | the cache is empty afterwards |
| Server.ClearForcesMiss | server/src/index.ts:85-88 | after a clear the next request is never a hit |
| Server.CacheStats | server/src/index.ts:90-92 | total = active + expired = number of entries |
| Server.SweepKeepsAnswers | server/src/index.ts:95-98 | after a sweep at `sweptAt`, every request at `sweptAt` or later gets the same response as without the sweep |

## Left out

- Network access, the Gemini prompt text and its model settings, `Promise.all` concurrency, console logging, `dotenv`, Express wiring and `app.listen` are not modelled. Each request's outcome is an input, and the three adapters are evaluated in the fixed order Reddit, Twitter, StockTwits.
- `GET /api/health` is not modelled separately. It reports the clock text and the same counts as `Server.CacheStats`.
- The `setInterval` timer is not modelled. What it runs is `TtlCache.Cleanup`, and `Server.SweepKeepsAnswers` covers its effect on requests.
- Numbers are exact reals, not IEEE doubles. For the thresholds 0.3 and 0.6 this makes no difference at these list sizes.
- Aggregator.LevelCents: `toFixed(2)` rounds the double's exact decimal value, but the model rounds half up on the real value. A price lying exactly half a cent between two values may print one cent differently.
- `toLocaleTimeString` for posts older than a day, the "MM-DD" trend labels and the ISO `lastUpdated` text are inputs, not computed.
- Text: upper- and lower-casing cover ASCII letters only. JavaScript's full Unicode case mapping is not modelled.
- Text.ToLowerOfToUpper: stated for ASCII text only. Under JavaScript's Unicode mapping it fails: "ſ" upper-cases to "S" but lower-cases to itself.
- Reddit.DetectSentimentIgnoresCase: stated for ASCII text only. In JavaScript "ſurge" votes Neutral while its upper-cased form "SURGE" votes Bullish.
- StockTwits.MapSentimentIgnoresCase: stated for ASCII tags only. In JavaScript the tag "bullıſh" maps to Neutral while its upper-cased form maps to Bullish.
- Reddit.CommentText: `substring(0, 200)` counts UTF-16 code units, but the model counts characters. A body with characters outside the Basic Multilingual Plane is cut at a different place.
- TtlCache.TtlFor: minutes are integers. JavaScript accepts a fractional `ttlMinutes` such as 0.5, which is truthy and gives 30000 ms. No caller passes one: the server uses 3.
- TtlCache.New: a fractional `defaultTTLMinutes` cannot be expressed either, for the same reason.
- Aggregator.TrendData: the base scores `60 + 15·sin(i·0.5)` are inputs constrained to [60, 75]. `sin` is not computed, so the base for today is not pinned to exactly 60.
- Each adapter call reads the clock once:
  - Reddit uses one reading per subreddit batch, for the ids and for the labels;
  - StockTwits uses `now` for ids, labels and synthetic timestamps.

  The source reads `Date.now()` or `new Date()` again at each of those places, a few milliseconds apart.
- Reddit.ToComment: ids are `reddit-<now>-<index>` with the index counted per subreddit. Two subreddits mapped within the same millisecond therefore produce equal ids. The model reproduces this and proves ids distinct only within one subreddit's batch (`Reddit.SubredditBatch`).
- `Reddit.ScrapeStockMentions` and `StockTwits.ScrapeStockMentions` each have a catch-all branch (redditScraper.ts:31-34; stockTwitsScraper.ts:34-37, the latter covered by `Reply.Threw`). Reddit's outer catch cannot be reached once every per-subreddit failure is caught, so it is not modelled.
- StockTwits' `formatTimestamp` has a catch branch returning "Just now", which cannot be reached: `new Date` of an unparseable string yields an Invalid Date instead of throwing. The model follows that path and prints "Invalid Date" for a missing or unparseable `created_at`.
- Limits are natural numbers. `StockTwits.ScrapeStockMentions` takes a `nat` limit because `slice(0, limit)` with a negative or fractional limit is never exercised: the aggregator always passes 20.
- `neutralCount` is computed by the source and then never used, so it is not modelled. The neutral count still appears in `Aggregator.CountsAddUp`.
- Server.HandleSentiment: one request is one atomic step. In the source the handler awaits `analyzeTicker` between the lookup and the `set`, so a cache clear or another request can run in between. That interleaving is not modelled. On a hit, the lookup inside `get` and the `Date.now()` for `cacheAge` are one reading, `now`.
- The outcome of `analyzeTicker` in `Server.HandleSentiment` is an input, and may be a failure. The modelled aggregator itself never fails: every adapter catches its errors and the language-model call is guarded. Failures can come only from outside the model.
