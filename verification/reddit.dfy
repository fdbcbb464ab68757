/**
 The Reddit adapter (server/src/services/redditScraper.ts): four subreddit
 searches, keyword-vote sentiment, log-scaled impact and relative-time
 labels. The network is an input: `fetch` answers each search query with the
 posts found (and the clock reading `Date.now()` taken while mapping them) or
 a failure, which covers a non-OK status as well as any exception.
 */
module Reddit {
  import opened Basics
  import opened Text
  import opened Types
  import RelativeTime

  datatype Post = Post(title: string, selftext: string, author: string, createdUtc: int, score: int)

  /** One search request: subreddit, ticker and the per-subreddit limit `limit / 4`. */
  datatype Query = Query(subreddit: string, ticker: string, limit: real)

  datatype Fetch = Fetched(posts: seq<Post>, mappedAt: int) | FetchFailed

  const Subreddits: seq<string> := ["wallstreetbets", "stocks", "investing", "StockMarket"]

  const BullishKeywords: seq<string> :=
    ["moon", "buy", "calls", "bullish", "up", "gain", "long", "rocket", "pump", "breakout", "surge"]

  const BearishKeywords: seq<string> :=
    ["puts", "bearish", "down", "loss", "short", "crash", "dump", "fall", "tank", "drop"]

  /** The keywords of `words` that occur in `text`, each counted once. */
  function Matched(text: string, words: seq<string>): set<string>
  {
    set w | w in words && Contains(text, w)
  }

  /** The `forEach` tally: one vote per keyword of the list that occurs in the text. */
  function KeywordHits(text: string, words: seq<string>): nat
  {
    if |words| == 0 then 0
    else KeywordHits(text, words[..|words| - 1]) + (if Contains(text, words[|words| - 1]) then 1 else 0)
  }

  predicate Distinct(words: seq<string>)
  {
    forall i, j :: 0 <= i < j < |words| ==> words[i] != words[j]
  }

  /** For a list without repeats, the tally is the number of distinct keywords found. */
  lemma {:induction false} HitsCountMatched(text: string, words: seq<string>)
    requires Distinct(words)
    ensures KeywordHits(text, words) == |Matched(text, words)|
  {
    if |words| > 0 {
      var init := words[..|words| - 1];
      var last := words[|words| - 1];
      HitsCountMatched(text, init);
      var m0 := Matched(text, init);
      assert last !in init;
      forall w
        ensures w in Matched(text, words) <==> w in m0 || (w == last && Contains(text, last))
      {
        assert w in words <==> w in init || w == last by {
          assert words == init + [last];
        }
      }
      if Contains(text, last) {
        assert Matched(text, words) == m0 + {last};
      } else {
        assert Matched(text, words) == m0;
      }
    }
  }

  lemma KeywordListsDistinct()
    ensures Distinct(BullishKeywords) && Distinct(BearishKeywords)
  {
  }

  /**
   `detectSentiment`: votes on the lower-cased text. Bullish exactly when more
   distinct bullish than bearish keywords occur (and at least one), Bearish
   in the mirror case, Neutral on every tie including none at all.
   */
  function DetectSentiment(text: string): (r: Sentiment)
    ensures var bull := |Matched(ToLower(text), BullishKeywords)|;
            var bear := |Matched(ToLower(text), BearishKeywords)|;
            && (r == Bullish <==> bull > bear)
            && (r == Bearish <==> bear > bull)
            && (r == Neutral <==> bull == bear)
  {
    var lower := ToLower(text);
    var bull := KeywordHits(lower, BullishKeywords);
    var bear := KeywordHits(lower, BearishKeywords);
    KeywordListsDistinct();
    HitsCountMatched(lower, BullishKeywords);
    HitsCountMatched(lower, BearishKeywords);
    if bull > bear && bull > 0 then Bullish
    else if bear > bull && bear > 0 then Bearish
    else Neutral
  }

  /** Voting ignores the letter case of ASCII text. */
  lemma DetectSentimentIgnoresCase(text: string)
    requires IsAscii(text)
    ensures DetectSentiment(ToUpper(text)) == DetectSentiment(text)
  {
    ToLowerOfToUpper(text);
  }

  /** `min(log10(max(score, 1) + 1) * 2, 10)`, with `lg` standing for `Math.log10`. */
  function ImpactScore(lg: real -> real, score: int): (r: real)
    ensures r <= 10.0
    ensures LogLike(lg) ==> 0.0 <= r
  {
    var normalized := lg(Max(score, 1) as real + 1.0);
    assert LogLike(lg) ==> 0.0 <= normalized by {
      if LogLike(lg) { LogNonNegative(lg, Max(score, 1) as real + 1.0); }
    }
    MinReal(normalized * 2.0, 10.0)
  }

  /** A higher post score never lowers the impact. */
  lemma ImpactMonotone(lg: real -> real, a: int, b: int)
    requires LogLike(lg)
    requires a <= b
    ensures ImpactScore(lg, a) <= ImpactScore(lg, b)
  {
    assert lg(Max(a, 1) as real + 1.0) <= lg(Max(b, 1) as real + 1.0);
  }

  /** The comment text: the title, plus ": " and the first (at most) 200 characters of a non-empty body. */
  function CommentText(title: string, selftext: string): (r: string)
    ensures selftext == "" ==> r == title
    ensures selftext != "" ==> StartsWith(r, title + ": ") && |r| == |title| + 2 + Min(|selftext|, 200)
    ensures selftext != "" ==> r[|title| + 2..] == selftext[..Min(|selftext|, 200)]
  {
    if selftext == "" then title else title + ": " + Take(selftext, 200)
  }

  /**
   `formatTimestamp(created_utc)`: the post time is in seconds, the clock in
   milliseconds. Read back, the label gives the whole minutes elapsed under an
   hour and the whole hours under a day; older posts show their clock text.
   */
  function FormatTimestamp(createdUtc: int, nowMs: int, localeTime: int -> string): (r: string)
    ensures var d := nowMs - createdUtc * 1000;
      && (d < 3600000 ==> RelativeTime.ParseAgo(r) == RelativeTime.MinutesAgo(d / 60000))
      && (3600000 <= d < 86400000 ==> RelativeTime.ParseAgo(r) == RelativeTime.HoursAgo(d / 3600000))
      && (86400000 <= d ==> r == localeTime(createdUtc * 1000))
  {
    RelativeTime.Label(nowMs, createdUtc * 1000, localeTime(createdUtc * 1000))
  }

  /** One post mapped to a comment; `index` is its position in the subreddit's answer.
      The author is kept, and the sentiment is voted on the title and body together. */
  function ToComment(p: Post, index: nat, mappedAt: int, lg: real -> real, localeTime: int -> string): (c: Comment)
    ensures c.source == Reddit && c.user == p.author
    ensures c.id == ItemId("reddit", mappedAt, index)
    ensures c.text == CommentText(p.title, p.selftext)
    ensures c.sentiment == DetectSentiment(p.title + " " + p.selftext)
    ensures c.timestamp == FormatTimestamp(p.createdUtc, mappedAt, localeTime)
    ensures c.impactScore == ImpactScore(lg, p.score)
    ensures c.impactScore <= 10.0 && (LogLike(lg) ==> 0.0 <= c.impactScore)
  {
    Comment(
      ItemId("reddit", mappedAt, index),
      Reddit,
      p.author,
      CommentText(p.title, p.selftext),
      DetectSentiment(p.title + " " + p.selftext),
      FormatTimestamp(p.createdUtc, mappedAt, localeTime),
      ImpactScore(lg, p.score))
  }

  /** `fetchSubredditPosts`: the mapped posts, or nothing when the request failed. */
  function SubredditBatch(fetch: Query -> Fetch, q: Query, lg: real -> real, localeTime: int -> string): (r: seq<Comment>)
    ensures fetch(q).FetchFailed? ==> r == []
    ensures fetch(q).Fetched? ==> |r| == |fetch(q).posts|
    ensures fetch(q).Fetched? ==> forall i :: 0 <= i < |r| ==>
      var p := fetch(q).posts[i];
      && r[i].user == p.author
      && r[i].text == CommentText(p.title, p.selftext)
      && r[i].sentiment == DetectSentiment(p.title + " " + p.selftext)
      && r[i].timestamp == FormatTimestamp(p.createdUtc, fetch(q).mappedAt, localeTime)
      && r[i].impactScore == ImpactScore(lg, p.score)
    ensures forall i, j :: 0 <= i < j < |r| ==> r[i].id != r[j].id
    ensures forall i :: 0 <= i < |r| ==> r[i].source == Reddit && r[i].impactScore <= 10.0
    ensures LogLike(lg) ==> ImpactsInRange(r)
  {
    match fetch(q)
    case FetchFailed => []
    case Fetched(posts, at) =>
      AllItemIdsDistinct("reddit", at);
      seq(|posts|, i requires 0 <= i < |posts| => ToComment(posts[i], i, at, lg, localeTime))
  }

  /** The search each subreddit receives for a call with this ticker and limit. */
  function QueryFor(k: nat, ticker: string, limit: nat): Query
    requires k < |Subreddits|
  {
    Query(Subreddits[k], ticker, limit as real / |Subreddits| as real)
  }

  /** The batches of the four subreddits, in the fixed order. */
  function Batches(ticker: string, limit: nat, fetch: Query -> Fetch, lg: real -> real, localeTime: int -> string): (bs: seq<seq<Comment>>)
    ensures |bs| == |Subreddits|
  {
    seq(|Subreddits|, k requires 0 <= k < |Subreddits| => SubredditBatch(fetch, QueryFor(k, ticker, limit), lg, localeTime))
  }

  /** What `scrapeStockMentions` returns: the subreddit batches in order, truncated to `limit`. */
  function Mentions(ticker: string, limit: nat, fetch: Query -> Fetch, lg: real -> real, localeTime: int -> string): seq<Comment>
  {
    Take(Flatten(Batches(ticker, limit, fetch, lg, localeTime)), limit)
  }

  /**
   `scrapeStockMentions`: queries the subreddits one after another, appends
   each batch, and truncates. It has no failure outcome: a failing subreddit
   contributes an empty batch.
   */
  method ScrapeStockMentions(ticker: string, limit: nat, fetch: Query -> Fetch, lg: real -> real, localeTime: int -> string)
    returns (comments: seq<Comment>)
    ensures comments == Mentions(ticker, limit, fetch, lg, localeTime)
    ensures |comments| <= limit
    ensures forall i :: 0 <= i < |comments| ==> comments[i].source == Reddit
  {
    var bs := Batches(ticker, limit, fetch, lg, localeTime);
    var collected: seq<Comment> := [];
    var k := 0;
    while k < |Subreddits|
      invariant 0 <= k <= |Subreddits|
      invariant collected == Flatten(bs[..k])
      invariant forall i :: 0 <= i < |collected| ==> collected[i].source == Reddit
    {
      var batch := SubredditBatch(fetch, QueryFor(k, ticker, limit), lg, localeTime);
      assert bs[..k + 1][..k] == bs[..k];
      collected := collected + batch;
      k := k + 1;
    }
    assert bs[..|Subreddits|] == bs;
    comments := Take(collected, limit);
  }

  lemma {:induction false} FlattenInRange(bs: seq<seq<Comment>>)
    requires forall k :: 0 <= k < |bs| ==> ImpactsInRange(bs[k])
    ensures ImpactsInRange(Flatten(bs))
  {
    if |bs| > 0 {
      FlattenInRange(bs[..|bs| - 1]);
    }
  }

  /** With a logarithm that behaves like `Math.log10`, every impact lies in [0, 10]. */
  lemma MentionsInRange(ticker: string, limit: nat, fetch: Query -> Fetch, lg: real -> real, localeTime: int -> string)
    requires LogLike(lg)
    ensures ImpactsInRange(Mentions(ticker, limit, fetch, lg, localeTime))
  {
    FlattenInRange(Batches(ticker, limit, fetch, lg, localeTime));
  }

  /**
   Failure isolation: when the search of subreddit `k` fails and the other
   searches answer as before, the result is the one obtained with an empty
   batch in position `k` and every other batch unchanged.
   */
  lemma FailureIsolated(ticker: string, limit: nat, before: Query -> Fetch, after: Query -> Fetch,
                        lg: real -> real, localeTime: int -> string, k: nat)
    requires k < |Subreddits|
    requires after(QueryFor(k, ticker, limit)).FetchFailed?
    requires forall j :: 0 <= j < |Subreddits| && j != k ==> after(QueryFor(j, ticker, limit)) == before(QueryFor(j, ticker, limit))
    ensures Mentions(ticker, limit, after, lg, localeTime)
         == Take(Flatten(Batches(ticker, limit, before, lg, localeTime)[k := []]), limit)
  {
    var a := Batches(ticker, limit, after, lg, localeTime);
    var b := Batches(ticker, limit, before, lg, localeTime)[k := []];
    forall j | 0 <= j < |Subreddits|
      ensures a[j] == b[j]
    {
      if j != k {
        assert after(QueryFor(j, ticker, limit)) == before(QueryFor(j, ticker, limit));
      }
    }
    assert a == b;
  }
}
