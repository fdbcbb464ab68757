/**
 The StockTwits adapter (server/src/services/stockTwitsScraper.ts): one
 stream request per ticker, the provider's own sentiment tag, an engagement
 based impact, and a synthetic batch whenever the request does not succeed.
 The HTTP exchange is an input (`Reply`); `now` is the clock reading in
 milliseconds; `draws` are the `Math.random()` values a fallback batch uses.
 */
module StockTwits {
  import opened Basics
  import opened Text
  import opened Types
  import RelativeTime
  import Synthetic

  /** The fields of one stream message that the adapter reads; absent fields are `None`.
      `createdAt` is the parsed `created_at` in milliseconds, `None` when it does not parse. */
  datatype Message = Message(
    id: Option<int>,
    username: Option<string>,
    body: Option<string>,
    sentimentTag: Option<string>,
    createdAt: Option<int>,
    followers: Option<int>,
    likes: Option<int>)

  /** How the stream request ended. */
  datatype Reply = NotOk(status: int) | Threw | Messages(messages: seq<Message>)

  /** `mapSentiment`: the provider tag, compared case-insensitively; Neutral when absent or unknown. */
  function MapSentiment(tag: Option<string>): (r: Sentiment)
    ensures r == Bullish <==> tag.Some? && ToLower(tag.value) == "bullish"
    ensures r == Bearish <==> tag.Some? && ToLower(tag.value) == "bearish"
  {
    if tag.None? || tag.value == "" then Neutral
    else
      var s := ToLower(tag.value);
      if s == "bullish" then Bullish
      else if s == "bearish" then Bearish
      else Neutral
  }

  /** An ASCII tag is read without regard to letter case. */
  lemma MapSentimentIgnoresCase(tag: string)
    requires IsAscii(tag)
    ensures MapSentiment(Some(ToUpper(tag))) == MapSentiment(Some(tag))
  {
    ToLowerOfToUpper(tag);
  }

  /** `min((log10(followers + 1) * 2 + log10(likes + 1) * 3) / 2, 10)`, `lg` standing for `Math.log10`. */
  function ImpactScore(lg: real -> real, followers: int, likes: int): (r: real)
    ensures r <= 10.0
    ensures LogLike(lg) && followers >= 0 && likes >= 0 ==> 0.0 <= r
  {
    var followerScore := lg(followers as real + 1.0) * 2.0;
    var likeScore := lg(likes as real + 1.0) * 3.0;
    assert LogLike(lg) && followers >= 0 && likes >= 0 ==> 0.0 <= followerScore + likeScore by {
      if LogLike(lg) && followers >= 0 && likes >= 0 {
        LogNonNegative(lg, followers as real + 1.0);
        LogNonNegative(lg, likes as real + 1.0);
      }
    }
    MinReal((followerScore + likeScore) / 2.0, 10.0)
  }

  /**
   `formatTimestamp(created_at)`. A date that does not parse becomes an Invalid
   Date, which fails both comparisons and prints as "Invalid Date". A parsed
   date reads back as the whole minutes elapsed under an hour and the whole
   hours under a day; older ones show their clock text.
   */
  function FormatTimestamp(createdAt: Option<int>, nowMs: int, localeTime: int -> string): (r: string)
    ensures createdAt.None? ==> r == "Invalid Date"
    ensures createdAt.Some? ==> var d := nowMs - createdAt.value;
      && (d < 3600000 ==> RelativeTime.ParseAgo(r) == RelativeTime.MinutesAgo(d / 60000))
      && (3600000 <= d < 86400000 ==> RelativeTime.ParseAgo(r) == RelativeTime.HoursAgo(d / 3600000))
      && (86400000 <= d ==> r == localeTime(createdAt.value))
  {
    match createdAt
    case None => "Invalid Date"
    case Some(t) => RelativeTime.Label(nowMs, t, localeTime(t))
  }

  /** `x || fallback` on a string field: a present, non-empty string is kept;
      anything falsy takes the fallback. */
  function OrDefault(s: Option<string>, fallback: string): (r: string)
    ensures r == fallback || (s.Some? && r == s.value && r != "")
    ensures s.Some? && s.value != "" ==> r == s.value
    ensures fallback != "" ==> r != ""
  {
    if s.Some? && s.value != "" then s.value else fallback
  }

  /** `x || 0` on a numeric field: a present count is kept, an absent one reads 0. */
  function CountOrZero(n: Option<int>): (r: int)
    ensures n.Some? ==> r == n.value
    ensures n.None? ==> r == 0
  {
    n.GetOr(0)
  }

  /** One stream message mapped to a comment; `index` is its position in the stream. */
  function ToComment(m: Message, index: nat, now: int, lg: real -> real, localeTime: int -> string): (c: Comment)
    ensures c.source == StockTwits
    ensures c.id == ItemId("stocktwits", if m.id.Some? && m.id.value != 0 then m.id.value else now, index)
    ensures c.user == OrDefault(m.username, "Anonymous")
    ensures m.username.None? || m.username == Some("") ==> c.user == "Anonymous"
    ensures c.text == OrDefault(m.body, "")
    ensures c.sentiment == MapSentiment(m.sentimentTag)
    ensures c.timestamp == FormatTimestamp(m.createdAt, now, localeTime)
    ensures c.impactScore == ImpactScore(lg, CountOrZero(m.followers), CountOrZero(m.likes))
    ensures c.impactScore <= 10.0
  {
    var id := if m.id.Some? && m.id.value != 0 then m.id.value else now;
    Comment(
      ItemId("stocktwits", id, index),
      StockTwits,
      OrDefault(m.username, "Anonymous"),
      OrDefault(m.body, ""),
      MapSentiment(m.sentimentTag),
      FormatTimestamp(m.createdAt, now, localeTime),
      ImpactScore(lg, CountOrZero(m.followers), CountOrZero(m.likes)))
  }

  /** Follower and like counts, where present, are not negative. */
  predicate CountsNonNegative(ms: seq<Message>)
  {
    forall i :: 0 <= i < |ms| ==> CountOrZero(ms[i].followers) >= 0 && CountOrZero(ms[i].likes) >= 0
  }

  /** Template text `k`, naming the ticker as `$TICKER`. */
  function TemplateText(ticker: string, k: nat): string
    requires k < 10
  {
    var t := "$" + ticker;
    if k == 0 then t + " Looking at a clean breakout setup here. Buy zone active."
    else if k == 1 then "Watching " + t + " closely. Volume profile suggests accumulation phase."
    else if k == 2 then t + " broke major support. Risk-off until we see stabilization."
    else if k == 3 then "Added to my " + t + " position on this dip. Great risk/reward here."
    else if k == 4 then t + " showing bearish divergence on RSI. Caution warranted."
    else if k == 5 then "Strong institutional buying on " + t + ". Follow the smart money."
    else if k == 6 then t + " consolidating nicely. Expecting move soon."
    else if k == 7 then "Just took profits on " + t + ". Nice 25% gain in 2 weeks."
    else if k == 8 then t + " earnings next week. Sitting this one out, too risky."
    else "Heavy selling pressure on " + t + ". Might test lower levels."
  }

  const TemplateSentiments: seq<Sentiment> := [Bullish, Neutral, Bearish, Bullish, Bearish, Bullish, Neutral, Bullish, Neutral, Bearish]

  const TemplateImpacts: seq<real> := [7.2, 6.0, 8.1, 6.8, 7.5, 8.9, 5.5, 7.0, 4.5, 6.9]

  function Templates(ticker: string): (ts: seq<Synthetic.Template>)
    ensures |ts| == 10
    ensures forall k :: 0 <= k < 10 ==> 4.5 <= ts[k].impact <= 8.9
    ensures forall k :: 0 <= k < 10 ==> ts[k].sentiment == TemplateSentiments[k]
  {
    seq(10, k requires 0 <= k < 10 => Synthetic.Template(TemplateText(ticker, k), TemplateSentiments[k], TemplateImpacts[k]))
  }

  const Usernames: seq<string> :=
    ["ChartMaster", "SwingKing", "TechnicalTrader", "MomentumPlay", "OptionsFlow",
     "DayTrade_Boss", "PatternScout", "BreakoutAlert", "TrendFollower", "RiskManager"]

  /** At most 15 items, recency 5 to 364 minutes, impact jitter of at most 0.5 either way. */
  function MockRecipe(ticker: string): (rc: Synthetic.Recipe)
    ensures Synthetic.WellFormed(rc)
  {
    Synthetic.Recipe("stocktwits", StockTwits, 15, 360, 1.0, Templates(ticker), Usernames)
  }

  /** The label of a fallback item: its creation time is `now - minutesAgo * 60000`,
      rendered as an ISO string and formatted against the same clock. */
  function MockStamp(now: int, localeTime: int -> string): int -> string
  {
    m => FormatTimestamp(Some(now - m * MsPerMinute), now, localeTime)
  }

  /** The fallback labels are exact: a recency under a day is shown as its own minutes or hours. */
  lemma MockStampReads(now: int, localeTime: int -> string, m: int)
    requires 0 <= m < RelativeTime.MinutesPerDay
    ensures RelativeTime.ParseAgo(MockStamp(now, localeTime)(m))
         == if m < 60 then RelativeTime.MinutesAgo(m) else RelativeTime.HoursAgo(m / 60)
  {
    assert RelativeTime.DiffMinutes(now, now - m * MsPerMinute) == m;
  }

  /** `generateMockStockTwitsData`. */
  function MockData(ticker: string, limit: int, now: int, draws: seq<Synthetic.Draw>, localeTime: int -> string): (r: seq<Comment>)
    requires Synthetic.ValidDraws(draws) && |draws| >= Synthetic.BatchSize(limit, 15)
    ensures |r| == Synthetic.BatchSize(limit, 15)
    ensures forall i :: 0 <= i < |r| ==>
      r[i].user == Usernames[i % 10] && r[i].text == TemplateText(ticker, i % 10)
    ensures forall i :: 0 <= i < |r| ==> r[i].sentiment == TemplateSentiments[i % 10]
    ensures forall i :: 0 <= i < |r| ==>
      r[i].timestamp == MockStamp(now, localeTime)(Synthetic.MinutesAgo(draws[i].recency, 360))
    ensures forall i :: 0 <= i < |r| ==>
      TemplateImpacts[i % 10] - 0.5 <= r[i].impactScore <= TemplateImpacts[i % 10] + 0.5
    ensures ImpactsInRange(r)
    ensures forall i :: 0 <= i < |r| ==> r[i].source == StockTwits
    ensures forall i, j :: 0 <= i < j < |r| ==> r[i].id != r[j].id
  {
    var rc := MockRecipe(ticker);
    assert rc.span == 360 && rc.templates == Templates(ticker);
    var r := Synthetic.MockBatch(rc, limit, now, draws, MockStamp(now, localeTime));
    r
  }

  /**
   `scrapeStockMentions`: the mapped messages truncated to `limit` when the
   request succeeds; the synthetic batch of `min(limit, 15)` items when the
   status is not OK or anything throws. It never fails.
   */
  function ScrapeStockMentions(ticker: string, limit: nat, reply: Reply, now: int,
                               draws: seq<Synthetic.Draw>, lg: real -> real, localeTime: int -> string): (r: seq<Comment>)
    requires Synthetic.ValidDraws(draws) && |draws| >= Min(limit, 15)
    ensures |r| <= limit
    ensures forall i :: 0 <= i < |r| ==> r[i].source == StockTwits
    ensures !reply.Messages? ==> r == MockData(ticker, limit, now, draws, localeTime) && |r| == Min(limit, 15)
    ensures reply.Messages? ==> |r| == Min(limit, |reply.messages|)
    ensures reply.Messages? ==> forall i :: 0 <= i < |r| ==>
      r[i] == ToComment(reply.messages[i], i, now, lg, localeTime)
    ensures reply.Messages? ==> forall i :: 0 <= i < |r| ==>
      (reply.messages[i].username.None? || reply.messages[i].username == Some("") ==> r[i].user == "Anonymous")
  {
    match reply
    case Messages(ms) =>
      var mapped := seq(|ms|, i requires 0 <= i < |ms| => ToComment(ms[i], i, now, lg, localeTime));
      Take(mapped, limit)
    case _ =>
      MockData(ticker, limit, now, draws, localeTime)
  }

  /**
   Every impact lies in [0, 10] on both paths, given a logarithm that behaves
   like `Math.log10` and non-negative engagement counts.
   */
  lemma ScrapeInRange(ticker: string, limit: nat, reply: Reply, now: int,
                      draws: seq<Synthetic.Draw>, lg: real -> real, localeTime: int -> string)
    requires Synthetic.ValidDraws(draws) && |draws| >= Min(limit, 15)
    requires LogLike(lg)
    requires reply.Messages? ==> CountsNonNegative(reply.messages)
    ensures ImpactsInRange(ScrapeStockMentions(ticker, limit, reply, now, draws, lg, localeTime))
  {
    var r := ScrapeStockMentions(ticker, limit, reply, now, draws, lg, localeTime);
    if reply.Messages? {
      var ms := reply.messages;
      forall i | 0 <= i < |r|
        ensures 0.0 <= r[i].impactScore <= 10.0
      {
        assert r[i] == ToComment(ms[i], i, now, lg, localeTime);
      }
    }
  }
}
