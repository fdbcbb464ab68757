/**
 The whole `analyzeTicker` call with its three adapters: Reddit and
 StockTwits asked for twenty comments each, Twitter answering with nothing,
 and the aggregator ranking, scoring and summarising what came back.
 */
module Pipeline {
  import opened Basics
  import opened Types
  import Text
  import Reddit
  import StockTwits
  import Twitter
  import Synthetic
  import Aggregator

  /** Everything the outside world contributes to one analysis. */
  datatype World = World(
    redditFetch: Reddit.Query -> Reddit.Fetch,
    stockTwitsReply: StockTwits.Reply,
    now: int,
    mockDraws: seq<Synthetic.Draw>,
    lg: real -> real,
    localeTime: int -> string,
    hasClient: bool,
    ai: Aggregator.AiReply,
    draws: Aggregator.Draws)

  predicate ValidWorld(w: World)
  {
    && Synthetic.ValidDraws(w.mockDraws)
    && |w.mockDraws| >= Min(Aggregator.SourceLimit, 15)
    && Aggregator.ValidDraws(w.draws)
  }

  /** `analyzeTicker(ticker)` end to end. At most twenty comments come from each
      live source and none from Twitter, so the volume is at most forty. */
  function Analyze(ticker: string, w: World): (r: AnalysisResult)
    requires ValidWorld(w)
    ensures r.volume <= 2 * Aggregator.SourceLimit
    ensures |r.comments| == Min(r.volume, Aggregator.ShownLimit)
    ensures r.ticker == Text.ToUpper(ticker)
  {
    var reddit := Reddit.Mentions(ticker, Aggregator.SourceLimit, w.redditFetch, w.lg, w.localeTime);
    var twitter := Twitter.ScrapeStockMentions(ticker, Aggregator.SourceLimit);
    var stockTwits := StockTwits.ScrapeStockMentions(ticker, Aggregator.SourceLimit, w.stockTwitsReply,
                                                     w.now, w.mockDraws, w.lg, w.localeTime);
    Aggregator.AnalyzeTicker(ticker, reddit, twitter, stockTwits, w.hasClient, w.ai, w.draws)
  }

  /**
   With a logarithm that behaves like `Math.log10` and non-negative engagement
   counts, every impact lies in [0, 10], so the overall score lies in [25, 75],
   the momentum is never BEARISH below 25 nor BULLISH above 75, and the put/call
   ratio is exactly `(150 - score) / 100`.
   */
  lemma AnalyzeInRange(ticker: string, w: World)
    requires ValidWorld(w)
    requires LogLike(w.lg)
    requires w.stockTwitsReply.Messages? ==> StockTwits.CountsNonNegative(w.stockTwitsReply.messages)
    ensures var r := Analyze(ticker, w);
      && 25 <= r.overallScore <= 75
      && r.deepStats.putCallRatio == (150 - r.overallScore) as real / 100.0
      && 0 <= r.deepStats.institutionalSentiment <= 95
  {
    var reddit := Reddit.Mentions(ticker, Aggregator.SourceLimit, w.redditFetch, w.lg, w.localeTime);
    var twitter := Twitter.ScrapeStockMentions(ticker, Aggregator.SourceLimit);
    var stockTwits := StockTwits.ScrapeStockMentions(ticker, Aggregator.SourceLimit, w.stockTwitsReply,
                                                     w.now, w.mockDraws, w.lg, w.localeTime);
    Reddit.MentionsInRange(ticker, Aggregator.SourceLimit, w.redditFetch, w.lg, w.localeTime);
    StockTwits.ScrapeInRange(ticker, Aggregator.SourceLimit, w.stockTwitsReply, w.now, w.mockDraws, w.lg, w.localeTime);
    Aggregator.AnalysisInRange(ticker, reddit, twitter, stockTwits, w.hasClient, w.ai, w.draws);
  }
}
