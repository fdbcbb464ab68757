/**
 The normalised records the backend passes around (server/src/types/scraperTypes.ts):
 one social comment per post, the secondary statistics, the trend series and
 the analysis result that is returned to clients and cached, plus the
 `${prefix}-${now}-${i}` id scheme all adapters give their comments.
 */
module Types {
  import opened Text

  datatype Sentiment = Bullish | Bearish | Neutral

  datatype Source = Reddit | Twitter | StockTwits | Institutional

  /** One normalised post. `impactScore` is the ranking and weighting key. */
  datatype Comment = Comment(
    id: string,
    source: Source,
    user: string,
    text: string,
    sentiment: Sentiment,
    timestamp: string,
    impactScore: real)

  datatype Volatility = LOW | MEDIUM | HIGH

  datatype Momentum = BULLISH | BEARISH | NEUTRAL

  datatype DeepStats = DeepStats(
    volatility: Volatility,
    momentum: Momentum,
    supportLevel: string,
    resistanceLevel: string,
    retailSentiment: int,
    institutionalSentiment: int,
    putCallRatio: real)

  datatype TrendPoint = TrendPoint(date: string, score: int)

  datatype AnalysisResult = AnalysisResult(
    ticker: string,
    overallScore: int,
    summary: string,
    volume: nat,
    trend: seq<TrendPoint>,
    comments: seq<Comment>,
    deepStats: DeepStats,
    lastUpdated: string)

  /** Every comment of `cs` carries an impact score in the documented range [0, 10]. */
  ghost predicate ImpactsInRange(cs: seq<Comment>)
  {
    forall i :: 0 <= i < |cs| ==> 0.0 <= cs[i].impactScore <= 10.0
  }

  /** `${prefix}-${now}-${i}`: the id scheme every adapter uses for item `i` of one batch. */
  function ItemId(prefix: string, now: int, i: nat): string
  {
    prefix + "-" + IntToString(now) + "-" + NatToString(i)
  }

  /** Two items of one batch never share an id. */
  lemma ItemIdsDistinct(prefix: string, now: int, i: nat, j: nat)
    requires i != j
    ensures ItemId(prefix, now, i) != ItemId(prefix, now, j)
  {
    var p := prefix + "-" + IntToString(now) + "-";
    assert ItemId(prefix, now, i) == p + NatToString(i);
    assert ItemId(prefix, now, j) == p + NatToString(j);
    NatToStringInjective(i, j);
    if p + NatToString(i) == p + NatToString(j) {
      AppendCancel(p, NatToString(i), NatToString(j));
    }
  }

  /** The same, for every pair of positions at once. */
  lemma AllItemIdsDistinct(prefix: string, now: int)
    ensures forall i: nat, j: nat :: i != j ==> ItemId(prefix, now, i) != ItemId(prefix, now, j)
  {
    forall i: nat, j: nat | i != j
      ensures ItemId(prefix, now, i) != ItemId(prefix, now, j)
    {
      ItemIdsDistinct(prefix, now, i, j);
    }
  }
}
