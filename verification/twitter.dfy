/**
 The Twitter adapter (server/src/services/twitterScraper.ts). Without API
 credentials it returns no comments at all, so that synthetic posts do not
 bias the score; its template generator and label formatter are kept but
 unused.
 */
module Twitter {
  import opened Basics
  import opened Types
  import opened Text
  import RelativeTime
  import Synthetic

  /** `scrapeStockMentions`: the empty list, for every ticker and limit. */
  function ScrapeStockMentions(ticker: string, limit: int): (r: seq<Comment>)
    ensures |r| == 0
  {
    []
  }

  /** `formatTimestamp(minutesAgo)`: minutes under an hour, whole hours otherwise;
      there is no day or clock-time band. */
  function FormatTimestamp(minutesAgo: int): (r: string)
    ensures minutesAgo < 60 ==> RelativeTime.ParseAgo(r) == RelativeTime.MinutesAgo(minutesAgo)
    ensures minutesAgo >= 60 ==> RelativeTime.ParseAgo(r) == RelativeTime.HoursAgo(minutesAgo / 60)
  {
    if minutesAgo < 60 then
      RelativeTime.ParseLabel(minutesAgo, "m ago");
      IntToString(minutesAgo) + "m ago"
    else
      RelativeTime.ParseLabel(minutesAgo / 60, "h ago");
      IntToString(minutesAgo / 60) + "h ago"
  }

  /** Under a day, the Twitter labels coincide with the Reddit and StockTwits ones. */
  lemma FormatAgreesUnderADay(minutesAgo: int, clockText: string)
    requires minutesAgo < RelativeTime.MinutesPerDay
    ensures FormatTimestamp(minutesAgo) == RelativeTime.FormatAgo(minutesAgo, clockText)
  {
  }

  /** Template text `k`, naming the ticker as `$TICKER`. */
  function TemplateText(ticker: string, k: nat): string
    requires k < 10
  {
    var t := "$" + ticker;
    if k == 0 then t + " showing strong momentum into the close. Volume picking up significantly."
    else if k == 1 then "Breaking: Major institutional buyer spotted on " + t + ". This could be huge."
    else if k == 2 then t + " rejecting at resistance. Looking weak here, might see a pullback."
    else if k == 3 then "Interesting price action on " + t + ". Watching closely for breakout confirmation."
    else if k == 4 then t + " earnings report exceeded expectations. Upgrading position."
    else if k == 5 then "Technical breakdown on " + t + ". Stop loss hit, exiting position."
    else if k == 6 then t + " forming cup and handle pattern. Could see breakout next week."
    else if k == 7 then "Sold my " + t + " calls for 40% profit. Taking chips off the table."
    else if k == 8 then t + " volume drying up. Looks like consolidation phase incoming."
    else "Big red candle on " + t + ". Someone knows something..."
  }

  const TemplateSentiments: seq<Sentiment> := [Bullish, Bullish, Bearish, Neutral, Bullish, Bearish, Bullish, Neutral, Neutral, Bearish]

  const TemplateImpacts: seq<real> := [7.5, 9.2, 6.8, 5.5, 8.9, 7.2, 6.5, 6.0, 4.8, 7.8]

  function Templates(ticker: string): (ts: seq<Synthetic.Template>)
    ensures |ts| == 10
    ensures forall k :: 0 <= k < 10 ==> 4.8 <= ts[k].impact <= 9.2
    ensures forall k :: 0 <= k < 10 ==> ts[k].sentiment == TemplateSentiments[k]
  {
    seq(10, k requires 0 <= k < 10 => Synthetic.Template(TemplateText(ticker, k), TemplateSentiments[k], TemplateImpacts[k]))
  }

  const Usernames: seq<string> :=
    ["TradingGuru", "AlphaSeeker", "MarketMaven", "ChartWizard", "OptionKing",
     "DayTrader_Pro", "BullRun2025", "ValueInvestor", "TechStocks", "SwingTrade_Mike"]

  /** At most 20 items, recency 5 to 484 minutes, impact jitter of at most 0.75 either way. */
  function MockRecipe(ticker: string): (rc: Synthetic.Recipe)
    ensures Synthetic.WellFormed(rc)
  {
    Synthetic.Recipe("twitter", Twitter, 20, 480, 1.5, Templates(ticker), Usernames)
  }

  /** `generateMockTwitterData`. */
  function MockData(ticker: string, limit: int, now: int, draws: seq<Synthetic.Draw>): (r: seq<Comment>)
    requires Synthetic.ValidDraws(draws) && |draws| >= Synthetic.BatchSize(limit, 20)
    ensures |r| == Synthetic.BatchSize(limit, 20)
    ensures forall i :: 0 <= i < |r| ==>
      r[i].user == Usernames[i % 10] && r[i].text == TemplateText(ticker, i % 10)
    ensures forall i :: 0 <= i < |r| ==> r[i].sentiment == TemplateSentiments[i % 10]
    ensures forall i :: 0 <= i < |r| ==>
      r[i].timestamp == FormatTimestamp(Synthetic.MinutesAgo(draws[i].recency, 480))
    ensures forall i :: 0 <= i < |r| ==>
      TemplateImpacts[i % 10] - 0.75 <= r[i].impactScore <= TemplateImpacts[i % 10] + 0.75
    ensures ImpactsInRange(r)
    ensures forall i :: 0 <= i < |r| ==> r[i].source == Twitter
    ensures forall i, j :: 0 <= i < j < |r| ==> r[i].id != r[j].id
  {
    var rc := MockRecipe(ticker);
    assert rc.span == 480 && rc.templates == Templates(ticker);
    var r := Synthetic.MockBatch(rc, limit, now, draws, FormatTimestamp);
    r
  }
}
