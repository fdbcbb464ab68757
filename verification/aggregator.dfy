/**
 The sentiment aggregator (server/src/services/sentimentAggregator.ts): the
 three adapters' comments concatenated in a fixed order, ranked by impact
 and cut to thirty, an impact-weighted overall score, the secondary
 statistics, a trend series and a summary that is either the language
 model's text or a fixed template chosen by score band.

 The adapters' answers, the language model's reply, the clock text and every
 `Math.random()`/`Math.sin` value are inputs.
 */
module Aggregator {
  import opened Basics
  import opened Text
  import opened Types
  import Ranking

  /** Each adapter is asked for at most twenty comments. */
  const SourceLimit: nat := 20

  /** Only the thirty highest-impact comments are shown and scored. */
  const ShownLimit: nat := 30

  // ---------------------------------------------------------------------
  // Overall score

  /** A comment's vote: 75 for Bullish, 25 for Bearish, 50 otherwise. */
  function SentimentValue(s: Sentiment): int
  {
    match s
    case Bullish => 75
    case Bearish => 25
    case Neutral => 50
  }

  /** The `score` accumulator: sum of vote times impact. */
  function WeightedSum(cs: seq<Comment>): real
  {
    if |cs| == 0 then 0.0
    else WeightedSum(cs[..|cs| - 1]) + SentimentValue(cs[|cs| - 1].sentiment) as real * cs[|cs| - 1].impactScore
  }

  /** The `totalWeight` accumulator: sum of impacts. */
  function TotalWeight(cs: seq<Comment>): real
  {
    if |cs| == 0 then 0.0 else TotalWeight(cs[..|cs| - 1]) + cs[|cs| - 1].impactScore
  }

  ghost predicate NonNegativeWeights(cs: seq<Comment>)
  {
    forall i :: 0 <= i < |cs| ==> 0.0 <= cs[i].impactScore
  }

  /** One comment's term lies between a quarter-weight and a three-quarter-weight vote. */
  lemma TermBounds(c: Comment)
    requires 0.0 <= c.impactScore
    ensures 25.0 * c.impactScore <= SentimentValue(c.sentiment) as real * c.impactScore <= 75.0 * c.impactScore
  {
    match c.sentiment
    case Bullish =>
    case Bearish =>
    case Neutral =>
  }

  /** With non-negative weights every vote lies in [25, 75], so the weighted sum
      lies between 25 and 75 times the total weight. */
  lemma {:induction false} WeightedSumBounds(cs: seq<Comment>)
    requires NonNegativeWeights(cs)
    ensures 0.0 <= TotalWeight(cs)
    ensures 25.0 * TotalWeight(cs) <= WeightedSum(cs) <= 75.0 * TotalWeight(cs)
  {
    if |cs| > 0 {
      WeightedSumBounds(cs[..|cs| - 1]);
      TermBounds(cs[|cs| - 1]);
    }
  }

  /** When every comment carries the same sentiment, the weighted sum is that
      sentiment's vote times the total weight. */
  lemma {:induction false} UniformSum(cs: seq<Comment>, s: Sentiment)
    requires forall i :: 0 <= i < |cs| ==> cs[i].sentiment == s
    ensures WeightedSum(cs) == SentimentValue(s) as real * TotalWeight(cs)
  {
    if |cs| > 0 {
      UniformSum(cs[..|cs| - 1], s);
    }
  }

  /** Dividing by a positive number keeps bounds that hold after multiplying back. */
  lemma QuotientBounds(x: real, w: real, lo: real, hi: real)
    requires 0.0 < w
    requires lo * w <= x <= hi * w
    ensures lo <= x / w <= hi
  {
    var q := x / w;
    assert q * w == x;
  }

  /** A quotient by a positive number exceeds `c` exactly when the dividend exceeds `c` times it. */
  lemma QuotientAbove(x: real, w: real, c: real)
    requires 0.0 < w
    ensures x / w > c <==> x > c * w
  {
    var q := x / w;
    assert q * w == x;
    if q > c {
      assert (q - c) * w > 0.0;
    } else {
      assert (c - q) * w >= 0.0;
    }
  }

  /**
   `calculateOverallScore`: 50 for an empty list or a total weight that is not
   positive; otherwise the weighted mean of the votes, rounded. With
   non-negative weights the score never leaves [25, 75].
   */
  function OverallScore(cs: seq<Comment>): (score: int)
    ensures |cs| == 0 || TotalWeight(cs) <= 0.0 ==> score == 50
    ensures NonNegativeWeights(cs) ==> 25 <= score <= 75
  {
    if |cs| == 0 then 50
    else
      var w := TotalWeight(cs);
      if w > 0.0 then
        var q := WeightedSum(cs) / w;
        assert NonNegativeWeights(cs) ==> 25.0 <= q <= 75.0 by {
          if NonNegativeWeights(cs) {
            WeightedSumBounds(cs);
            QuotientBounds(WeightedSum(cs), w, 25.0, 75.0);
          }
        }
        RoundMonotone(25.0, MaxReal(q, 25.0));
        RoundMonotone(MinReal(q, 75.0), 75.0);
        Round(q)
      else 50
  }

  /** A positive-weight list of only Bullish comments scores 75, of only Bearish ones 25,
      of only Neutral ones 50. */
  lemma UnanimousScore(cs: seq<Comment>, s: Sentiment)
    requires forall i :: 0 <= i < |cs| ==> cs[i].sentiment == s
    requires TotalWeight(cs) > 0.0
    ensures OverallScore(cs) == SentimentValue(s)
  {
    UniformSum(cs, s);
    assert WeightedSum(cs) / TotalWeight(cs) == SentimentValue(s) as real;
    RoundIntegral(SentimentValue(s));
  }

  /**
   The `forEach` of `calculateOverallScore`: one pass from first to last
   comment accumulating both sums, then the same decision.
   */
  method AccumulateOverallScore(cs: seq<Comment>) returns (score: int)
    ensures score == OverallScore(cs)
  {
    if |cs| == 0 {
      return 50;
    }
    var sum := 0.0;
    var totalWeight := 0.0;
    var i := 0;
    while i < |cs|
      invariant 0 <= i <= |cs|
      invariant sum == WeightedSum(cs[..i])
      invariant totalWeight == TotalWeight(cs[..i])
    {
      assert cs[..i + 1][..i] == cs[..i];
      sum := sum + SentimentValue(cs[i].sentiment) as real * cs[i].impactScore;
      totalWeight := totalWeight + cs[i].impactScore;
      i := i + 1;
    }
    assert cs[..|cs|] == cs;
    score := if totalWeight > 0.0 then Round(sum / totalWeight) else 50;
  }

  // ---------------------------------------------------------------------
  // Counting and deep statistics

  /** `comments.filter(c => c.sentiment === s).length`. */
  function Count(cs: seq<Comment>, s: Sentiment): (n: nat)
    ensures n <= |cs|
    ensures n == 0 <==> forall i :: 0 <= i < |cs| ==> cs[i].sentiment != s
    ensures n == |cs| <==> forall i :: 0 <= i < |cs| ==> cs[i].sentiment == s
  {
    if |cs| == 0 then 0
    else Count(cs[..|cs| - 1], s) + (if cs[|cs| - 1].sentiment == s then 1 else 0)
  }

  /** Every comment is counted under exactly one sentiment. */
  lemma {:induction false} CountsAddUp(cs: seq<Comment>)
    ensures Count(cs, Bullish) + Count(cs, Bearish) + Count(cs, Neutral) == |cs|
  {
    if |cs| > 0 {
      CountsAddUp(cs[..|cs| - 1]);
    }
  }

  /** `comments.length || 1`: the list length, or 1 for an empty list. */
  function Denominator(n: nat): (d: nat)
    ensures d >= 1 && (n > 0 ==> d == n)
  {
    if n == 0 then 1 else n
  }

  /** When `p` is the nearest integer to `x` and `x * t == n`, the bracket
      `(2p - 1) * t <= 2n < (2p + 1) * t` holds in integers. */
  lemma NearestBracket(x: real, p: int, t: nat, n: int)
    requires p as real - 0.5 <= x < p as real + 0.5
    requires t > 0 ==> x * t as real == n as real
    ensures t > 0 ==> (2 * p - 1) * t <= 2 * n < (2 * p + 1) * t
  {
    if t > 0 {
      var tr := t as real;
      var lo := 2.0 * x - (2 * p - 1) as real;
      var hi := (2 * p + 1) as real - 2.0 * x;
      assert lo >= 0.0 && hi > 0.0;
      ProductSigns(lo, hi, tr);
      assert lo * tr == 2.0 * n as real - ((2 * p - 1) * t) as real;
      assert hi * tr == ((2 * p + 1) * t) as real - 2.0 * n as real;
    }
  }

  lemma ProductSigns(a: real, b: real, t: real)
    requires a >= 0.0 && b > 0.0 && t > 0.0
    ensures a * t >= 0.0 && b * t > 0.0
  {
  }

  /** `Math.round((count / total) * 100)`: a share of the list, in percent. */
  function Percent(count: nat, total: nat): (p: int)
    requires count <= total
    ensures 0 <= p <= 100
    ensures count == 0 ==> p == 0
    ensures total > 0 && count == total ==> p == 100
    ensures total > 0 ==> (2 * p - 1) * total <= 200 * count < (2 * p + 1) * total
  {
    var d := Denominator(total);
    QuotientBounds(count as real, d as real, 0.0, 1.0);
    var x := count as real / d as real * 100.0;
    assert total > 0 && count == total ==> x == 100.0;
    assert total > 0 ==> x * total as real == 100.0 * count as real;
    NearestBracket(x, Round(x), total, 100 * count);
    RoundMonotone(0.0, x);
    RoundMonotone(x, 100.0);
    RoundIntegral(0);
    RoundIntegral(100);
    Round(x)
  }

  /**
   The volatility bands on `|bullish - bearish| / total` with thresholds 0.6
   and 0.3, restated in whole numbers: HIGH when five times the gap exceeds
   three times the total, MEDIUM when ten times the gap does, LOW otherwise.
   */
  function VolatilityFor(bullish: nat, bearish: nat, total: nat): (v: Volatility)
    ensures var gap := Abs(bullish - bearish); var t := Denominator(total);
      && (v == HIGH <==> 5 * gap > 3 * t)
      && (v == MEDIUM <==> 5 * gap <= 3 * t && 10 * gap > 3 * t)
      && (v == LOW <==> 10 * gap <= 3 * t)
  {
    var gap := Abs(bullish - bearish);
    var t := Denominator(total);
    var variance := gap as real / t as real;
    QuotientAbove(gap as real, t as real, 0.6);
    QuotientAbove(gap as real, t as real, 0.3);
    if variance > 0.6 then HIGH else if variance > 0.3 then MEDIUM else LOW
  }

  /** A list with as many bullish as bearish comments is never volatile. */
  lemma BalancedIsCalm(bullish: nat, total: nat)
    ensures VolatilityFor(bullish, bullish, total) == LOW
  {
  }

  /** Momentum follows the score: BULLISH above 60, BEARISH below 40. */
  function MomentumFor(score: int): (m: Momentum)
    ensures m == BULLISH <==> score > 60
    ensures m == BEARISH <==> score < 40
    ensures m == NEUTRAL <==> 40 <= score <= 60
  {
    if score > 60 then BULLISH else if score < 40 then BEARISH else NEUTRAL
  }

  /**
   `Math.max(0.3, Math.min(2.0, Number((1.5 - score / 100).toFixed(2))))`: the
   ratio always lies in [0.3, 2.0], and for a score in [0, 100] it is exactly
   `(150 - score) / 100`, falling as the score rises.
   */
  function PutCallRatio(score: int): (r: real)
    ensures 0.3 <= r <= 2.0
    ensures 0 <= score <= 100 ==> r == (150 - score) as real / 100.0
  {
    var raw := 1.5 - score as real / 100.0;
    assert raw * 100.0 == (150 - score) as real;
    RoundIntegral(150 - score);
    MaxReal(0.3, MinReal(2.0, ToFixed2(raw)))
  }

  /** A higher score never raises the ratio. */
  lemma PutCallRatioAntitone(a: int, b: int)
    requires a <= b
    ensures PutCallRatio(b) <= PutCallRatio(a)
  {
    var ra := 1.5 - a as real / 100.0;
    var rb := 1.5 - b as real / 100.0;
    assert rb * 100.0 <= ra * 100.0;
    RoundMonotone(rb * 100.0, ra * 100.0);
  }

  /** `Math.round(score * 0.85 + u * 10)` with `u` the `Math.random()` draw: for a
      score in [0, 100] the institutional reading lies in [0, 95]. */
  function Institutional(score: int, u: real): (r: int)
    requires 0.0 <= u < 1.0
    ensures 0 <= score <= 100 ==> 0 <= r <= 95
  {
    var x := score as real * 0.85 + u * 10.0;
    assert 0 <= score <= 100 ==> 0.0 <= x < 95.5;
    Round(x)
  }

  /** "$" followed by an amount in cents written with two decimals, as `toFixed(2)` prints it. */
  function Dollars(cents: nat): (s: string)
    ensures |s| >= 5 && s[0] == '$' && s[|s| - 3] == '.'
    ensures ParseNat(s[1..|s| - 3]) == Some(cents / 100)
    ensures IsDigit(s[|s| - 2]) && IsDigit(s[|s| - 1])
    ensures DigitValue(s[|s| - 2]) * 10 + DigitValue(s[|s| - 1]) == cents % 100
  {
    var s := "$" + NatToString(cents / 100) + "." + [DigitChar(cents % 100 / 10), DigitChar(cents % 10)];
    assert s[1..|s| - 3] == NatToString(cents / 100);
    NatToStringRoundTrip(cents / 100);
    s
  }

  /** Reads a `Dollars` string back into cents. */
  function ParseDollars(s: string): Option<nat>
  {
    if |s| >= 5 && s[0] == '$' && s[|s| - 3] == '.' && IsDigit(s[|s| - 2]) && IsDigit(s[|s| - 1]) then
      match ParseNat(s[1..|s| - 3])
      case Some(d) => Some(d * 100 + DigitValue(s[|s| - 2]) * 10 + DigitValue(s[|s| - 1]))
      case None => None
    else None
  }

  /** The printed price carries exactly its cents. */
  lemma DollarsRoundTrip(cents: nat)
    ensures ParseDollars(Dollars(cents)) == Some(cents)
  {
    var s := Dollars(cents);
    assert s[1..|s| - 3] == NatToString(cents / 100);
    NatToStringRoundTrip(cents / 100);
  }

  /** `basePrice = 120 + u * 20`, the mock price both levels are derived from. */
  function BasePrice(u: real): (p: real)
    requires 0.0 <= u < 1.0
    ensures 120.0 <= p < 140.0
  {
    120.0 + u * 20.0
  }

  /** The cents `toFixed(2)` keeps of `basePrice * factor`. */
  function LevelCents(u: real, factor: real): (c: nat)
    requires 0.0 <= u < 1.0 && 0.0 <= factor
    ensures c as real - 0.5 <= BasePrice(u) * factor * 100.0 < c as real + 0.5
  {
    var x := BasePrice(u) * factor * 100.0;
    RoundMonotone(0.0, x);
    Round(x)
  }

  /** Support at 95% of the base price, resistance at 105%: support lies in
      [$114.00, $133.00], resistance in [$126.00, $147.00], and support is lower. */
  lemma LevelsOrdered(u: real)
    requires 0.0 <= u < 1.0
    ensures 11400 <= LevelCents(u, 0.95) <= 13300
    ensures 12600 <= LevelCents(u, 1.05) <= 14700
    ensures LevelCents(u, 0.95) < LevelCents(u, 1.05)
  {
    var p := BasePrice(u);
    RoundMonotone(11400.0, p * 0.95 * 100.0);
    RoundMonotone(p * 0.95 * 100.0, 13300.0);
    RoundMonotone(12600.0, p * 1.05 * 100.0);
    RoundMonotone(p * 1.05 * 100.0, 14700.0);
    RoundIntegral(11400);
    RoundIntegral(13300);
    RoundIntegral(12600);
    RoundIntegral(14700);
  }

  /** The `Math.random()` values one `calculateDeepStats` call draws. */
  datatype StatsDraws = StatsDraws(institutional: real, price: real)

  predicate ValidStatsDraws(d: StatsDraws)
  {
    0.0 <= d.institutional < 1.0 && 0.0 <= d.price < 1.0
  }

  /**
   `calculateDeepStats`: counts over the shown comments with `total =
   max(length, 1)`, the volatility and momentum bands, the retail share, the
   jittered institutional reading, the mock price levels and the clamped
   put/call ratio.
   */
  function DeepStatsFor(cs: seq<Comment>, score: int, d: StatsDraws): (r: DeepStats)
    requires ValidStatsDraws(d)
    ensures r.volatility == VolatilityFor(Count(cs, Bullish), Count(cs, Bearish), |cs|)
    ensures r.momentum == MomentumFor(score)
    ensures r.retailSentiment == Percent(Count(cs, Bullish), |cs|)
    ensures 0 <= r.retailSentiment <= 100
    ensures Count(cs, Bullish) == 0 ==> r.retailSentiment == 0
    ensures r.institutionalSentiment == Institutional(score, d.institutional)
    ensures 0 <= score <= 100 ==> 0 <= r.institutionalSentiment <= 95
    ensures r.putCallRatio == PutCallRatio(score)
    ensures 0.3 <= r.putCallRatio <= 2.0
    ensures ParseDollars(r.supportLevel) == Some(LevelCents(d.price, 0.95))
    ensures ParseDollars(r.resistanceLevel) == Some(LevelCents(d.price, 1.05))
  {
    var bullish := Count(cs, Bullish);
    var bearish := Count(cs, Bearish);
    DollarsRoundTrip(LevelCents(d.price, 0.95));
    DollarsRoundTrip(LevelCents(d.price, 1.05));
    DeepStats(
      VolatilityFor(bullish, bearish, |cs|),
      MomentumFor(score),
      Dollars(LevelCents(d.price, 0.95)),
      Dollars(LevelCents(d.price, 1.05)),
      Percent(bullish, |cs|),
      Institutional(score, d.institutional),
      PutCallRatio(score))
  }

  // ---------------------------------------------------------------------
  // Trend series

  /** The values one `generateTrendData` call depends on, oldest day first:
      the six "MM-DD" labels of the earlier days, the base scores
      `60 + 15 * sin(i * 0.5)` and the `Math.random()` draws. */
  datatype TrendDraws = TrendDraws(labels: seq<string>, bases: seq<real>, noise: seq<real>)

  /** For i = 6 down to 0, `sin(i * 0.5)` lies in [0, 1], so every base lies in [60, 75]. */
  predicate ValidTrendDraws(d: TrendDraws)
  {
    && |d.labels| == 6 && |d.bases| == 7 && |d.noise| == 7
    && (forall k :: 0 <= k < 7 ==> 60.0 <= d.bases[k] <= 75.0)
    && (forall k :: 0 <= k < 7 ==> 0.0 <= d.noise[k] < 1.0)
  }

  /** `Math.round(baseScore + (u * 10 - 5))`. */
  function TrendScore(base: real, u: real): (s: int)
    requires 60.0 <= base <= 75.0 && 0.0 <= u < 1.0
    ensures Round(base - 5.0) <= s <= Round(base + 5.0)
    ensures 55 <= s <= 80
  {
    var x := base + (u * 10.0 - 5.0);
    RoundMonotone(base - 5.0, x);
    RoundMonotone(x, base + 5.0);
    RoundMonotone(55.0, x);
    RoundMonotone(x, 80.0);
    RoundIntegral(55);
    RoundIntegral(80);
    Round(x)
  }

  /** `generateTrendData`: seven points, oldest first, the last one labelled "Now",
      every score within five points of its base and so in [55, 80]. */
  function TrendData(d: TrendDraws): (r: seq<TrendPoint>)
    requires ValidTrendDraws(d)
    ensures |r| == 7
    ensures r[6].date == "Now"
    ensures forall k :: 0 <= k < 6 ==> r[k].date == d.labels[k]
    ensures forall k :: 0 <= k < 7 ==> 55 <= r[k].score <= 80
  {
    seq(7, k requires 0 <= k < 7 =>
      TrendPoint(if k == 6 then "Now" else d.labels[k], TrendScore(d.bases[k], d.noise[k])))
  }

  // ---------------------------------------------------------------------
  // Summary

  /** The three fallback templates. */
  datatype Band = StrongBullish | BearishPressure | MixedSentiment

  /** The template a score selects: above 65, below 35, or in between. */
  function BandOf(score: int): (b: Band)
    ensures b == StrongBullish <==> score > 65
    ensures b == BearishPressure <==> score < 35
    ensures b == MixedSentiment <==> 35 <= score <= 65
  {
    if score > 65 then StrongBullish else if score < 35 then BearishPressure else MixedSentiment
  }

  /** The fixed words each template opens with. */
  function Prefix(b: Band): string
  {
    match b
    case StrongBullish => "Strong bullish momentum detected for "
    case BearishPressure => "Bearish pressure building on "
    case MixedSentiment => "Mixed sentiment on "
  }

  /** The part of a template after the ticker that carries the percentages. */
  function Shares(b: Band, bullishPct: string, bearishPct: string): string
  {
    match b
    case StrongBullish => " with " + bullishPct + "% positive sentiment"
    case BearishPressure => " with " + bearishPct + "% negative sentiment"
    case MixedSentiment => " with balanced " + bullishPct + "% bullish vs " + bearishPct + "% bearish"
  }

  /** The fixed closing words of each template. */
  function Closing(b: Band): string
  {
    match b
    case StrongBullish => " across social channels. Retail traders showing increased conviction with elevated call activity."
    case BearishPressure => ". Risk-off positioning evident across retail and institutional flows."
    case MixedSentiment => " positioning. Market awaiting catalyst for directional move."
  }

  /**
   `generateFallbackSummary`: the template of the score's band, naming the
   ticker as given and the rounded bullish and/or bearish share of the
   comments. Its opening words name the band, so the band can be read back.
   */
  function FallbackSummary(ticker: string, cs: seq<Comment>, score: int): (r: string)
    ensures var bullishPct := IntToString(Percent(Count(cs, Bullish), |cs|));
            var bearishPct := IntToString(Percent(Count(cs, Bearish), |cs|));
            StartsWith(r, Prefix(BandOf(score)) + ticker + Shares(BandOf(score), bullishPct, bearishPct))
    ensures ReadBand(r) == Some(BandOf(score))
  {
    var b := BandOf(score);
    var bullishPct := IntToString(Percent(Count(cs, Bullish), |cs|));
    var bearishPct := IntToString(Percent(Count(cs, Bearish), |cs|));
    var r := Prefix(b) + ticker + Shares(b, bullishPct, bearishPct) + Closing(b);
    PrefixesOf(Prefix(b), ticker, Shares(b, bullishPct, bearishPct), Closing(b));
    ReadOpening(r, b);
    r
  }

  /** Reads the band back from the opening words of a summary. */
  function ReadBand(s: string): Option<Band>
  {
    if StartsWith(s, Prefix(StrongBullish)) then Some(StrongBullish)
    else if StartsWith(s, Prefix(BearishPressure)) then Some(BearishPressure)
    else if StartsWith(s, Prefix(MixedSentiment)) then Some(MixedSentiment)
    else None
  }

  /** A concatenation starts with its first part and with its first three parts. */
  lemma PrefixesOf(a: string, b: string, c: string, d: string)
    ensures StartsWith(a + b + c + d, a + b + c)
    ensures StartsWith(a + b + c + d, a)
  {
    var r := a + b + c + d;
    assert r[..|a + b + c|] == a + b + c;
    assert r[..|a|] == a;
  }

  /** A string's first character is its prefix's first character. */
  lemma FirstChar(s: string, p: string)
    requires StartsWith(s, p) && |p| > 0
    ensures s[0] == p[0]
  {
    assert s[..|p|][0] == s[0];
  }

  /** The three openings are told apart by their first letter. */
  lemma ReadOpening(r: string, b: Band)
    requires StartsWith(r, Prefix(b))
    ensures ReadBand(r) == Some(b)
  {
    FirstChar(r, Prefix(b));
    if b != StrongBullish && StartsWith(r, Prefix(StrongBullish)) {
      FirstChar(r, Prefix(StrongBullish));
    }
    if b == MixedSentiment && StartsWith(r, Prefix(BearishPressure)) {
      FirstChar(r, Prefix(BearishPressure));
    }
  }

  /** The bullish and bearish templates never contradict the momentum statistic. */
  lemma BandAgreesWithMomentum(score: int)
    ensures BandOf(score) == StrongBullish ==> MomentumFor(score) == BULLISH
    ensures BandOf(score) == BearishPressure ==> MomentumFor(score) == BEARISH
  {
  }

  /** How the language-model request ended. */
  datatype AiReply = AiThrew | AiAnswered(text: Option<string>)

  /**
   The summary policy of `analyzeTicker` and `generateAISummary`: the model's
   text when there is a client and the request returned non-empty text; the
   fallback when there is no client, the text is missing or empty, or the
   request threw.
   */
  function ChooseSummary(hasClient: bool, ai: AiReply, fallback: string): (r: string)
    ensures r == fallback || (hasClient && ai == AiAnswered(Some(r)) && r != "")
    ensures hasClient && ai.AiAnswered? && ai.text.Some? && ai.text.value != "" ==> r == ai.text.value
    ensures !hasClient || ai.AiThrew? || ai.text.None? || ai.text == Some("") ==> r == fallback
  {
    if !hasClient then fallback
    else match ai
      case AiThrew => fallback
      case AiAnswered(text) => if text.Some? && text.value != "" then text.value else fallback
  }

  // ---------------------------------------------------------------------
  // The whole analysis

  /** The comments shown: the three sources in the order Reddit, Twitter,
      StockTwits, ranked by impact, cut to thirty. */
  function Shown(reddit: seq<Comment>, twitter: seq<Comment>, stockTwits: seq<Comment>): (r: seq<Comment>)
    ensures |r| == Min(|reddit| + |twitter| + |stockTwits|, ShownLimit)
    ensures Ranking.SortedByImpact(r)
    ensures multiset(r) <= multiset(reddit + twitter + stockTwits)
  {
    Ranking.TopByImpact(reddit + twitter + stockTwits, ShownLimit)
  }

  /** Every random value and clock reading one analysis uses. */
  datatype Draws = Draws(trend: TrendDraws, stats: StatsDraws, clockIso: string)

  predicate ValidDraws(d: Draws)
  {
    ValidTrendDraws(d.trend) && ValidStatsDraws(d.stats)
  }

  /**
   `analyzeTicker`, given what the three adapters returned. The volume counts
   every comment before the cut; the shown comments are the ranked top
   thirty; score, statistics and summary are all computed over the shown
   comments; the ticker is reported upper-cased.
   */
  function AnalyzeTicker(ticker: string, reddit: seq<Comment>, twitter: seq<Comment>, stockTwits: seq<Comment>,
                         hasClient: bool, ai: AiReply, d: Draws): (r: AnalysisResult)
    requires ValidDraws(d)
    ensures r.ticker == ToUpper(ticker)
    ensures r.volume == |reddit| + |twitter| + |stockTwits|
    ensures r.comments == Shown(reddit, twitter, stockTwits)
    ensures |r.comments| == Min(r.volume, ShownLimit)
    ensures r.overallScore == OverallScore(r.comments)
    ensures r.deepStats.momentum == MomentumFor(r.overallScore)
    ensures r.summary == ChooseSummary(hasClient, ai, FallbackSummary(ticker, r.comments, r.overallScore))
    ensures r.deepStats == DeepStatsFor(r.comments, r.overallScore, d.stats)
    ensures r.trend == TrendData(d.trend)
    ensures |r.trend| == 7 && r.trend[6].date == "Now"
    ensures r.lastUpdated == d.clockIso
  {
    var shown := Shown(reddit, twitter, stockTwits);
    var score := OverallScore(shown);
    var stats := DeepStatsFor(shown, score, d.stats);
    var summary := ChooseSummary(hasClient, ai, FallbackSummary(ticker, shown, score));
    AnalysisResult(ToUpper(ticker), score, summary, |reddit| + |twitter| + |stockTwits|,
                   TrendData(d.trend), shown, stats, d.clockIso)
  }

  /** Impacts in [0, 10] survive the concatenation. */
  lemma ConcatInRange(a: seq<Comment>, b: seq<Comment>)
    requires ImpactsInRange(a) && ImpactsInRange(b)
    ensures ImpactsInRange(a + b)
  {
    var ab := a + b;
    forall i | 0 <= i < |ab|
      ensures 0.0 <= ab[i].impactScore <= 10.0
    {
      if i >= |a| {
        assert ab[i] == b[i - |a|];
      }
    }
  }

  /** Every shown comment is one of the inputs, so impacts in range stay in range. */
  lemma ShownInRange(all: seq<Comment>)
    requires ImpactsInRange(all)
    ensures ImpactsInRange(Ranking.TopByImpact(all, ShownLimit))
  {
    var r := Ranking.TopByImpact(all, ShownLimit);
    forall i | 0 <= i < |r|
      ensures 0.0 <= r[i].impactScore <= 10.0
    {
      Ranking.TopByImpactMembers(all, ShownLimit, r[i]);
    }
  }

  /** With every adapter's impacts in [0, 10], the overall score lies in [25, 75]
      and the statistics derived from it stay in their ranges. */
  lemma AnalysisInRange(ticker: string, reddit: seq<Comment>, twitter: seq<Comment>, stockTwits: seq<Comment>,
                        hasClient: bool, ai: AiReply, d: Draws)
    requires ValidDraws(d)
    requires ImpactsInRange(reddit) && ImpactsInRange(twitter) && ImpactsInRange(stockTwits)
    ensures var r := AnalyzeTicker(ticker, reddit, twitter, stockTwits, hasClient, ai, d);
      && 25 <= r.overallScore <= 75
      && 0 <= r.deepStats.institutionalSentiment <= 95
      && r.deepStats.putCallRatio == (150 - r.overallScore) as real / 100.0
  {
    ConcatInRange(reddit, twitter);
    ConcatInRange(reddit + twitter, stockTwits);
    ShownInRange(reddit + twitter + stockTwits);
    var shown := Shown(reddit, twitter, stockTwits);
    assert NonNegativeWeights(shown);
    var score := OverallScore(shown);
    var stats := DeepStatsFor(shown, score, d.stats);
    assert stats.putCallRatio == PutCallRatio(score);
    assert AnalyzeTicker(ticker, reddit, twitter, stockTwits, hasClient, ai, d).deepStats == stats;
  }
}
