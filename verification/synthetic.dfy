/**
 The placeholder comment batches the StockTwits adapter falls back to and the
 dormant Twitter generator produces. Both follow one recipe: item `i` takes
 template `i % 10` and user name `i % 10`, a recency of
 `Math.floor(Math.random() * span) + 5` minutes, an impact equal to the
 template's plus `Math.random() * width - width / 2`, and the id
 `<prefix>-<now>-<i>`. The two `Math.random()` values of each item are inputs.
 */
module Synthetic {
  import opened Basics
  import opened Text
  import opened Types

  datatype Template = Template(text: string, sentiment: Sentiment, impact: real)

  /** The two `Math.random()` results drawn for one item, recency first. */
  datatype Draw = Draw(recency: real, jitter: real)

  /** Both values lie in [0, 1), the range of `Math.random()`. */
  predicate ValidDraw(d: Draw)
  {
    0.0 <= d.recency < 1.0 && 0.0 <= d.jitter < 1.0
  }

  predicate ValidDraws(ds: seq<Draw>)
  {
    forall i :: 0 <= i < |ds| ==> ValidDraw(ds[i])
  }

  /** The fixed parameters of one source's generator. */
  datatype Recipe = Recipe(
    idPrefix: string,
    source: Source,
    cap: nat,
    span: nat,
    width: real,
    templates: seq<Template>,
    users: seq<string>)

  predicate WellFormed(rc: Recipe)
  {
    rc.span > 0 && rc.width >= 0.0 && |rc.templates| == 10 && |rc.users| == 10
  }

  /** `Math.min(limit, cap)` iterations of `for (let i = 0; i < ...; i++)`. */
  function BatchSize(limit: int, cap: nat): (n: nat)
    ensures n <= cap
    ensures limit >= 0 ==> n == Min(limit, cap)
    ensures limit < 0 ==> n == 0
  {
    if limit <= 0 then 0 else Min(limit, cap)
  }

  /** `Math.floor(u * span) + 5`. */
  function MinutesAgo(u: real, span: nat): (m: int)
    requires 0.0 <= u < 1.0 && span > 0
    ensures 5 <= m <= span + 4
  {
    (u * span as real).Floor + 5
  }

  /** `impact + (u * width - width / 2)`. */
  function Jittered(impact: real, u: real, width: real): (r: real)
    requires 0.0 <= u < 1.0 && width >= 0.0
    ensures impact - width / 2.0 <= r <= impact + width / 2.0
  {
    ScaleBelow(u, width);
    impact + (u * width - width / 2.0)
  }

  lemma ScaleBelow(u: real, w: real)
    requires 0.0 <= u < 1.0 && w >= 0.0
    ensures 0.0 <= u * w <= w
  {
    assert w - u * w == (1.0 - u) * w;
  }

  function MockItem(rc: Recipe, now: int, d: Draw, i: nat, stamp: int -> string): Comment
    requires WellFormed(rc) && ValidDraw(d)
  {
    var t := rc.templates[i % 10];
    Comment(
      ItemId(rc.idPrefix, now, i),
      rc.source,
      rc.users[i % 10],
      t.text,
      t.sentiment,
      stamp(MinutesAgo(d.recency, rc.span)),
      Jittered(t.impact, d.jitter, rc.width))
  }

  /**
   A batch of `min(limit, cap)` items. Item `i` repeats template and user
   `i % 10`, its impact stays within `width / 2` of the template's, its
   label is made from a recency in [5, span + 4] minutes, and all ids differ.
   `stamp` is the source's own label formatter.
   */
  function MockBatch(rc: Recipe, limit: int, now: int, draws: seq<Draw>, stamp: int -> string): (r: seq<Comment>)
    requires WellFormed(rc)
    requires ValidDraws(draws) && |draws| >= BatchSize(limit, rc.cap)
    ensures |r| == BatchSize(limit, rc.cap)
    ensures forall i :: 0 <= i < |r| ==>
      && r[i].source == rc.source
      && r[i].user == rc.users[i % 10]
      && r[i].text == rc.templates[i % 10].text
      && r[i].sentiment == rc.templates[i % 10].sentiment
    ensures forall i :: 0 <= i < |r| ==>
      rc.templates[i % 10].impact - rc.width / 2.0 <= r[i].impactScore <= rc.templates[i % 10].impact + rc.width / 2.0
    ensures forall i :: 0 <= i < |r| ==> r[i].timestamp == stamp(MinutesAgo(draws[i].recency, rc.span))
    ensures forall i :: 0 <= i < |r| ==>
      exists m :: 5 <= m <= rc.span + 4 && r[i].timestamp == stamp(m)
    ensures forall i, j :: 0 <= i < j < |r| ==> r[i].id != r[j].id
  {
    var n := BatchSize(limit, rc.cap);
    var r := seq(n, i requires 0 <= i < n => MockItem(rc, now, draws[i], i, stamp));
    assert forall i :: 0 <= i < n ==> r[i].timestamp == stamp(MinutesAgo(draws[i].recency, rc.span));
    forall i, j | 0 <= i < j < n
      ensures r[i].id != r[j].id
    {
      ItemIdsDistinct(rc.idPrefix, now, i, j);
    }
    r
  }
}
