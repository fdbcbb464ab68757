/**
 The ranking step of the aggregator: `Array.prototype.sort` with the
 comparator `(a, b) => b.impactScore - a.impactScore`, which is stable, so
 comments of equal impact keep their input order; then `slice(0, n)`.
 Modelled as a stable insertion sort on sequences.
 */
module Ranking {
  import opened Basics
  import opened Types

  /** Non-increasing by impact. */
  ghost predicate SortedByImpact(s: seq<Comment>)
  {
    forall i, j :: 0 <= i < j < |s| ==> s[i].impactScore >= s[j].impactScore
  }

  /** The comments of `s` whose impact is exactly `v`, in their order in `s`. */
  function WithImpact(s: seq<Comment>, v: real): seq<Comment>
  {
    if |s| == 0 then []
    else (if s[0].impactScore == v then [s[0]] else []) + WithImpact(s[1..], v)
  }

  /** Putting a comment no lower than the head in front keeps the order. */
  lemma PrependSorted(a: Comment, s: seq<Comment>)
    requires SortedByImpact(s)
    requires |s| == 0 || a.impactScore >= s[0].impactScore
    ensures SortedByImpact([a] + s)
  {
    var t := [a] + s;
    forall i, j | 0 <= i < j < |t|
      ensures t[i].impactScore >= t[j].impactScore
    {
      if i == 0 && j > 1 {
        assert t[j] == s[j - 1];
      }
    }
  }

  /** Places `x` after every comment of higher impact and before the rest, so
      that it precedes the equal-impact comments that came after it in the input. */
  function Insert(x: Comment, s: seq<Comment>): (r: seq<Comment>)
    requires SortedByImpact(s)
    ensures SortedByImpact(r)
    ensures multiset(r) == multiset(s) + multiset{x}
    ensures |r| == |s| + 1
    ensures r[0] == x || (|s| > 0 && r[0] == s[0])
  {
    if |s| == 0 then [x]
    else if s[0].impactScore > x.impactScore then
      var rest := Insert(x, s[1..]);
      assert s == [s[0]] + s[1..];
      PrependSorted(s[0], rest);
      [s[0]] + rest
    else
      PrependSorted(x, s);
      [x] + s
  }

  /** The sort of the aggregator: insertion of each comment, first to last. */
  function SortByImpact(s: seq<Comment>): (r: seq<Comment>)
    ensures SortedByImpact(r)
    ensures multiset(r) == multiset(s)
    ensures |r| == |s|
  {
    if |s| == 0 then []
    else
      assert s == [s[0]] + s[1..];
      Insert(s[0], SortByImpact(s[1..]))
  }

  /** The filter on a sequence with a given head. */
  lemma WithImpactCons(a: Comment, t: seq<Comment>, v: real)
    ensures WithImpact([a] + t, v) == (if a.impactScore == v then [a] else []) + WithImpact(t, v)
  {
    assert ([a] + t)[1..] == t;
  }

  /** Two prefixes of which one is empty commute. */
  lemma SwapEmpty<T>(a: seq<T>, b: seq<T>, w: seq<T>)
    requires a == [] || b == []
    ensures b + (a + w) == a + (b + w)
  {
    if a == [] {
      assert a + w == w && a + (b + w) == b + w;
    } else {
      assert b + (a + w) == a + w && b + w == w;
    }
  }

  lemma {:induction false} InsertStable(x: Comment, s: seq<Comment>, v: real)
    requires SortedByImpact(s)
    ensures WithImpact(Insert(x, s), v)
         == (if x.impactScore == v then [x] else []) + WithImpact(s, v)
  {
    if |s| > 0 && s[0].impactScore > x.impactScore {
      var rest := Insert(x, s[1..]);
      var px := if x.impactScore == v then [x] else [];
      var p0 := if s[0].impactScore == v then [s[0]] else [];
      var w := WithImpact(s[1..], v);
      InsertStable(x, s[1..], v);
      assert Insert(x, s) == [s[0]] + rest;
      WithImpactCons(s[0], rest, v);
      assert WithImpact(Insert(x, s), v) == p0 + (px + w);
      assert s == [s[0]] + s[1..];
      WithImpactCons(s[0], s[1..], v);
      assert WithImpact(s, v) == p0 + w;
      SwapEmpty(px, p0, w);
    } else {
      assert Insert(x, s) == [x] + s;
      WithImpactCons(x, s, v);
    }
  }

  /**
   Stability: for every impact value, the comments with that impact appear in
   the sorted output in exactly the order they had in the input. Together with
   `SortByImpact`'s own contract (sorted, same multiset) this pins the output
   down completely.
   */
  lemma {:induction false} SortStable(s: seq<Comment>, v: real)
    ensures WithImpact(SortByImpact(s), v) == WithImpact(s, v)
  {
    if |s| > 0 {
      SortStable(s[1..], v);
      InsertStable(s[0], SortByImpact(s[1..]), v);
    }
  }

  /** The `n` highest-impact comments, ranked, ties in input order. */
  function TopByImpact(s: seq<Comment>, n: nat): (r: seq<Comment>)
    ensures |r| == Min(n, |s|)
    ensures SortedByImpact(r)
    ensures multiset(r) <= multiset(s)
  {
    var sorted := SortByImpact(s);
    var r := Take(sorted, n);
    PrefixMultiset(sorted, |r|);
    r
  }

  lemma PrefixMultiset(s: seq<Comment>, k: nat)
    requires k <= |s|
    ensures multiset(s[..k]) <= multiset(s)
  {
    assert s == s[..k] + s[k..];
  }

  /** No comment that was cut off ranks above a comment that was kept. */
  lemma TopDominatesRest(s: seq<Comment>, n: nat, i: nat, j: nat)
    requires i < |TopByImpact(s, n)| <= j < |s|
    ensures TopByImpact(s, n)[i].impactScore >= SortByImpact(s)[j].impactScore
  {
    var sorted := SortByImpact(s);
    assert TopByImpact(s, n)[i] == sorted[i];
  }

  /** Every kept comment is one of the input comments. */
  lemma TopByImpactMembers(s: seq<Comment>, n: nat, c: Comment)
    requires c in TopByImpact(s, n)
    ensures c in s
  {
    var r := TopByImpact(s, n);
    assert c in multiset(r);
    assert c in multiset(s);
  }
}
