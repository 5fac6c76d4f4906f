/** A percentile column of a report row: rank over the group's count, value from its histogram. */
module PercentileQuery {
  import opened Time
  import opened Types
  import opened Histogram
  import opened Percentile
  import BaseReport
  import TagTotals

  ghost function Weight(ss: seq<Sample>): nat {
    if ss == [] then 0 else ss[0].weight + Weight(ss[1..])
  }

  ghost predicate AllTracked(ss: seq<Sample>) {
    forall i :: 0 <= i < |ss| ==> Tracked(ss[i].time)
  }

  /** With every sample in range, the buckets together hold all hits. */
  lemma {:induction false} BucketsHoldAll(sc: Histogram.Scale, ss: seq<Sample>)
    requires GoodScale(sc) && AllTracked(ss)
    ensures Under(sc, ss, sc.size) == Weight(ss) == Faster(ss, INT_MAX + 1.0)
  {
    if ss != [] {
      assert forall i :: 0 <= i < |ss[1..]| ==> ss[1..][i] == ss[i + 1];
      BucketsHoldAll(sc, ss[1..]);
    }
  }

  /** `v` is a point in a bucket that holds samples, and that bucket is the one of the
      `rank`-th smallest sample, which exists; so `v` is within one segment of that sample. */
  ghost predicate PointAtRank(sc: Histogram.Scale, ss: seq<Sample>, rank: nat, v: real)
    requires GoodScale(sc)
  {
    && (exists t :: IsRankth(ss, t, rank))
    && (forall t :: IsRankth(ss, t, rank) ==> PointIn(sc, Bucket(sc, t), v) && WeightIn(sc, ss, Bucket(sc, t)) > 0 && Near(sc, t, v))
  }

  /** A nonempty group's percentile is a point in the bucket of the rank-th smallest sample. */
  method RowPercentile(sc: Histogram.Scale, h: map<nat, int>, count: nat, numerator: nat, denominator: nat,
                       ghost ss: seq<Sample>)
    returns (v: real)
    requires GoodScale(sc) && HistIs(sc, h, ss) && AllTracked(ss) && count == Weight(ss) > 0
    requires 0 < numerator <= denominator
    ensures PointAtRank(sc, ss, Rank(count, numerator, denominator), v)
  {
    var rank := Rank(count, numerator, denominator);
    RankIsLeast(count, numerator, denominator);
    BucketsHoldAll(sc, ss);
    ghost var b;
    v, b := HistogramValue(sc, h, rank, ss);
    ghost var u := RankthExists(ss, INT_MAX + 1.0, rank);
    forall t | IsRankth(ss, t, rank) ensures Near(sc, t, v) {
      PointIsNear(sc, t, v);
    }
  }

  /** A base report's group count is the number of its samples. */
  lemma {:induction false} BaseGroupWeight(ms: seq<Payload>)
    ensures Weight(BaseReport.Samples(ms)) == |ms|
  {
    if ms != [] {
      assert BaseReport.Samples(ms)[1..] == BaseReport.Samples(ms[1..]);
      BaseGroupWeight(ms[1..]);
    }
  }

  /** A tag report's group weighs each timer by its hits. */
  lemma {:induction false} TagGroupWeight(ts: seq<Timer>)
    ensures Weight(TagTotals.Samples(ts)) == TagTotals.Hits(ts)
  {
    if ts != [] {
      assert TagTotals.Samples(ts)[1..] == TagTotals.Samples(ts[1..]);
      TagGroupWeight(ts[1..]);
    }
  }

  /** The percentile column of a base report row. */
  method BaseRow(sh: BaseReport.Layout<string>, g: BaseReport.Group, numerator: nat, denominator: nat, ghost ms: seq<Payload>)
    returns (v: real)
    requires GoodScale(sh.sc) && BaseReport.GroupIs(sh, g, ms) && ms != [] && 0 < numerator <= denominator
    requires AllTracked(BaseReport.Samples(ms))
    ensures PointAtRank(sh.sc, BaseReport.Samples(ms), Rank(|ms|, numerator, denominator), v)
  {
    BaseGroupWeight(ms);
    v := RowPercentile(sh.sc, g.hist, g.reqCount, numerator, denominator, BaseReport.Samples(ms));
  }

  /** The percentile column of a tag report row ranks hits, not requests. */
  method TagRow(sc: Histogram.Scale, s: TagTotals.Totals, numerator: nat, denominator: nat, ghost ts: seq<Timer>)
    returns (v: real)
    requires GoodScale(sc) && TagTotals.TotalsAre(sc, s, ts) && TagTotals.Hits(ts) > 0 && 0 < numerator <= denominator
    requires AllTracked(TagTotals.Samples(ts))
    ensures PointAtRank(sc, TagTotals.Samples(ts), Rank(TagTotals.Hits(ts), numerator, denominator), v)
  {
    TagGroupWeight(ts);
    v := RowPercentile(sc, s.hist, s.hits, numerator, denominator, TagTotals.Samples(ts));
  }

  // What that means for the requests of a base report group.

  /** Requests among the first `n` that took less time than `t` seconds, or at most that. */
  ghost function Quicker(ms: seq<Payload>, n: nat, t: real): set<nat>
    requires n <= |ms|
  {
    set j: nat | j < n && Micros(ms[j].reqTime) as real / 1000000.0 < t
  }

  ghost function NoSlower(ms: seq<Payload>, n: nat, t: real): set<nat>
    requires n <= |ms|
  {
    set j: nat | j < n && Micros(ms[j].reqTime) as real / 1000000.0 <= t
  }

  /** Request `i` is the `rank`-th quickest: fewer than `rank` are quicker, and at least `rank`
      are no slower. */
  ghost predicate IsRankthRequest(ms: seq<Payload>, i: nat, rank: nat) {
    && i < |ms|
    && var t := Micros(ms[i].reqTime) as real / 1000000.0;
       |Quicker(ms, |ms|, t)| < rank <= |NoSlower(ms, |ms|, t)|
  }

  lemma {:induction false} TimesAppend(ss: seq<Sample>, s: Sample, t: real)
    ensures Faster(ss + [s], t) == Faster(ss, t) + if Tracked(s.time) && s.time < t then s.weight else 0
    ensures UpTo(ss + [s], t) == UpTo(ss, t) + if Tracked(s.time) && s.time <= t then s.weight else 0
  {
    if ss == [] {
      assert (ss + [s])[1..] == [];
    } else {
      assert (ss + [s])[1..] == ss[1..] + [s];
      TimesAppend(ss[1..], s, t);
    }
  }

  lemma {:induction false} TimesAreCounts(ms: seq<Payload>, n: nat, t: real)
    requires n <= |ms| && AllTracked(BaseReport.Samples(ms))
    ensures Faster(BaseReport.Samples(ms[..n]), t) == |Quicker(ms, n, t)|
    ensures UpTo(BaseReport.Samples(ms[..n]), t) == |NoSlower(ms, n, t)|
  {
    if n > 0 {
      TimesAreCounts(ms, n - 1, t);
      var s := BaseReport.Samples(ms)[n - 1];
      assert BaseReport.Samples(ms[..n]) == BaseReport.Samples(ms[..n - 1]) + [s];
      TimesAppend(BaseReport.Samples(ms[..n - 1]), s, t);
      SecondsAreMicros(ms[n - 1].reqTime);
      OneMore(ms, n - 1, t);
    } else {
      assert Quicker(ms, 0, t) == {} && NoSlower(ms, 0, t) == {};
    }
  }

  lemma OneMore(ms: seq<Payload>, n: nat, t: real)
    requires n < |ms|
    ensures var u := Micros(ms[n].reqTime) as real / 1000000.0;
            && |Quicker(ms, n + 1, t)| == |Quicker(ms, n, t)| + (if u < t then 1 else 0)
            && |NoSlower(ms, n + 1, t)| == |NoSlower(ms, n, t)| + (if u <= t then 1 else 0)
  {
    var u := Micros(ms[n].reqTime) as real / 1000000.0;
    assert Quicker(ms, n + 1, t) == if u < t then Quicker(ms, n, t) + {n} else Quicker(ms, n, t);
    assert NoSlower(ms, n + 1, t) == if u <= t then NoSlower(ms, n, t) + {n} else NoSlower(ms, n, t);
  }

  lemma SecondsAreMicros(t: Timeval)
    ensures BaseReport.Seconds(t) == Micros(t) as real / 1000000.0
  {
  }

  /** A rank-th smallest time is the time of some sample. */
  lemma {:induction false} RankthIsSample(ss: seq<Sample>, t: real) returns (i: nat)
    requires Faster(ss, t) < UpTo(ss, t)
    ensures i < |ss| && ss[i].time == t
  {
    if Tracked(ss[0].time) && ss[0].time == t {
      i := 0;
    } else {
      i := RankthIsSample(ss[1..], t);
      i := i + 1;
    }
  }

  /** A point at a rank is within one segment of the rank-th quickest request. */
  ghost predicate NearRankth(sc: Histogram.Scale, ms: seq<Payload>, rank: nat, v: real) {
    exists i: nat :: IsRankthRequest(ms, i, rank) && Near(sc, Micros(ms[i].reqTime) as real / 1000000.0, v)
  }

  lemma NearRankthRequest(sc: Histogram.Scale, ms: seq<Payload>, rank: nat, v: real)
    requires GoodScale(sc) && AllTracked(BaseReport.Samples(ms)) && PointAtRank(sc, BaseReport.Samples(ms), rank, v)
    ensures NearRankth(sc, ms, rank, v)
  {
    var ss := BaseReport.Samples(ms);
    var t :| IsRankth(ss, t, rank);
    var i := RankthIsSample(ss, t);
    SecondsAreMicros(ms[i].reqTime);
    TimesAreCounts(ms, |ms|, t);
    assert ms[..|ms|] == ms;
    assert IsRankthRequest(ms, i, rank) && Near(sc, t, v);
  }
}
