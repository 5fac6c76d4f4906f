/** Bucketed times: incremental updates, and the percentile query over them. */
module Histogram {

  /** `size` buckets of width `segment`; times from `maxTime` on share the last one. */
  datatype Scale = Scale(segment: real, maxTime: real, size: nat)

  ghost predicate GoodScale(sc: Scale) {
    sc.size > 0 && sc.segment > 0.0 && sc.maxTime == sc.segment * sc.size as real
  }

  /** `weight` hits that took `time` seconds each. */
  datatype Sample = Sample(time: real, weight: nat)

  const INT_MAX: real := 2147483647.0

  predicate Tracked(t: real) {
    0.0 <= t <= INT_MAX
  }

  function Bucket(sc: Scale, t: real): (b: nat)
    requires GoodScale(sc) && t >= 0.0
    ensures b < sc.size
  {
    if t >= sc.maxTime then sc.size - 1
    else
      var slot := QuotientFloor(t, sc.segment);
      if slot > sc.size - 1 then sc.size - 1 else slot
  }

  function QuotientFloor(t: real, seg: real): (q: nat)
    requires t >= 0.0 && seg > 0.0
  {
    DivMul(t, seg);
    (t / seg).Floor
  }

  /** Bucket `q` covers the times from `q` segments up to, but not including, `q + 1`. */
  lemma QuotientBounds(t: real, seg: real, q: nat)
    requires t >= 0.0 && seg > 0.0
    ensures q < QuotientFloor(t, seg) ==> (q as real + 1.0) * seg <= t
    ensures q >= QuotientFloor(t, seg) ==> t < (q as real + 1.0) * seg
  {
    DivMul(t, seg);
    EdgeBounds(t, t / seg, seg, q as real + 1.0);
  }

  lemma EdgeBounds(t: real, x: real, seg: real, edge: real)
    requires x * seg == t && seg > 0.0
    ensures edge <= x ==> edge * seg <= t
    ensures x < edge ==> t < edge * seg
  {
    if edge <= x { MulLe(edge, x, seg); }
    if x < edge { MulLt(x, edge, seg); }
  }

  lemma DivMul(t: real, seg: real)
    requires t >= 0.0 && seg > 0.0
    ensures t / seg * seg == t && t / seg >= 0.0
  {
  }

  lemma MulLe(a: real, b: real, c: real)
    requires a <= b && c > 0.0
    ensures a * c <= b * c
  {
  }

  lemma MulLt(a: real, b: real, c: real)
    requires a < b && c > 0.0
    ensures a * c < b * c
  {
  }

  /** A longer time never falls into an earlier bucket. */
  lemma BucketMonotone(sc: Scale, t: real, u: real)
    requires GoodScale(sc) && 0.0 <= t <= u
    ensures Bucket(sc, t) <= Bucket(sc, u)
  {
    if u < sc.maxTime {
      var q := QuotientFloor(u, sc.segment);
      QuotientBounds(u, sc.segment, q);
      QuotientBounds(t, sc.segment, q);
    }
  }

  /** Bucket `b` holds the times from `b` segments up to, but not including, `b + 1`; the last one
      holds everything from `maxTime` on as well. */
  lemma BucketHolds(sc: Scale, t: real)
    requires GoodScale(sc) && t >= 0.0
    ensures var b := Bucket(sc, t) as real;
            if t < sc.maxTime then b * sc.segment <= t < (b + 1.0) * sc.segment else b == sc.size as real - 1.0
  {
    if t < sc.maxTime {
      var q := QuotientFloor(t, sc.segment);
      QuotientBounds(t, sc.segment, q);
      if q > 0 { QuotientBounds(t, sc.segment, q - 1); }
      if q > sc.size - 1 { MulLe(sc.size as real, q as real, sc.segment); }
    }
  }

  /** Hits in bucket `b`. */
  ghost function WeightIn(sc: Scale, ss: seq<Sample>, b: nat): nat
    requires GoodScale(sc)
  {
    if ss == [] then 0
    else WeightIn(sc, ss[1..], b) + if InBucket(sc, ss[0], b) then ss[0].weight else 0
  }

  ghost predicate InBucket(sc: Scale, s: Sample, b: nat)
    requires GoodScale(sc)
  {
    Tracked(s.time) && Bucket(sc, s.time) == b
  }

  lemma {:induction false} WeightAppend(sc: Scale, ss: seq<Sample>, s: Sample, b: nat)
    requires GoodScale(sc)
    ensures WeightIn(sc, ss + [s], b) == WeightIn(sc, ss, b) + if InBucket(sc, s, b) then s.weight else 0
  {
    if ss == [] {
      assert (ss + [s])[1..] == [];
    } else {
      assert (ss + [s])[1..] == ss[1..] + [s];
      WeightAppend(sc, ss[1..], s, b);
    }
  }

  function At(h: map<nat, int>, b: nat): int {
    if b in h then h[b] else 0
  }

  /** Add `add` hits, or take `-add` away, that together took `total` seconds. An emptied
      bucket is removed from the map. */
  function Update(sc: Scale, h: map<nat, int>, total: real, add: int): map<nat, int>
    requires GoodScale(sc)
  {
    var t := PerHit(total, add);
    if !Tracked(t) then h
    else
      var b := Bucket(sc, t);
      var v := At(h, b) + add;
      if v == 0 then h - {b} else h[b := v]
  }

  function PerHit(total: real, add: int): real {
    if add > 1 then total / add as real
    else if add < -1 then total / (-add) as real
    else total
  }

  /** The time of one hit, times the hits, is the total. */
  lemma PerHitTimesHits(total: real, hits: nat)
    requires hits > 0
    ensures PerHit(total, hits) * hits as real == total && PerHit(total, -(hits as int)) == PerHit(total, hits)
  {
  }

  /** The histogram holds exactly the hits of the samples, and no empty bucket. */
  ghost predicate HistIs(sc: Scale, h: map<nat, int>, ss: seq<Sample>)
    requires GoodScale(sc)
  {
    && (forall b :: At(h, b) == WeightIn(sc, ss, b))
    && (forall b :: b in h ==> h[b] != 0)
  }

  lemma HistogramAdd(sc: Scale, h: map<nat, int>, ss: seq<Sample>, total: real, hits: nat)
    requires GoodScale(sc) && HistIs(sc, h, ss) && hits > 0
    ensures HistIs(sc, Update(sc, h, total, hits), ss + [Sample(PerHit(total, hits), hits)])
  {
    var s := Sample(PerHit(total, hits), hits);
    forall b
      ensures At(Update(sc, h, total, hits), b) == WeightIn(sc, ss + [s], b)
    {
      WeightAppend(sc, ss, s, b);
      assert At(h, b) == WeightIn(sc, ss, b);
    }
  }

  /** Taking the oldest sample away undoes its addition. */
  lemma HistogramRemove(sc: Scale, h: map<nat, int>, ss: seq<Sample>, total: real, hits: nat)
    requires GoodScale(sc) && hits > 0
    requires HistIs(sc, h, [Sample(PerHit(total, hits), hits)] + ss)
    ensures HistIs(sc, Update(sc, h, total, -(hits as int)), ss)
  {
    var s := Sample(PerHit(total, hits), hits);
    assert ([s] + ss)[1..] == ss;
    assert PerHit(total, -(hits as int)) == s.time;
    forall b
      ensures At(Update(sc, h, total, -(hits as int)), b) == WeightIn(sc, ss, b)
    {
      assert At(h, b) == WeightIn(sc, [s] + ss, b);
    }
  }

  /** Tracked hits in the buckets before bucket `n`. */
  ghost function Under(sc: Scale, ss: seq<Sample>, n: nat): nat
    requires GoodScale(sc)
  {
    if ss == [] then 0
    else Under(sc, ss[1..], n) + if Tracked(ss[0].time) && Bucket(sc, ss[0].time) < n then ss[0].weight else 0
  }

  lemma {:induction false} UnderNext(sc: Scale, ss: seq<Sample>, n: nat)
    requires GoodScale(sc)
    ensures Under(sc, ss, 0) == 0
    ensures Under(sc, ss, n + 1) == Under(sc, ss, n) + WeightIn(sc, ss, n)
  {
    if ss != [] { UnderNext(sc, ss[1..], n); }
  }

  lemma {:induction false} UnderMonotone(sc: Scale, ss: seq<Sample>, m: nat, n: nat)
    requires GoodScale(sc) && m <= n
    ensures Under(sc, ss, m) <= Under(sc, ss, n)
  {
    if ss != [] { UnderMonotone(sc, ss[1..], m, n); }
  }

  /** Tracked hits faster than `t`. */
  ghost function Faster(ss: seq<Sample>, t: real): nat {
    if ss == [] then 0 else Faster(ss[1..], t) + if Tracked(ss[0].time) && ss[0].time < t then ss[0].weight else 0
  }

  /** Tracked hits that took at most `t`. */
  ghost function UpTo(ss: seq<Sample>, t: real): nat {
    if ss == [] then 0 else UpTo(ss[1..], t) + if Tracked(ss[0].time) && ss[0].time <= t then ss[0].weight else 0
  }

  /** `t` is the `rank`-th smallest hit time. */
  ghost predicate IsRankth(ss: seq<Sample>, t: real, rank: nat) {
    t >= 0.0 && Faster(ss, t) < rank <= UpTo(ss, t)
  }

  ghost function CountFaster(ss: seq<Sample>, t: real): nat {
    if ss == [] then 0 else CountFaster(ss[1..], t) + if Tracked(ss[0].time) && ss[0].time < t then 1 else 0
  }

  ghost predicate NoneBetween(ss: seq<Sample>, u: real, t: real) {
    forall i :: 0 <= i < |ss| && Tracked(ss[i].time) && ss[i].time < t ==> ss[i].time <= u
  }

  /** The slowest sample faster than `t`. */
  lemma {:induction false} NextFaster(ss: seq<Sample>, t: real) returns (u: real)
    requires CountFaster(ss, t) > 0
    ensures 0.0 <= u < t && NoneBetween(ss, u, t)
    ensures CountFaster(ss, u) < CountFaster(ss, t) && UpTo(ss, u) == Faster(ss, t)
  {
    var s := ss[0];
    var fits := Tracked(s.time) && s.time < t;
    if CountFaster(ss[1..], t) == 0 {
      u := s.time;
      NobodyFaster(ss[1..], t);
      OnlyHead(ss[1..], u, t);
    } else {
      u := NextFaster(ss[1..], t);
      if fits && s.time > u {
        u := s.time;
        OnlyHead(ss[1..], u, t);
      }
    }
    assert forall i :: 1 <= i < |ss| ==> ss[i] == ss[1..][i - 1];
  }

  lemma {:induction false} NobodyFaster(ss: seq<Sample>, t: real)
    requires CountFaster(ss, t) == 0
    ensures Faster(ss, t) == 0 && forall i :: 0 <= i < |ss| && Tracked(ss[i].time) ==> ss[i].time >= t
  {
    if ss != [] {
      NobodyFaster(ss[1..], t);
      assert forall i :: 1 <= i < |ss| ==> ss[i] == ss[1..][i - 1];
    }
  }

  /** Every rank up to the number of tracked hits has a hit time of its own. */
  lemma {:induction false} RankthExists(ss: seq<Sample>, t: real, rank: nat) returns (u: real)
    requires 1 <= rank <= Faster(ss, t)
    ensures IsRankth(ss, u, rank)
    decreases CountFaster(ss, t)
  {
    if CountFaster(ss, t) == 0 { NobodyFaster(ss, t); }
    u := NextFaster(ss, t);
    if Faster(ss, u) >= rank {
      u := RankthExists(ss, u, rank);
    }
  }

  lemma {:induction false} OnlyHead(ss: seq<Sample>, u: real, t: real)
    requires u < t
    ensures CountFaster(ss, u) <= CountFaster(ss, t)
    ensures NoneBetween(ss, u, t) ==> UpTo(ss, u) == Faster(ss, t)
  {
    if ss != [] {
      OnlyHead(ss[1..], u, t);
      assert forall i :: 0 <= i < |ss[1..]| ==> ss[1..][i] == ss[i + 1];
    }
  }

  lemma {:induction false} BucketsBracketTimes(sc: Scale, ss: seq<Sample>, t: real)
    requires GoodScale(sc) && t >= 0.0
    ensures Under(sc, ss, Bucket(sc, t)) <= Faster(ss, t)
    ensures UpTo(ss, t) <= Under(sc, ss, Bucket(sc, t) + 1)
  {
    if ss != [] {
      BucketsBracketTimes(sc, ss[1..], t);
      var u := ss[0].time;
      if Tracked(u) {
        if u <= t { BucketMonotone(sc, u, t); }
        if t <= u { BucketMonotone(sc, t, u); }
      }
    }
  }

  /** The bucket where the accumulated hits first reach the rank is the bucket of the
      `rank`-th smallest hit. */
  lemma RankBucket(sc: Scale, ss: seq<Sample>, t: real, rank: nat, b: nat)
    requires GoodScale(sc) && IsRankth(ss, t, rank)
    requires Under(sc, ss, b) < rank <= Under(sc, ss, b + 1)
    ensures Bucket(sc, t) == b
  {
    var c := Bucket(sc, t);
    BucketsBracketTimes(sc, ss, t);
    if c < b { UnderMonotone(sc, ss, c + 1, b); }
    if b < c { UnderMonotone(sc, ss, b + 1, c); }
  }

  /** The value interpolated inside bucket `b` for a rank that falls there. */
  function Interpolated(sc: Scale, b: nat, num: int, rank: int, count: int): real
    requires count != 0
  {
    sc.segment * (b as real + (1.0 - (num - rank) as real / count as real))
  }

  /** The last of the bucket's hits stands at its upper edge, and the others are spaced evenly
      below it, so the first stands one step above the lower edge. */
  lemma InterpolatedEvenly(sc: Scale, b: nat, num: int, rank: int, count: int)
    requires count > 0
    ensures Interpolated(sc, b, num, num, count) == sc.segment * (b as real + 1.0)
    ensures Interpolated(sc, b, num, rank + 1, count) - Interpolated(sc, b, num, rank, count) == sc.segment / count as real
  {
    var x, c := (num - rank) as real, count as real;
    assert x / c - (x - 1.0) / c == 1.0 / c by {
      assert (x - 1.0) / c == x / c - 1.0 / c;
    }
    var q, q' := x / c, (x - 1.0) / c;
    assert sc.segment * (b as real + (1.0 - q')) - sc.segment * (b as real + (1.0 - q)) == sc.segment * (q - q');
  }

  /** A value and a time in the same segment, or in the last bucket. */
  ghost predicate Near(sc: Scale, t: real, v: real) {
    if t < sc.maxTime then -sc.segment < v - t <= sc.segment else sc.maxTime - sc.segment < v <= sc.maxTime
  }

  lemma PointIsNear(sc: Scale, t: real, v: real)
    requires GoodScale(sc) && t >= 0.0 && PointIn(sc, Bucket(sc, t), v)
    ensures Near(sc, t, v)
  {
    BucketHolds(sc, t);
    var b := Bucket(sc, t) as real;
    assert sc.segment * (b + 1.0) == b * sc.segment + sc.segment && (b + 1.0) * sc.segment == b * sc.segment + sc.segment;
    if t >= sc.maxTime {
      assert sc.segment * (b + 1.0) == sc.segment * sc.size as real;
    }
  }

  /** A value above the lower edge of bucket `b` and not above its upper edge. */
  ghost predicate PointIn(sc: Scale, b: nat, v: real) {
    sc.segment * b as real < v <= sc.segment * (b as real + 1.0)
  }

  /** A percentile query: walk the buckets until the accumulated hits reach the rank. */
  method HistogramValue(sc: Scale, h: map<nat, int>, rank: nat, ghost ss: seq<Sample>)
    returns (v: real, ghost b: nat)
    requires GoodScale(sc) && HistIs(sc, h, ss)
    ensures Under(sc, ss, sc.size) == 0 ==> v == 0.0
    ensures var r := if rank == 0 then 1 else rank;
            && (r <= Under(sc, ss, sc.size) ==>
                  && b < sc.size && Under(sc, ss, b) < r <= Under(sc, ss, b + 1)
                  && WeightIn(sc, ss, b) > 0
                  && v == Interpolated(sc, b, Under(sc, ss, b + 1), r, WeightIn(sc, ss, b))
                  && PointIn(sc, b, v)
                  && forall t :: IsRankth(ss, t, r) ==> Bucket(sc, t) == b)
            && (0 < Under(sc, ss, sc.size) < r ==> v == sc.segment * sc.size as real)
  {
    var r := if rank == 0 then 1 else rank;
    var num := 0;
    b := 0;
    UnderNext(sc, ss, 0);
    for i := 0 to sc.size
      invariant num == Under(sc, ss, i) < r
    {
      var value := At(h, i);
      UnderNext(sc, ss, i);
      num := num + value;
      if num >= r {
        UnderMonotone(sc, ss, i + 1, sc.size);
        b := i;
        v := Interpolated(sc, i, num, r, value);
        InsideBucket(sc, i, num, r, value);
        forall t | IsRankth(ss, t, r)
          ensures Bucket(sc, t) == i
        {
          RankBucket(sc, ss, t, r, i);
        }
        return;
      }
    }
    v := if num == 0 then 0.0 else sc.segment * sc.size as real;
  }

  /** The interpolated fraction lies in (0, 1]. */
  lemma InsideBucket(sc: Scale, b: nat, num: int, rank: int, count: int)
    requires sc.segment > 0.0 && num - count < rank <= num
    ensures PointIn(sc, b, Interpolated(sc, b, num, rank, count))
  {
    var q := (num - rank) as real / count as real;
    assert 0.0 <= q < 1.0 by {
      var x, y := (num - rank) as real, count as real;
      assert 0.0 <= x < y;
      assert x / y * y == x;
    }
    MulLt(b as real, b as real + (1.0 - q), sc.segment);
    MulLe(b as real + (1.0 - q), b as real + 1.0, sc.segment);
  }
}
