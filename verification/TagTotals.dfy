/** Totals over the timers of one group of a tag report. */
module TagTotals {
  import opened Time
  import opened Types
  import opened Histogram
  import BaseReport

  datatype TimerField = Value | RuUtime | RuStime

  function Of(t: Timer, f: TimerField): Timeval {
    match f
    case Value => t.value
    case RuUtime => t.ruUtime
    case RuStime => t.ruStime
  }

  /** Stored timers were hit and carry normalised times, none of them out of range. */
  ghost predicate GoodTimer(t: Timer) {
    t.hitCount > 0 && Tracked(BaseReport.Seconds(t.value)) && forall f :: Normal(Of(t, f))
  }

  datatype Totals = Totals(hits: int, value: Timeval, ruUtime: Timeval, ruStime: Timeval, hist: map<nat, int>) {
    function Get(f: TimerField): Timeval {
      match f
      case Value => value
      case RuUtime => ruUtime
      case RuStime => ruStime
    }

    function Add(sc: Scale, t: Timer): Totals
      requires GoodScale(sc)
    {
      Totals(hits + t.hitCount, Plus(value, t.value), Plus(ruUtime, t.ruUtime), Plus(ruStime, t.ruStime),
             Update(sc, hist, BaseReport.Seconds(t.value), t.hitCount))
    }

    function Take(sc: Scale, t: Timer): Totals
      requires GoodScale(sc)
    {
      Totals(hits - t.hitCount, Minus(value, t.value), Minus(ruUtime, t.ruUtime), Minus(ruStime, t.ruStime),
             Update(sc, hist, BaseReport.Seconds(t.value), -(t.hitCount as int)))
    }
  }

  const NOTHING := Totals(0, ZERO, ZERO, ZERO, map[])

  /** A new group starts from its first timer. */
  function FirstTotals(sc: Scale, t: Timer): Totals
    requires GoodScale(sc)
  {
    Totals(t.hitCount, t.value, Plus(ZERO, t.ruUtime), Plus(ZERO, t.ruStime),
           Update(sc, map[], BaseReport.Seconds(t.value), t.hitCount))
  }

  ghost function Hits(ts: seq<Timer>): nat {
    if ts == [] then 0 else ts[0].hitCount + Hits(ts[1..])
  }

  ghost function Sum(ts: seq<Timer>, f: TimerField): int {
    if ts == [] then 0 else Micros(Of(ts[0], f)) + Sum(ts[1..], f)
  }

  ghost function SampleOf(t: Timer): Sample {
    Sample(PerHit(BaseReport.Seconds(t.value), t.hitCount), t.hitCount)
  }

  /** A timer's hits each took the same share of its value. */
  lemma SampleMeans(t: Timer)
    requires t.hitCount > 0
    ensures SampleOf(t).weight == t.hitCount
    ensures SampleOf(t).time * t.hitCount as real == Micros(t.value) as real / 1000000.0
  {
    PerHitTimesHits(BaseReport.Seconds(t.value), t.hitCount);
  }

  ghost function Samples(ts: seq<Timer>): (ss: seq<Sample>)
    ensures |ss| == |ts|
  {
    seq(|ts|, i requires 0 <= i < |ts| => SampleOf(ts[i]))
  }

  /** The totals are the sums over the timers, and the histogram weights each by its hits. */
  ghost predicate TotalsAre(sc: Scale, s: Totals, ts: seq<Timer>)
    requires GoodScale(sc)
  {
    && s.hits == Hits(ts)
    && (forall f :: s.Get(f) == FromMicros(Sum(ts, f)))
    && HistIs(sc, s.hist, Samples(ts))
  }

  lemma {:induction false} SumsAppend(ts: seq<Timer>, t: Timer, f: TimerField)
    ensures Hits(ts + [t]) == Hits(ts) + t.hitCount
    ensures Sum(ts + [t], f) == Sum(ts, f) + Micros(Of(t, f))
  {
    if ts == [] {
      assert (ts + [t])[1..] == [];
    } else {
      assert (ts + [t])[1..] == ts[1..] + [t];
      SumsAppend(ts[1..], t, f);
    }
  }

  lemma TotalsAdd(sc: Scale, s: Totals, ts: seq<Timer>, t: Timer)
    requires GoodScale(sc) && TotalsAre(sc, s, ts) && GoodTimer(t)
    ensures TotalsAre(sc, s.Add(sc, t), ts + [t])
  {
    forall f
      ensures s.Add(sc, t).Get(f) == FromMicros(Sum(ts + [t], f))
    {
      SumsAppend(ts, t, f);
      assert s.Get(f) == FromMicros(Sum(ts, f)) && Normal(Of(t, f));
      MicrosInjective(Plus(s.Get(f), Of(t, f)), FromMicros(Sum(ts + [t], f)));
    }
    SumsAppend(ts, t, Value);
    HistogramAdd(sc, s.hist, Samples(ts), BaseReport.Seconds(t.value), t.hitCount);
    assert Samples(ts + [t]) == Samples(ts) + [SampleOf(t)];
  }

  lemma TotalsTake(sc: Scale, s: Totals, ts: seq<Timer>, t: Timer)
    requires GoodScale(sc) && TotalsAre(sc, s, [t] + ts) && GoodTimer(t)
    ensures TotalsAre(sc, s.Take(sc, t), ts)
  {
    assert ([t] + ts)[1..] == ts;
    forall f
      ensures s.Take(sc, t).Get(f) == FromMicros(Sum(ts, f))
    {
      assert s.Get(f) == FromMicros(Sum([t] + ts, f)) && Normal(Of(t, f));
      MicrosInjective(Minus(s.Get(f), Of(t, f)), FromMicros(Sum(ts, f)));
    }
    assert Samples([t] + ts) == [SampleOf(t)] + Samples(ts);
    HistogramRemove(sc, s.hist, Samples(ts), BaseReport.Seconds(t.value), t.hitCount);
  }

  lemma TotalsFirst(sc: Scale, t: Timer)
    requires GoodScale(sc) && GoodTimer(t)
    ensures TotalsAre(sc, FirstTotals(sc, t), [t])
  {
    assert Normal(Of(t, Value)) && Normal(Of(t, RuUtime)) && Normal(Of(t, RuStime));
    MicrosInjective(Plus(ZERO, t.value), t.value);
    assert FirstTotals(sc, t) == NOTHING.Add(sc, t);
    TotalsAdd(sc, NOTHING, [], t);
    assert [] + [t] == [t];
  }
}
