/** Base reports: totals per group, maintained by adding admitted requests and subtracting
    expired ones. */
module BaseReport {
  import opened Time
  import opened Types
  import opened Histogram

  datatype Field = ReqTime | RuUtime | RuStime

  function Of(p: Payload, f: Field): Timeval {
    match f
    case ReqTime => p.reqTime
    case RuUtime => p.ruUtime
    case RuStime => p.ruStime
  }

  /** Times are stored normalised. */
  ghost predicate GoodPayload(p: Payload) {
    Tracked(Seconds(p.reqTime)) && forall f :: Normal(Of(p, f))
  }

  function Seconds(t: Timeval): real {
    t.sec as real + t.usec as real / 1000000.0
  }

  datatype Totals = Totals(reqTime: Timeval, ruUtime: Timeval, ruStime: Timeval) {
    function Get(f: Field): Timeval {
      match f
      case ReqTime => reqTime
      case RuUtime => ruUtime
      case RuStime => ruStime
    }

    function Plus(p: Payload): Totals {
      Totals(Time.Plus(reqTime, p.reqTime), Time.Plus(ruUtime, p.ruUtime), Time.Plus(ruStime, p.ruStime))
    }

    function Minus(p: Payload): Totals {
      Totals(Time.Minus(reqTime, p.reqTime), Time.Minus(ruUtime, p.ruUtime), Time.Minus(ruStime, p.ruStime))
    }
  }

  const NO_TIME := Totals(ZERO, ZERO, ZERO)

  datatype Group = Group(reqCount: int, totals: Totals, hist: map<nat, int>)

  const NEW_GROUP := Group(0, NO_TIME, map[])

  /** The aggregate part of a report; `indexed` reports keep groups, the others one histogram. */
  datatype State<K> = State(results: map<K, Group>, resultsCnt: int, totals: Totals, hist: map<nat, int>)

  function Empty<K>(): State<K> {
    State(map[], 0, NO_TIME, map[])
  }

  datatype Layout<!K> = Layout(indexed: bool, key: Payload -> K, sc: Scale)

  // ---- The reference: folds over the counted requests ----

  ghost function Sum(ms: seq<Payload>, f: Field): int {
    if ms == [] then 0 else Micros(Of(ms[0], f)) + Sum(ms[1..], f)
  }

  ghost function Samples(ms: seq<Payload>): (ss: seq<Sample>)
    ensures |ss| == |ms|
  {
    seq(|ms|, i requires 0 <= i < |ms| => Sample(Seconds(ms[i].reqTime), 1))
  }

  ghost function Members<K>(sh: Layout<K>, ms: seq<Payload>, k: K): seq<Payload> {
    if ms == [] then []
    else (if sh.key(ms[0]) == k then [ms[0]] else []) + Members(sh, ms[1..], k)
  }

  ghost predicate TotalsAre(t: Totals, ms: seq<Payload>) {
    forall f :: t.Get(f) == FromMicros(Sum(ms, f))
  }

  ghost predicate GroupIs<K>(sh: Layout<K>, g: Group, ms: seq<Payload>)
    requires GoodScale(sh.sc)
  {
    g.reqCount == |ms| && TotalsAre(g.totals, ms) && HistIs(sh.sc, g.hist, Samples(ms))
  }

  /** Group `k` exists exactly if some counted request has that key, and then totals them. */
  ghost predicate KeyIs<K>(sh: Layout<K>, results: map<K, Group>, ms: seq<Payload>, k: K)
    requires GoodScale(sh.sc)
  {
    if Members(sh, ms, k) == [] then k !in results
    else k in results && GroupIs(sh, results[k], Members(sh, ms, k))
  }

  /** The report is the fold over the counted requests `ms`. */
  ghost predicate Counts<K(!new)>(sh: Layout<K>, s: State<K>, ms: seq<Payload>)
    requires GoodScale(sh.sc)
  {
    && TotalsAre(s.totals, ms)
    && if sh.indexed then s.resultsCnt == |s.results| && forall k :: KeyIs(sh, s.results, ms, k)
       else s.resultsCnt == |ms| && HistIs(sh.sc, s.hist, Samples(ms))
  }

  // ---- What the report functions do ----

  function AddTo<K(==)>(sh: Layout<K>, s: State<K>, p: Payload): State<K>
    requires GoodScale(sh.sc)
  {
    var t := s.(totals := s.totals.Plus(p));
    if !sh.indexed then
      t.(resultsCnt := t.resultsCnt + 1, hist := Update(sh.sc, t.hist, Seconds(p.reqTime), 1))
    else
      var k := sh.key(p);
      var g := if k in t.results then t.results[k] else NEW_GROUP;
      var cnt := if k in t.results then t.resultsCnt else t.resultsCnt + 1;
      var g' := Group(g.reqCount + 1, g.totals.Plus(p), Update(sh.sc, g.hist, Seconds(p.reqTime), 1));
      t.(results := t.results[k := g'], resultsCnt := cnt)
  }

  function RemoveFrom<K(==)>(sh: Layout<K>, s: State<K>, p: Payload): State<K>
    requires GoodScale(sh.sc)
  {
    if s.resultsCnt == 0 then s
    else
      var t := s.(totals := s.totals.Minus(p));
      if !sh.indexed then
        t.(resultsCnt := t.resultsCnt - 1, hist := Update(sh.sc, t.hist, Seconds(p.reqTime), -1))
      else
        var k := sh.key(p);
        if k !in t.results then t
        else
          var g := t.results[k];
          if g.reqCount == 1 then
            t.(results := t.results - {k}, resultsCnt := t.resultsCnt - 1)
          else
            var g' := Group(g.reqCount - 1, g.totals.Minus(p), Update(sh.sc, g.hist, Seconds(p.reqTime), -1));
            t.(results := t.results[k := g'])
  }

  // ---- They maintain the fold ----

  lemma {:induction false} SumAppend(ms: seq<Payload>, p: Payload, f: Field)
    ensures Sum(ms + [p], f) == Sum(ms, f) + Micros(Of(p, f))
  {
    if ms == [] {
      assert (ms + [p])[1..] == [];
    } else {
      assert (ms + [p])[1..] == ms[1..] + [p];
      SumAppend(ms[1..], p, f);
    }
  }

  lemma {:induction false} MembersAppend<K>(sh: Layout<K>, ms: seq<Payload>, p: Payload, k: K)
    ensures Members(sh, ms + [p], k) == Members(sh, ms, k) + if sh.key(p) == k then [p] else []
  {
    if ms == [] {
      assert (ms + [p])[1..] == [];
    } else {
      assert (ms + [p])[1..] == ms[1..] + [p];
      MembersAppend(sh, ms[1..], p, k);
    }
  }

  lemma TotalsAdd(t: Totals, ms: seq<Payload>, p: Payload)
    requires TotalsAre(t, ms) && GoodPayload(p)
    ensures TotalsAre(t.Plus(p), ms + [p])
  {
    forall f
      ensures t.Plus(p).Get(f) == FromMicros(Sum(ms + [p], f))
    {
      SumAppend(ms, p, f);
      assert t.Get(f) == FromMicros(Sum(ms, f)) && Normal(Of(p, f));
      MicrosInjective(Time.Plus(t.Get(f), Of(p, f)), FromMicros(Sum(ms + [p], f)));
    }
  }

  lemma TotalsRemove(t: Totals, ms: seq<Payload>, p: Payload)
    requires TotalsAre(t, [p] + ms) && GoodPayload(p)
    ensures TotalsAre(t.Minus(p), ms)
  {
    forall f
      ensures t.Minus(p).Get(f) == FromMicros(Sum(ms, f))
    {
      assert ([p] + ms)[1..] == ms;
      assert t.Get(f) == FromMicros(Sum([p] + ms, f)) && Normal(Of(p, f));
      MicrosInjective(Time.Minus(t.Get(f), Of(p, f)), FromMicros(Sum(ms, f)));
    }
  }

  lemma GroupAdd<K>(sh: Layout<K>, g: Group, ms: seq<Payload>, p: Payload)
    requires GoodScale(sh.sc) && GroupIs(sh, g, ms) && GoodPayload(p)
    ensures GroupIs(sh, Group(g.reqCount + 1, g.totals.Plus(p), Update(sh.sc, g.hist, Seconds(p.reqTime), 1)), ms + [p])
  {
    TotalsAdd(g.totals, ms, p);
    HistogramAdd(sh.sc, g.hist, Samples(ms), Seconds(p.reqTime), 1);
    assert Samples(ms + [p]) == Samples(ms) + [Sample(Seconds(p.reqTime), 1)];
  }

  lemma GroupRemove<K>(sh: Layout<K>, g: Group, ms: seq<Payload>, p: Payload)
    requires GoodScale(sh.sc) && GroupIs(sh, g, [p] + ms) && GoodPayload(p)
    ensures GroupIs(sh, Group(g.reqCount - 1, g.totals.Minus(p), Update(sh.sc, g.hist, Seconds(p.reqTime), -1)), ms)
  {
    TotalsRemove(g.totals, ms, p);
    assert Samples([p] + ms) == [Sample(Seconds(p.reqTime), 1)] + Samples(ms);
    HistogramRemove(sh.sc, g.hist, Samples(ms), Seconds(p.reqTime), 1);
  }

  lemma NewGroupIsEmpty<K>(sh: Layout<K>)
    requires GoodScale(sh.sc)
    ensures GroupIs(sh, NEW_GROUP, [])
  {
  }

  /** Admission: adding a request extends the fold. */
  lemma AddExtendsFold<K(!new)>(sh: Layout<K>, s: State<K>, ms: seq<Payload>, p: Payload)
    requires GoodScale(sh.sc) && Counts(sh, s, ms) && GoodPayload(p)
    ensures Counts(sh, AddTo(sh, s, p), ms + [p])
  {
    TotalsAdd(s.totals, ms, p);
    if !sh.indexed {
      HistogramAdd(sh.sc, s.hist, Samples(ms), Seconds(p.reqTime), 1);
      assert Samples(ms + [p]) == Samples(ms) + [Sample(Seconds(p.reqTime), 1)];
    } else {
      forall k
        ensures KeyIs(sh, AddTo(sh, s, p).results, ms + [p], k)
      {
        AddKeepsKey(sh, s, ms, p, k);
      }
    }
  }

  lemma AddKeepsKey<K>(sh: Layout<K>, s: State<K>, ms: seq<Payload>, p: Payload, k: K)
    requires GoodScale(sh.sc) && sh.indexed && GoodPayload(p) && KeyIs(sh, s.results, ms, k)
    ensures KeyIs(sh, AddTo(sh, s, p).results, ms + [p], k)
  {
    MembersAppend(sh, ms, p, k);
    if sh.key(p) != k {
      assert Members(sh, ms + [p], k) == Members(sh, ms, k);
    } else {
      if k in s.results {
        GroupAdd(sh, s.results[k], Members(sh, ms, k), p);
      } else {
        NewGroupIsEmpty(sh);
        GroupAdd(sh, NEW_GROUP, [], p);
        assert [] + [p] == Members(sh, ms + [p], k);
      }
    }
  }

  /** Expiry: subtracting the oldest counted request leaves the fold over the others. The
      group looked up is always there. */
  lemma RemoveShrinksFold<K(!new)>(sh: Layout<K>, s: State<K>, ms: seq<Payload>, p: Payload)
    requires GoodScale(sh.sc) && Counts(sh, s, [p] + ms) && GoodPayload(p)
    ensures s.resultsCnt > 0 && (sh.indexed ==> sh.key(p) in s.results)
    ensures Counts(sh, RemoveFrom(sh, s, p), ms)
  {
    TotalsRemove(s.totals, ms, p);
    if !sh.indexed {
      assert Samples([p] + ms) == [Sample(Seconds(p.reqTime), 1)] + Samples(ms);
      HistogramRemove(sh.sc, s.hist, Samples(ms), Seconds(p.reqTime), 1);
    } else {
      assert KeyIs(sh, s.results, [p] + ms, sh.key(p));
      assert s.results != map[];
      forall k
        ensures KeyIs(sh, RemoveFrom(sh, s, p).results, ms, k)
      {
        assert KeyIs(sh, s.results, [p] + ms, k);
        RemoveKeepsKey(sh, s, ms, p, k);
      }
    }
  }

  lemma RemoveKeepsKey<K>(sh: Layout<K>, s: State<K>, ms: seq<Payload>, p: Payload, k: K)
    requires GoodScale(sh.sc) && sh.indexed && GoodPayload(p) && s.resultsCnt != 0
    requires KeyIs(sh, s.results, [p] + ms, k)
    ensures KeyIs(sh, RemoveFrom(sh, s, p).results, ms, k)
  {
    assert ([p] + ms)[1..] == ms;
    if sh.key(p) != k {
      assert Members(sh, [p] + ms, k) == Members(sh, ms, k);
    } else {
      GroupRemove(sh, s.results[k], Members(sh, ms, k), p);
    }
  }

  lemma EmptyCounts<K(!new)>(sh: Layout<K>)
    requires GoodScale(sh.sc)
    ensures Counts(sh, Empty<K>(), [])
  {
  }

  /** Totalling the requests from scratch. */
  ghost function Recomputed<K>(sh: Layout<K>, ms: seq<Payload>): State<K>
    requires GoodScale(sh.sc)
  {
    if ms == [] then Empty<K>() else AddTo(sh, Recomputed(sh, ms[..|ms| - 1]), ms[|ms| - 1])
  }

  lemma {:induction false} RecomputedCounts<K(!new)>(sh: Layout<K>, ms: seq<Payload>)
    requires GoodScale(sh.sc) && forall i :: 0 <= i < |ms| ==> GoodPayload(ms[i])
    ensures Counts(sh, Recomputed(sh, ms), ms)
  {
    if ms == [] {
      EmptyCounts(sh);
    } else {
      var n := |ms| - 1;
      RecomputedCounts(sh, ms[..n]);
      AddExtendsFold(sh, Recomputed(sh, ms[..n]), ms[..n], ms[n]);
      assert ms[..n] + [ms[n]] == ms;
    }
  }

  lemma HistDetermined(sc: Scale, h: map<nat, int>, h': map<nat, int>, ss: seq<Sample>)
    requires GoodScale(sc) && HistIs(sc, h, ss) && HistIs(sc, h', ss)
    ensures h == h'
  {
    forall b
      ensures (b in h <==> b in h') && (b in h ==> h[b] == h'[b])
    {
      assert At(h, b) == WeightIn(sc, ss, b) == At(h', b);
    }
  }

  lemma TotalsDetermined(t: Totals, t': Totals, ms: seq<Payload>)
    requires TotalsAre(t, ms) && TotalsAre(t', ms)
    ensures t == t'
  {
    assert t.Get(ReqTime) == t'.Get(ReqTime) && t.Get(RuUtime) == t'.Get(RuUtime) && t.Get(RuStime) == t'.Get(RuStime);
  }

  /** The fold determines every visible part of the report, so a report maintained
      incrementally is the report computed from scratch. */
  lemma IncrementalIsRecomputed<K(!new)>(sh: Layout<K>, s: State<K>, ms: seq<Payload>)
    requires GoodScale(sh.sc) && Counts(sh, s, ms)
    requires forall i :: 0 <= i < |ms| ==> GoodPayload(ms[i])
    ensures var r := Recomputed(sh, ms);
            && s.totals == r.totals && s.resultsCnt == r.resultsCnt
            && if sh.indexed then s.results == r.results else s.hist == r.hist
  {
    var r := Recomputed(sh, ms);
    RecomputedCounts(sh, ms);
    TotalsDetermined(s.totals, r.totals, ms);
    if !sh.indexed {
      HistDetermined(sh.sc, s.hist, r.hist, Samples(ms));
    } else {
      forall k
        ensures (k in s.results <==> k in r.results) && (k in s.results ==> s.results[k] == r.results[k])
      {
        assert KeyIs(sh, s.results, ms, k) && KeyIs(sh, r.results, ms, k);
        if k in s.results {
          var mk := Members(sh, ms, k);
          TotalsDetermined(s.results[k].totals, r.results[k].totals, mk);
          HistDetermined(sh.sc, s.results[k].hist, r.results[k].hist, Samples(mk));
        }
      }
      assert s.results == r.results;
    }
  }

  // What a report says about the number of requests it counts.

  ghost function Keys<K>(sh: Layout<K>, ms: seq<Payload>): (ks: seq<K>)
    ensures |ks| == |ms|
  {
    if ms == [] then [] else [sh.key(ms[0])] + Keys(sh, ms[1..])
  }

  lemma {:induction false} MembersAreMultiplicity<K>(sh: Layout<K>, ms: seq<Payload>, k: K)
    ensures |Members(sh, ms, k)| == multiset(Keys(sh, ms))[k]
  {
    if ms != [] {
      MembersAreMultiplicity(sh, ms[1..], k);
    }
  }

  /** A report cannot be the fold over two sequences of different length. */
  lemma CountsDeterminesNumber<K(!new)>(sh: Layout<K>, s: State<K>, ms: seq<Payload>, ms': seq<Payload>)
    requires GoodScale(sh.sc) && Counts(sh, s, ms) && Counts(sh, s, ms')
    ensures |ms| == |ms'|
  {
    if sh.indexed {
      forall k ensures multiset(Keys(sh, ms))[k] == multiset(Keys(sh, ms'))[k] {
        assert KeyIs(sh, s.results, ms, k) && KeyIs(sh, s.results, ms', k);
        MembersAreMultiplicity(sh, ms, k);
        MembersAreMultiplicity(sh, ms', k);
      }
      assert multiset(Keys(sh, ms)) == multiset(Keys(sh, ms'));
      assert |multiset(Keys(sh, ms))| == |multiset(Keys(sh, ms'))|;
    }
  }
}
