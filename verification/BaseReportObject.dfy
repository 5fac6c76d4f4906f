/** The base report as the engine keeps it: an object updated in place by report jobs. */
module BaseReportObject {
  import opened Time
  import opened Types
  import opened Histogram
  import opened BaseReport
  import opened Stamps

  ghost function Payloads(es: seq<Entry>): (ps: seq<Payload>)
    ensures |ps| == |es|
  {
    seq(|es|, i requires 0 <= i < |es| => es[i].data)
  }

  ghost predicate GoodEntries(es: seq<Entry>) {
    forall i :: 0 <= i < |es| ==> GoodPayload(es[i].data)
  }

  class Report {
    const shape: Layout<string>
    const cond: Payload -> bool
    var start: Timeval
    var startId: nat
    var results: map<string, Group>
    var resultsCnt: int
    var totals: Totals
    var hist: map<nat, int>
    ghost var spoiled: bool

    ghost function Aggregate(): State<string>
      reads this
    {
      State(results, resultsCnt, totals, hist)
    }

    function StampOf(): Stamp
      reads this
    {
      Stamp(start, startId)
    }

    /** The report is the fold over the live requests it counts. */
    ghost predicate Represents(live: seq<Entry>)
      reads this
    {
      && GoodScale(shape.sc)
      && Counts(shape, Aggregate(), Payloads(Selected(StampOf(), cond, live)))
    }

    /** Unless its start was drawn wrong, the report is the fold. */
    ghost predicate Sound(live: seq<Entry>)
      reads this
    {
      GoodScale(shape.sc) && (!spoiled ==> Represents(live))
    }

    constructor (shape: Layout<string>, cond: Payload -> bool)
      requires GoodScale(shape.sc)
      ensures this.shape == shape && this.cond == cond
      ensures StampOf() == Stamp(ZERO, 0) && Aggregate() == Empty<string>() && !spoiled
      ensures forall live :: Represents(live)
    {
      this.shape := shape;
      this.cond := cond;
      start, startId := ZERO, 0;
      results, resultsCnt, totals, hist := map[], 0, NO_TIME, map[];
      spoiled := false;
      new;
      EmptyCounts(shape);
      forall live
        ensures Represents(live)
      {
        NoneSelected(StampOf(), cond, live);
      }
    }

    method Add(p: Payload)
      requires GoodScale(shape.sc)
      modifies this
      ensures Aggregate() == AddTo(shape, old(Aggregate()), p) && StampOf() == old(StampOf()) && spoiled == old(spoiled)
    {
      totals := totals.Plus(p);
      if !shape.indexed {
        resultsCnt := resultsCnt + 1;
        hist := Update(shape.sc, hist, Seconds(p.reqTime), 1);
      } else {
        var k := shape.key(p);
        if k !in results {
          results := results[k := NEW_GROUP];
          resultsCnt := resultsCnt + 1;
        }
        var g := results[k];
        g := g.(reqCount := g.reqCount + 1);
        g := g.(totals := g.totals.Plus(p));
        g := g.(hist := Update(shape.sc, g.hist, Seconds(p.reqTime), 1));
        results := results[k := g];
      }
    }

    method Delete(e: Entry)
      requires GoodScale(shape.sc)
      modifies this
      ensures StampOf() == old(StampOf()) && spoiled == old(spoiled)
      ensures Aggregate() == if old(resultsCnt) == 0 || Before(old(StampOf()), e)
                             then old(Aggregate()) else RemoveFrom(shape, old(Aggregate()), e.data)
    {
      if resultsCnt == 0 {
        return;
      }
      if Before(StampOf(), e) {
        return;
      }
      var p := e.data;
      totals := totals.Minus(p);
      if !shape.indexed {
        resultsCnt := resultsCnt - 1;
        hist := Update(shape.sc, hist, Seconds(p.reqTime), -1);
      } else {
        var k := shape.key(p);
        if k in results {
          var g := results[k];
          if g.reqCount == 1 {
            results := results - {k};
            resultsCnt := resultsCnt - 1;
          } else {
            g := g.(reqCount := g.reqCount - 1);
            g := g.(totals := g.totals.Minus(p));
            g := g.(hist := Update(shape.sc, g.hist, Seconds(p.reqTime), -1));
            results := results[k := g];
          }
        }
      }
    }

    /** The add job of a batch; `at` is what the slot at the `in` cursor offers as a start. The
        report stays the fold exactly if the line it draws is right. */
    method AddBatch(es: seq<Entry>, at: Stamp, ghost live: seq<Entry>)
      requires Sound(live) && GoodEntries(es) && InOrder(live + es)
      requires es != [] ==> at == StampFrom(es[0])
      modifies this
      ensures StampOf() == Stamped(old(StampOf()), at)
      ensures !old(spoiled) ==> (Represents(live + es) <==> LineRight(old(StampOf()), at, cond, live, es))
      ensures spoiled <==> old(spoiled) || !LineRight(old(StampOf()), at, cond, live, es)
      ensures Sound(live + es) && Aggregate() == AddSelected(shape, old(Aggregate()), cond, es, |es|)
    {
      ghost var st, s := StampOf(), Aggregate();
      AddMatching(es);
      if start.sec == 0 {
        start, startId := at.start, at.startId;
      }
      if !spoiled {
        BatchCounted(shape, s, Aggregate(), st, at, cond, live, es);
      }
      spoiled := spoiled || !LineRight(st, at, cond, live, es);
    }

    /** The job's loop: every request that meets the conditions is added. */
    method AddMatching(es: seq<Entry>)
      requires GoodScale(shape.sc)
      modifies this
      ensures StampOf() == old(StampOf()) && spoiled == old(spoiled)
      ensures Aggregate() == AddSelected(shape, old(Aggregate()), cond, es, |es|)
    {
      ghost var s := Aggregate();
      for i := 0 to |es|
        invariant StampOf() == old(StampOf()) && spoiled == old(spoiled)
        invariant Aggregate() == AddSelected(shape, s, cond, es, i)
      {
        if cond(es[i].data) {
          Add(es[i].data);
        }
      }
    }

    /** The delete job of an expired prefix. */
    method DeleteBatch(es: seq<Entry>, ghost live: seq<Entry>)
      requires Sound(es + live) && GoodEntries(es)
      modifies this
      ensures Sound(live) && StampOf() == old(StampOf()) && spoiled == old(spoiled)
      ensures Aggregate() == DeleteSelected(shape, old(Aggregate()), StampOf(), cond, es, |es|)
    {
      ghost var st, s := StampOf(), Aggregate();
      for i := 0 to |es|
        invariant StampOf() == st && spoiled == old(spoiled)
        invariant Sound(es[i..] + live) && Aggregate() == DeleteSelected(shape, s, st, cond, es, i)
      {
        assert es[i..] + live == [es[i]] + (es[i + 1..] + live);
        DeleteOne(es[i], es[i + 1..] + live);
      }
      assert es[|es|..] + live == live;
    }

    method DeleteOne(e: Entry, ghost live: seq<Entry>)
      requires Sound([e] + live) && GoodPayload(e.data)
      modifies this
      ensures Sound(live) && StampOf() == old(StampOf()) && spoiled == old(spoiled)
      ensures Aggregate() == DeleteOneFrom(shape, old(Aggregate()), StampOf(), cond, e)
    {
      if !spoiled { OneExpired(shape, Aggregate(), StampOf(), cond, live, e); }
      if cond(e.data) {
        Delete(e);
      }
    }
  }

  /** A report after the add job has come to request `n`. */
  ghost function AddSelected<K>(sh: Layout<K>, s: State<K>, cond: Payload -> bool, es: seq<Entry>, n: nat): State<K>
    requires GoodScale(sh.sc) && n <= |es|
  {
    if n == 0 then s
    else
      var t := AddSelected(sh, s, cond, es, n - 1);
      if cond(es[n - 1].data) then AddTo(sh, t, es[n - 1].data) else t
  }

  /** A report after the delete job has come to one request: one that the conditions or the start
      rule out is passed over, and an empty report has nothing to subtract from. */
  ghost function DeleteOneFrom<K>(sh: Layout<K>, s: State<K>, st: Stamp, cond: Payload -> bool, e: Entry): State<K>
    requires GoodScale(sh.sc)
  {
    if !cond(e.data) || s.resultsCnt == 0 || Before(st, e) then s else RemoveFrom(sh, s, e.data)
  }

  ghost function DeleteSelected<K>(sh: Layout<K>, s: State<K>, st: Stamp, cond: Payload -> bool, es: seq<Entry>, n: nat): State<K>
    requires GoodScale(sh.sc) && n <= |es|
  {
    if n == 0 then s else DeleteOneFrom(sh, DeleteSelected(sh, s, st, cond, es, n - 1), st, cond, es[n - 1])
  }

  /** The add job extends the fold by the matching requests. */
  lemma {:induction false} AddSelectedExtendsFold<K(!new)>(sh: Layout<K>, s: State<K>, cond: Payload -> bool,
                                                           before: seq<Entry>, es: seq<Entry>, n: nat)
    requires GoodScale(sh.sc) && Counts(sh, s, Payloads(before)) && GoodEntries(es) && n <= |es|
    ensures Counts(sh, AddSelected(sh, s, cond, es, n), Payloads(before + Matching(cond, es[..n])))
  {
    if n == 0 {
      assert before + Matching(cond, es[..0]) == before;
    } else {
      AddSelectedExtendsFold(sh, s, cond, before, es, n - 1);
      var all, e := before + Matching(cond, es[..n - 1]), es[n - 1];
      assert es[..n] == es[..n - 1] + [e];
      MatchingNext(cond, es[..n - 1], e);
      if cond(e.data) {
        AddExtendsFold(sh, AddSelected(sh, s, cond, es, n - 1), Payloads(all), e.data);
        assert Payloads(all + [e]) == Payloads(all) + [e.data];
        assert all + [e] == before + Matching(cond, es[..n]);
      } else {
        assert all == before + Matching(cond, es[..n]);
      }
    }
  }

  /** Adding a batch leaves the fold over what the new start counts, exactly if the start is right. */
  lemma BatchCounted<K(!new)>(sh: Layout<K>, s: State<K>, s': State<K>, st: Stamp, at: Stamp, cond: Payload -> bool,
                              live: seq<Entry>, es: seq<Entry>)
    requires GoodScale(sh.sc) && Counts(sh, s, Payloads(Selected(st, cond, live))) && GoodEntries(es)
    requires InOrder(live + es) && (es != [] ==> at == StampFrom(es[0]))
    requires s' == AddSelected(sh, s, cond, es, |es|)
    ensures Counts(sh, s', Payloads(Selected(Stamped(st, at), cond, live + es))) <==> LineRight(st, at, cond, live, es)
  {
    var before, more := Selected(st, cond, live), Matching(cond, es);
    var counted := Selected(Stamped(st, at), cond, live + es);
    AddSelectedExtendsFold(sh, s, cond, before, es, |es|);
    assert es[..|es|] == es;
    LineExact(st, at, cond, live, es);
    if Counts(sh, s', Payloads(counted)) {
      CountsDeterminesNumber(sh, s', Payloads(counted), Payloads(before + more));
    }
  }

  /** The oldest request leaves: subtracted if it was counted, ignored if it came before the start. */
  lemma OneExpired<K(!new)>(sh: Layout<K>, s: State<K>, st: Stamp, cond: Payload -> bool, live: seq<Entry>, e: Entry)
    requires GoodScale(sh.sc) && GoodPayload(e.data) && Counts(sh, s, Payloads(Selected(st, cond, [e] + live)))
    ensures Counts(sh, DeleteOneFrom(sh, s, st, cond, e), Payloads(Selected(st, cond, live)))
  {
    SelectedConcat(st, cond, [e], live);
    SelectedOne(st, cond, e);
    var ms := Selected(st, cond, live);
    if Counted(st, cond, e) {
      assert Payloads([e] + ms) == [e.data] + Payloads(ms);
      RemoveShrinksFold(sh, s, Payloads(ms), e.data);
    } else {
      assert [] + ms == ms;
      if Unstamped(st) { UnstampedIsEmpty(st, cond, live); EmptyFold(sh, s); }
    }
  }

  lemma UnstampedIsEmpty(st: Stamp, cond: Payload -> bool, live: seq<Entry>)
    requires Unstamped(st)
    ensures Selected(st, cond, live) == []
  {
    NoneSelected(st, cond, live);
  }

  /** A report over no requests has nothing to subtract from. */
  lemma EmptyFold<K(!new)>(sh: Layout<K>, s: State<K>)
    requires GoodScale(sh.sc) && Counts(sh, s, [])
    ensures s.resultsCnt == 0
  {
    if sh.indexed {
      forall k
        ensures k !in s.results
      {
        assert KeyIs(sh, s.results, [], k);
      }
      assert s.results == map[];
    }
  }
}
