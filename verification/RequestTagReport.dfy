/** The request-tag report grouped by host and tag value: one group per request, kept in a map
    of maps. */
module RequestTagReport {
  import opened Wrappers
  import opened Time
  import opened Types
  import opened Histogram
  import opened BaseReport
  import opened Stamps
  import opened BaseReportObject
  import opened NestedMap
  import opened Tags

  method FindRequestTag(p: Payload, name: string) returns (v: Option<string>)
    ensures v == TagValue(p.tags, name)
    ensures v.None? <==> forall j :: 0 <= j < |p.tags| ==> p.tags[j].0 != name
    ensures forall x :: v == Some(x) <==> FirstTag(p.tags, name, x)
  {
    TagValueIsFirst(p.tags, name);
    for j := 0 to |p.tags|
      invariant TagValue(p.tags, name) == TagValue(p.tags[j..], name)
    {
      if p.tags[j].0 == name {
        return Some(p.tags[j].1);
      }
      assert p.tags[j..][1..] == p.tags[j + 1..];
    }
    v := None;
  }

  function ValueOr(v: Option<string>, other: string): string {
    if v.Some? then v.value else other
  }

  class TagByHost {
    const name: string
    const cond: Payload -> bool
    const shape: Layout<(string, string)>
    const wanted: Payload -> bool
    var start: Timeval
    var startId: nat
    var results: Nested<Group>
    var resultsCnt: int
    var totals: Totals
    ghost var flat: Pairs<Group>

    function StampOf(): Stamp
      reads this
    {
      Stamp(start, startId)
    }

    /** The report wants the requests that meet its conditions and carry its tag, and groups
        them by host and value. */
    ghost predicate Configured() {
      && GoodScale(shape.sc) && shape.indexed
      && (forall p :: wanted(p) <==> cond(p) && TagValue(p.tags, name).Some?)
      && (forall p :: wanted(p) ==> shape.key(p) == (p.host, TagValue(p.tags, name).value))
    }

    ghost predicate Tidy()
      reads this
    {
      Configured() && IsFlat(flat, results) && NoEmpty(results) && resultsCnt == |flat|
    }

    ghost function Aggregate(): State<(string, string)>
      reads this
    {
      State(flat, resultsCnt, totals, map[])
    }

    /** Flattened, the report is the fold over the live requests it counts. */
    ghost predicate Represents(live: seq<Entry>)
      reads this
    {
      Tidy() && Counts(shape, Aggregate(), Payloads(Selected(StampOf(), wanted, live)))
    }

    constructor (name: string, sc: Scale, cond: Payload -> bool)
      requires GoodScale(sc)
      ensures this.name == name && this.cond == cond && Unstamped(StampOf()) && forall live :: Represents(live)
    {
      this.name, this.cond := name, cond;
      shape := Layout(true, (p: Payload) => (p.host, ValueOr(TagValue(p.tags, name), "")), sc);
      wanted := (p: Payload) => cond(p) && TagValue(p.tags, name).Some?;
      start, startId, results, resultsCnt, totals, flat := ZERO, 0, map[], 0, NO_TIME, map[];
      new;
      EmptyCounts(shape);
      forall live
        ensures Represents(live)
      {
        NoneSelected(StampOf(), wanted, live);
      }
    }

    method Store(host: string, word: string, g: Group)
      requires Tidy()
      modifies this
      ensures Tidy() && StampOf() == old(StampOf()) && totals == old(totals) && flat == old(flat)[(host, word) := g]
    {
      assert PairIs(flat, results, host, word);
      FlatPut(flat, results, host, word, g);
      if word !in Inner(results, host) {
        resultsCnt := resultsCnt + 1;
      }
      results := results[host := Inner(results, host)[word := g]];
      flat := flat[(host, word) := g];
    }

    method Remove(host: string, word: string)
      requires Tidy() && host in results && word in results[host]
      modifies this
      ensures Tidy() && StampOf() == old(StampOf()) && totals == old(totals) && flat == old(flat) - {(host, word)}
    {
      assert PairIs(flat, results, host, word);
      FlatDrop(flat, results, host, word);
      results := Drop(results, host, word);
      flat := flat - {(host, word)};
      resultsCnt := resultsCnt - 1;
    }

    method Add(p: Payload)
      requires Tidy() && cond(p)
      modifies this
      ensures Tidy() && StampOf() == old(StampOf())
      ensures Aggregate() == if wanted(p) then AddTo(shape, old(Aggregate()), p) else old(Aggregate())
    {
      var v := FindRequestTag(p, name);
      if v == None {
        return;
      }
      var word := v.value;
      assert PairIs(flat, results, p.host, word);
      var inner := Inner(results, p.host);
      var g := if word in inner then inner[word] else NEW_GROUP;
      totals := totals.Plus(p);
      Store(p.host, word, Group(g.reqCount + 1, g.totals.Plus(p), Update(shape.sc, g.hist, Seconds(p.reqTime), 1)));
    }

    method Delete(e: Entry)
      requires Tidy() && cond(e.data)
      modifies this
      ensures Tidy() && StampOf() == old(StampOf())
      ensures Aggregate() == if Before(old(StampOf()), e) || !wanted(e.data) || shape.key(e.data) !in old(flat)
                             then old(Aggregate()) else RemoveFrom(shape, old(Aggregate()), e.data)
    {
      if Before(StampOf(), e) {
        return;
      }
      var p := e.data;
      var v := FindRequestTag(p, name);
      if v == None {
        return;
      }
      var word := v.value;
      assert PairIs(flat, results, p.host, word);
      if p.host !in results || word !in results[p.host] {
        return;
      }
      totals := totals.Minus(p);
      var g := results[p.host][word];
      if g.reqCount == 1 {
        Remove(p.host, word);
      } else {
        Store(p.host, word, Group(g.reqCount - 1, g.totals.Minus(p), Update(shape.sc, g.hist, Seconds(p.reqTime), -1)));
      }
    }

    /** The add job of a batch that carries request tags. */
    method AddBatch(es: seq<Entry>, ghost live: seq<Entry>)
      requires Represents(live) && GoodEntries(es) && es != []
      requires InOrder(live + es) && AllAbove(StampOf(), es)
      modifies this
      ensures Represents(live + es)
      ensures StampOf() == Stamped(old(StampOf()), StampFrom(es[0])) && AllAbove(StampOf(), es) && !Unstamped(StampOf())
    {
      StampDrawsTheLine(StampOf(), wanted, live, es);
      if start.sec == 0 {
        start, startId := es[0].time, es[0].counter;
      }
      assert live + es[..0] == live;
      for i := 0 to |es|
        invariant StampOf() == Stamped(old(StampOf()), StampFrom(es[0]))
        invariant Represents(live + es[..i])
      {
        AddOne(es[i], live + es[..i]);
        assert live + es[..i] + [es[i]] == live + es[..i + 1];
      }
      assert es[..|es|] == es;
    }

    /** The delete job of an expired prefix. */
    method DeleteBatch(es: seq<Entry>, ghost live: seq<Entry>)
      requires Represents(es + live) && GoodEntries(es)
      modifies this
      ensures Represents(live) && StampOf() == old(StampOf())
    {
      for i := 0 to |es|
        invariant StampOf() == old(StampOf())
        invariant Represents(es[i..] + live)
      {
        assert es[i..] + live == [es[i]] + (es[i + 1..] + live);
        DeleteOne(es[i], es[i + 1..] + live);
      }
      assert es[|es|..] + live == live;
    }

    method AddOne(e: Entry, ghost live: seq<Entry>)
      requires Represents(live) && GoodPayload(e.data) && !Unstamped(StampOf()) && !Before(StampOf(), e)
      modifies this
      ensures Represents(live + [e]) && StampOf() == old(StampOf())
    {
      SelectedConcat(StampOf(), wanted, live, [e]);
      SelectedOne(StampOf(), wanted, e);
      ghost var ms := Selected(StampOf(), wanted, live);
      if wanted(e.data) {
        AddExtendsFold(shape, Aggregate(), Payloads(ms), e.data);
        assert Payloads(ms + [e]) == Payloads(ms) + [e.data];
      } else {
        assert ms + [] == ms;
      }
      if cond(e.data) {
        Add(e.data);
      }
    }

    method DeleteOne(e: Entry, ghost live: seq<Entry>)
      requires Represents([e] + live) && GoodPayload(e.data)
      modifies this
      ensures Represents(live) && StampOf() == old(StampOf())
    {
      SelectedConcat(StampOf(), wanted, [e], live);
      SelectedOne(StampOf(), wanted, e);
      ghost var ms := Selected(StampOf(), wanted, live);
      if Counted(StampOf(), wanted, e) {
        assert Payloads([e] + ms) == [e.data] + Payloads(ms);
        RemoveShrinksFold(shape, Aggregate(), Payloads(ms), e.data);
      } else {
        assert [] + ms == ms;
        if Unstamped(StampOf()) {
          UnstampedIsEmpty(StampOf(), wanted, live);
          EmptyFold(shape, Aggregate());
        }
      }
      if cond(e.data) {
        Delete(e);
      }
    }
  }
}
