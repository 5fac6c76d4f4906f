/** Tag reports as the engine keeps them: the one-level report grouped by tag value, and the
    two-level report grouped by script and tag value. */
module TagReportObject {
  import opened Wrappers
  import opened Time
  import opened Types
  import opened Histogram
  import opened TagTotals
  import opened TagReport
  import opened Stamps
  import opened Tags

  method FindTag(timer: Timer, id: nat) returns (v: Option<string>)
    ensures v == TagValue(timer.tags, id)
    ensures v.None? <==> forall j :: 0 <= j < |timer.tags| ==> timer.tags[j].0 != id
    ensures forall x :: v == Some(x) <==> FirstTag(timer.tags, id, x)
  {
    TagValueIsFirst(timer.tags, id);
    for j := 0 to |timer.tags|
      invariant TagValue(timer.tags, id) == TagValue(timer.tags[j..], id)
    {
      if timer.tags[j].0 == id {
        return Some(timer.tags[j].1);
      }
      assert timer.tags[j..][1..] == timer.tags[j + 1..];
    }
    v := None;
  }

  ghost function TouchOf<K>(p: Payload, timer: Timer, id: nat, key: (Payload, string) -> K): seq<Touch<K>> {
    match TagValue(timer.tags, id)
    case None => []
    case Some(v) => [Touch(key(p, v), timer)]
  }

  /** The first `n` timers that match a report's tag, keyed by that tag's value. */
  ghost function Touches<K>(p: Payload, ts: seq<Timer>, n: nat, id: nat, key: (Payload, string) -> K): seq<Touch<K>>
    requires n <= |ts|
  {
    if n == 0 then [] else Touches(p, ts, n - 1, id, key) + TouchOf(p, ts[n - 1], id, key)
  }

  lemma AddTouchesNext<K>(sc: Scale, m: map<K, Group>, slot: nat, ts: seq<Touch<K>>, t: Touch<K>)
    requires GoodScale(sc)
    ensures AddTouches(sc, m, slot, ts + [t]) == AddTouch(sc, AddTouches(sc, m, slot, ts), slot, t)
    ensures TakeTouches(sc, m, slot, ts + [t]) == TakeTouch(sc, TakeTouches(sc, m, slot, ts), slot, t)
  {
    assert (ts + [t])[..|ts|] == ts;
  }

  ghost function ReqOf<K>(e: Entry, id: nat, key: (Payload, string) -> K): Req<K> {
    Req(e.slot, Touches(e.data, e.timers, |e.timers|, id, key))
  }

  ghost function Reqs<K>(es: seq<Entry>, id: nat, key: (Payload, string) -> K): (rs: seq<Req<K>>)
    ensures |rs| == |es|
  {
    seq(|es|, i requires 0 <= i < |es| => ReqOf(es[i], id, key))
  }

  ghost predicate GoodTimers(e: Entry) {
    forall j :: 0 <= j < |e.timers| ==> GoodTimer(e.timers[j])
  }

  lemma {:induction false} TouchesGood<K>(p: Payload, ts: seq<Timer>, n: nat, id: nat, key: (Payload, string) -> K)
    requires n <= |ts| && forall j :: 0 <= j < |ts| ==> GoodTimer(ts[j])
    ensures GoodTouches(Touches(p, ts, n, id, key))
  {
    if n > 0 { TouchesGood(p, ts, n - 1, id, key); }
  }

  ghost predicate DistinctSlots(live: seq<Entry>) {
    forall i, j :: 0 <= i < j < |live| ==> SlotsDiffer(live, i, j)
  }

  ghost predicate SlotsDiffer(live: seq<Entry>, i: nat, j: nat)
    requires i < |live| && j < |live|
  {
    live[i].slot != live[j].slot
  }

  lemma {:induction false} SelectedFrom(st: Stamp, cond: Payload -> bool, live: seq<Entry>, slot: nat)
    requires forall i :: 0 <= i < |live| ==> live[i].slot != slot
    ensures forall i :: 0 <= i < |Selected(st, cond, live)| ==> Selected(st, cond, live)[i].slot != slot
  {
    if live != [] {
      assert forall i :: 0 <= i < |live[1..]| ==> live[1..][i] == live[i + 1];
      SelectedFrom(st, cond, live[1..], slot);
    }
  }

  lemma SelectedFresh<K>(st: Stamp, cond: Payload -> bool, live: seq<Entry>, id: nat, key: (Payload, string) -> K, slot: nat)
    requires forall i :: 0 <= i < |live| ==> live[i].slot != slot
    ensures FreshSlot(Reqs(Selected(st, cond, live), id, key), slot)
  {
    SelectedFrom(st, cond, live, slot);
  }

  function ByValue(p: Payload, v: string): string {
    v
  }

  function ByScriptAndValue(p: Payload, v: string): (string, string) {
    (p.script, v)
  }

  // ---- One request of a batch, for any grouping ----

  ghost predicate Folded<K(!new)>(sc: Scale, m: map<K, Group>, st: Stamp, cond: Payload -> bool, live: seq<Entry>,
                                  id: nat, key: (Payload, string) -> K)
    requires GoodScale(sc)
  {
    TagReport.Represents(sc, m, Reqs(Selected(st, cond, live), id, key))
  }

  /** An admitted request that meets the conditions is added; one that does not is ignored. */
  lemma EntryAdded<K(!new)>(sc: Scale, m: map<K, Group>, st: Stamp, cond: Payload -> bool, live: seq<Entry>, e: Entry,
                            id: nat, key: (Payload, string) -> K)
    requires GoodScale(sc) && Folded(sc, m, st, cond, live, id, key) && GoodTimers(e)
    requires !Unstamped(st) && !Before(st, e) && forall i :: 0 <= i < |live| ==> live[i].slot != e.slot
    ensures Folded(sc, if cond(e.data) then AddTouches(sc, m, e.slot, ReqOf(e, id, key).touches) else m,
                   st, cond, live + [e], id, key)
  {
    var ms := Selected(st, cond, live);
    SelectedConcat(st, cond, live, [e]);
    SelectedOne(st, cond, e);
    if cond(e.data) {
      SelectedFresh(st, cond, live, id, key, e.slot);
      TouchesGood(e.data, e.timers, |e.timers|, id, key);
      AddExtendsFold(sc, m, Reqs(ms, id, key), e.slot, ReqOf(e, id, key).touches);
      assert Reqs(ms + [e], id, key) == Reqs(ms, id, key) + [ReqOf(e, id, key)];
    } else {
      assert ms + [] == ms;
    }
  }

  lemma {:induction false} TakeFromEmpty<K>(sc: Scale, slot: nat, ts: seq<Touch<K>>)
    requires GoodScale(sc)
    ensures TakeTouches(sc, map[], slot, ts) == map[]
    decreases |ts|
  {
    if ts != [] { TakeFromEmpty(sc, slot, ts[..|ts| - 1]); }
  }

  /** An expired request is subtracted exactly if it was counted: the delete check skips the
      ones from before the start, and a report not yet stamped has nothing to subtract from. */
  lemma EntryTaken<K(!new)>(sc: Scale, m: map<K, Group>, st: Stamp, cond: Payload -> bool, live: seq<Entry>, e: Entry,
                            id: nat, key: (Payload, string) -> K)
    requires GoodScale(sc) && Folded(sc, m, st, cond, [e] + live, id, key) && GoodTimers(e)
    requires forall i :: 0 <= i < |live| ==> live[i].slot != e.slot
    ensures Folded(sc, if !cond(e.data) || Before(st, e) then m else TakeTouches(sc, m, e.slot, ReqOf(e, id, key).touches),
                   st, cond, live, id, key)
  {
    var ms := Selected(st, cond, live);
    SelectedConcat(st, cond, [e], live);
    SelectedOne(st, cond, e);
    if Counted(st, cond, e) {
      SelectedFresh(st, cond, live, id, key, e.slot);
      TouchesGood(e.data, e.timers, |e.timers|, id, key);
      assert Reqs([e] + ms, id, key) == [ReqOf(e, id, key)] + Reqs(ms, id, key);
      TakeShrinksFold(sc, m, Reqs(ms, id, key), e.slot, ReqOf(e, id, key).touches);
    } else {
      assert [] + ms == ms;
      if Unstamped(st) {
        NoneSelected(st, cond, live);
        assert m == map[] by {
          forall k
            ensures k !in m
          {
            assert KeyIs(sc, m, RefOf(Reqs(ms, id, key), k), k);
          }
        }
        TakeFromEmpty(sc, e.slot, ReqOf(e, id, key).touches);
      }
    }
  }

  ghost predicate AllGoodTimers(es: seq<Entry>) {
    forall i :: 0 <= i < |es| ==> GoodTimers(es[i])
  }

  /** The report grouped by the value of one tag. */
  class TagInfo {
    const tagId: nat
    const sc: Scale
    const cond: Payload -> bool
    var start: Timeval
    var startId: nat
    var results: map<string, Group>
    var resultsCnt: int

    function StampOf(): Stamp
      reads this
    {
      Stamp(start, startId)
    }

    /** The report is the fold over the live requests it counts. */
    ghost predicate Represents(live: seq<Entry>)
      reads this
    {
      && GoodScale(sc) && resultsCnt == |results|
      && Folded(sc, results, StampOf(), cond, live, tagId, ByValue)
    }

    constructor (tagId: nat, sc: Scale, cond: Payload -> bool)
      requires GoodScale(sc)
      ensures this.tagId == tagId && this.sc == sc && this.cond == cond
      ensures Unstamped(StampOf()) && forall live :: Represents(live)
    {
      this.tagId, this.sc, this.cond := tagId, sc, cond;
      start, startId, results, resultsCnt := ZERO, 0, map[], 0;
      new;
      forall live
        ensures Represents(live)
      {
        NoneSelected(StampOf(), cond, live);
      }
    }

    method Add(e: Entry)
      requires GoodScale(sc) && resultsCnt == |results|
      modifies this
      ensures StampOf() == old(StampOf()) && resultsCnt == |results|
      ensures results == AddTouches(sc, old(results), e.slot, ReqOf(e, tagId, ByValue).touches)
    {
      ghost var ts := [];
      for i := 0 to |e.timers|
        invariant StampOf() == old(StampOf()) && resultsCnt == |results|
        invariant ts == Touches(e.data, e.timers, i, tagId, ByValue)
        invariant results == AddTouches(sc, old(results), e.slot, ts)
      {
        var timer := e.timers[i];
        var v := FindTag(timer, tagId);
        if v.Some? {
          AddTouchesNext(sc, old(results), e.slot, ts, Touch(v.value, timer));
          AddTimer(e.slot, v.value, timer);
          ts := ts + [Touch(v.value, timer)];
        } else {
          assert ts + [] == ts;
        }
      }
    }

    method AddTimer(slot: nat, word: string, timer: Timer)
      requires GoodScale(sc) && resultsCnt == |results|
      modifies this
      ensures StampOf() == old(StampOf()) && resultsCnt == |results|
      ensures results == AddTouch(sc, old(results), slot, Touch(word, timer))
    {
      if word !in results {
        var g := Group(1, FirstTotals(sc, timer), slot, -1);
        results := results[word := g];
        resultsCnt := resultsCnt + 1;
      } else {
        var g := results[word];
        g := g.(totals := g.totals.Add(sc, timer));
        if slot != g.prevAdd {
          g := g.(reqCount := g.reqCount + 1, prevAdd := slot);
        }
        results := results[word := g];
      }
    }

    method Delete(e: Entry)
      requires GoodScale(sc) && resultsCnt == |results|
      modifies this
      ensures StampOf() == old(StampOf()) && resultsCnt == |results|
      ensures results == if Before(old(StampOf()), e) then old(results)
                         else TakeTouches(sc, old(results), e.slot, ReqOf(e, tagId, ByValue).touches)
    {
      if Before(StampOf(), e) {
        return;
      }
      ghost var ts := [];
      for i := 0 to |e.timers|
        invariant StampOf() == old(StampOf()) && resultsCnt == |results|
        invariant ts == Touches(e.data, e.timers, i, tagId, ByValue)
        invariant results == TakeTouches(sc, old(results), e.slot, ts)
      {
        var timer := e.timers[i];
        var v := FindTag(timer, tagId);
        if v.Some? {
          AddTouchesNext(sc, old(results), e.slot, ts, Touch(v.value, timer));
          TakeTimer(e.slot, v.value, timer);
          ts := ts + [Touch(v.value, timer)];
        } else {
          assert ts + [] == ts;
        }
      }
    }

    method TakeTimer(slot: nat, word: string, timer: Timer)
      requires GoodScale(sc) && resultsCnt == |results|
      modifies this
      ensures StampOf() == old(StampOf()) && resultsCnt == |results|
      ensures results == TakeTouch(sc, old(results), slot, Touch(word, timer))
    {
      if word in results {
        var g := results[word];
        if slot != g.prevDel {
          g := g.(reqCount := g.reqCount - 1, prevDel := slot);
        }
        if g.reqCount == 0 {
          results := results - {word};
          resultsCnt := resultsCnt - 1;
        } else {
          g := g.(totals := g.totals.Take(sc, timer));
          results := results[word := g];
        }
      }
    }

    /** The add job of a batch that stored timers. */
    method AddBatch(es: seq<Entry>, ghost live: seq<Entry>)
      requires Represents(live) && AllGoodTimers(es) && es != []
      requires InOrder(live + es) && AllAbove(StampOf(), es) && DistinctSlots(live + es)
      modifies this
      ensures Represents(live + es)
      ensures StampOf() == Stamped(old(StampOf()), StampFrom(es[0])) && AllAbove(StampOf(), es) && !Unstamped(StampOf())
    {
      StampDrawsTheLine(StampOf(), cond, live, es);
      if start.sec == 0 {
        start, startId := es[0].time, es[0].counter;
      }
      assert live + es[..0] == live;
      for i := 0 to |es|
        invariant StampOf() == Stamped(old(StampOf()), StampFrom(es[0]))
        invariant Represents(live + es[..i])
      {
        NewSlot(live, es, i);
        AddOne(es[i], live + es[..i]);
        assert live + es[..i] + [es[i]] == live + es[..i + 1];
      }
      assert es[..|es|] == es;
    }

    method AddOne(e: Entry, ghost live: seq<Entry>)
      requires Represents(live) && GoodTimers(e) && !Unstamped(StampOf()) && !Before(StampOf(), e)
      requires forall i :: 0 <= i < |live| ==> live[i].slot != e.slot
      modifies this
      ensures Represents(live + [e]) && StampOf() == old(StampOf())
    {
      EntryAdded(sc, results, StampOf(), cond, live, e, tagId, ByValue);
      if cond(e.data) {
        Add(e);
      }
    }

    /** The delete job of an expired prefix. */
    method DeleteBatch(es: seq<Entry>, ghost live: seq<Entry>)
      requires Represents(es + live) && AllGoodTimers(es) && DistinctSlots(es + live)
      modifies this
      ensures Represents(live) && StampOf() == old(StampOf())
    {
      for i := 0 to |es|
        invariant StampOf() == old(StampOf())
        invariant Represents(es[i..] + live)
      {
        assert es[i..] + live == [es[i]] + (es[i + 1..] + live);
        OldSlot(es, live, i);
        DeleteOne(es[i], es[i + 1..] + live);
      }
      assert es[|es|..] + live == live;
    }

    method DeleteOne(e: Entry, ghost live: seq<Entry>)
      requires Represents([e] + live) && GoodTimers(e)
      requires forall i :: 0 <= i < |live| ==> live[i].slot != e.slot
      modifies this
      ensures Represents(live) && StampOf() == old(StampOf())
    {
      EntryTaken(sc, results, StampOf(), cond, live, e, tagId, ByValue);
      if cond(e.data) {
        Delete(e);
      }
    }
  }

  lemma NewSlot(live: seq<Entry>, es: seq<Entry>, i: nat)
    requires DistinctSlots(live + es) && i < |es|
    ensures var before := live + es[..i];
            forall j :: 0 <= j < |before| ==> before[j].slot != es[i].slot
  {
    var all, before := live + es, live + es[..i];
    forall j | 0 <= j < |before|
      ensures before[j].slot != es[i].slot
    {
      assert before[j] == all[j] && es[i] == all[|live| + i];
      assert SlotsDiffer(all, j, |live| + i);
    }
  }

  lemma OldSlot(es: seq<Entry>, live: seq<Entry>, i: nat)
    requires DistinctSlots(es + live) && i < |es|
    ensures var after := es[i + 1..] + live;
            forall j :: 0 <= j < |after| ==> after[j].slot != es[i].slot
  {
    var all, after := es + live, es[i + 1..] + live;
    forall j | 0 <= j < |after|
      ensures after[j].slot != es[i].slot
    {
      assert after[j] == all[i + 1 + j] && es[i] == all[i];
      assert SlotsDiffer(all, i, i + 1 + j);
    }
  }
}
