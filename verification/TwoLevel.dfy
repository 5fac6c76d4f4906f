/** The tag report grouped by script and tag value. */
module TwoLevel {
  import opened Time
  import opened Types
  import opened Histogram
  import opened TagTotals
  import opened TagReport
  import opened Stamps
  import opened TagReportObject
  import opened NestedMap

  class TagByScript {
    const tagId: nat
    const sc: Scale
    const cond: Payload -> bool
    var start: Timeval
    var startId: nat
    var results: Nested<Group>
    var resultsCnt: int
    ghost var flat: Pairs<Group>

    function StampOf(): Stamp
      reads this
    {
      Stamp(start, startId)
    }

    ghost predicate Tidy()
      reads this
    {
      GoodScale(sc) && IsFlat(flat, results) && NoEmpty(results) && resultsCnt == |flat|
    }

    /** Flattened, the report is the fold over the live requests it counts. */
    ghost predicate Represents(live: seq<Entry>)
      reads this
    {
      Tidy() && Folded(sc, flat, StampOf(), cond, live, tagId, ByScriptAndValue)
    }

    constructor (tagId: nat, sc: Scale, cond: Payload -> bool)
      requires GoodScale(sc)
      ensures this.tagId == tagId && this.sc == sc && this.cond == cond
      ensures Unstamped(StampOf()) && forall live :: Represents(live)
    {
      this.tagId, this.sc, this.cond := tagId, sc, cond;
      start, startId, results, resultsCnt, flat := ZERO, 0, map[], 0, map[];
      new;
      forall live
        ensures Represents(live)
      {
        NoneSelected(StampOf(), cond, live);
      }
    }

    method Add(e: Entry)
      requires Tidy()
      modifies this
      ensures Tidy() && StampOf() == old(StampOf())
      ensures flat == AddTouches(sc, old(flat), e.slot, ReqOf(e, tagId, ByScriptAndValue).touches)
    {
      ghost var ts: seq<Touch<(string, string)>> := [];
      ghost var was := flat;
      for i := 0 to |e.timers|
        invariant Tidy() && StampOf() == old(StampOf())
        invariant ts == Touches(e.data, e.timers, i, tagId, ByScriptAndValue)
        invariant flat == AddTouches(sc, was, e.slot, ts)
      {
        ts := AddNth(e, i, was, ts);
      }
    }

    method AddNth(e: Entry, i: nat, ghost was: Pairs<Group>, ghost ts: seq<Touch<(string, string)>>)
      returns (ghost ts': seq<Touch<(string, string)>>)
      requires Tidy() && i < |e.timers| && ts == Touches(e.data, e.timers, i, tagId, ByScriptAndValue)
      requires flat == AddTouches(sc, was, e.slot, ts)
      modifies this
      ensures Tidy() && StampOf() == old(StampOf())
      ensures ts' == Touches(e.data, e.timers, i + 1, tagId, ByScriptAndValue) && flat == AddTouches(sc, was, e.slot, ts')
    {
      var timer := e.timers[i];
      var v := FindTag(timer, tagId);
      if v.Some? {
        AddTouchesNext(sc, was, e.slot, ts, Touch((e.data.script, v.value), timer));
        AddTimer(e.data.script, e.slot, v.value, timer);
        ts' := ts + [Touch((e.data.script, v.value), timer)];
      } else {
        ts' := ts;
        assert ts + [] == ts;
      }
    }

    /** The inner map is created on demand and filled in the same step. */
    method AddTimer(script: string, slot: nat, word: string, timer: Timer)
      requires Tidy()
      modifies this
      ensures Tidy() && StampOf() == old(StampOf())
      ensures flat == AddTouch(sc, old(flat), slot, Touch((script, word), timer))
    {
      assert PairIs(flat, results, script, word);
      var inner := Inner(results, script);
      var g;
      if word !in inner {
        g := Group(1, FirstTotals(sc, timer), slot, -1);
      } else {
        g := inner[word];
        g := g.(totals := g.totals.Add(sc, timer));
        if slot != g.prevAdd {
          g := g.(reqCount := g.reqCount + 1, prevAdd := slot);
        }
      }
      Store(script, word, g);
    }

    method Delete(e: Entry)
      requires Tidy()
      modifies this
      ensures Tidy() && StampOf() == old(StampOf())
      ensures flat == if Before(old(StampOf()), e) then old(flat)
              else TakeTouches(sc, old(flat), e.slot, ReqOf(e, tagId, ByScriptAndValue).touches)
    {
      if Before(StampOf(), e) {
        return;
      }
      var script := e.data.script;
      ghost var was := flat;
      if script !in results {
        NothingToTake(sc, flat, results, e, tagId, |e.timers|);
        return;
      }
      ghost var ts: seq<Touch<(string, string)>> := [];
      var alive := true;
      for i := 0 to |e.timers|
        invariant Tidy() && StampOf() == old(StampOf()) && alive == (script in results)
        invariant ts == Touches(e.data, e.timers, i, tagId, ByScriptAndValue)
        invariant flat == TakeTouches(sc, was, e.slot, ts)
      {
        var timer := e.timers[i];
        var v := FindTag(timer, tagId);
        if v.Some? {
          AddTouchesNext(sc, was, e.slot, ts, Touch((script, v.value), timer));
          alive := TakeTimer(script, alive, e.slot, v.value, timer);
          ts := ts + [Touch((script, v.value), timer)];
        } else {
          assert ts + [] == ts;
        }
      }
    }

    /** `alive` says whether the job still holds the inner map of its script; once that map
        ran empty and was destroyed, later timers of the same request find nothing. */
    method TakeTimer(script: string, alive: bool, slot: nat, word: string, timer: Timer) returns (alive': bool)
      requires Tidy() && alive == (script in results)
      modifies this
      ensures Tidy() && StampOf() == old(StampOf()) && alive' == (script in results)
      ensures flat == TakeTouch(sc, old(flat), slot, Touch((script, word), timer))
    {
      alive' := alive;
      assert PairIs(flat, results, script, word);
      if alive && word in results[script] {
        var g := results[script][word];
        if slot != g.prevDel {
          g := g.(reqCount := g.reqCount - 1, prevDel := slot);
        }
        if g.reqCount == 0 {
          Remove(script, word);
          alive' := script in results;
        } else {
          Store(script, word, g.(totals := g.totals.Take(sc, timer)));
        }
      }
    }

    method Remove(script: string, word: string)
      requires Tidy() && script in results && word in results[script]
      modifies this
      ensures Tidy() && StampOf() == old(StampOf()) && flat == old(flat) - {(script, word)}
    {
      assert PairIs(flat, results, script, word);
      FlatDrop(flat, results, script, word);
      results := Drop(results, script, word);
      flat := flat - {(script, word)};
      resultsCnt := resultsCnt - 1;
    }

    method Store(script: string, word: string, g: Group)
      requires Tidy()
      modifies this
      ensures Tidy() && StampOf() == old(StampOf()) && script in results && flat == old(flat)[(script, word) := g]
    {
      assert PairIs(flat, results, script, word);
      FlatPut(flat, results, script, word, g);
      if word !in Inner(results, script) {
        resultsCnt := resultsCnt + 1;
      }
      results := results[script := Inner(results, script)[word := g]];
      flat := flat[(script, word) := g];
    }

    /** The add job of a batch that stored timers. */
    method AddBatch(es: seq<Entry>, ghost live: seq<Entry>)
      requires Represents(live) && AllGoodTimers(es) && es != []
      requires InOrder(live + es) && AllAbove(StampOf(), es) && DistinctSlots(live + es)
      modifies this
      ensures Represents(live + es)
      ensures StampOf() == Stamped(old(StampOf()), StampFrom(es[0])) && AllAbove(StampOf(), es) && !Unstamped(StampOf())
    {
      StampDrawsTheLine(StampOf(), cond, live, es);
      if start.sec == 0 {
        start, startId := es[0].time, es[0].counter;
      }
      assert live + es[..0] == live;
      for i := 0 to |es|
        invariant StampOf() == Stamped(old(StampOf()), StampFrom(es[0]))
        invariant Represents(live + es[..i])
      {
        NewSlot(live, es, i);
        AddOne(es[i], live + es[..i]);
        assert live + es[..i] + [es[i]] == live + es[..i + 1];
      }
      assert es[..|es|] == es;
    }

    method AddOne(e: Entry, ghost live: seq<Entry>)
      requires Represents(live) && GoodTimers(e) && !Unstamped(StampOf()) && !Before(StampOf(), e)
      requires forall i :: 0 <= i < |live| ==> live[i].slot != e.slot
      modifies this
      ensures Represents(live + [e]) && StampOf() == old(StampOf())
    {
      EntryAdded(sc, flat, StampOf(), cond, live, e, tagId, ByScriptAndValue);
      if cond(e.data) {
        Add(e);
      }
    }

    /** The delete job of an expired prefix. */
    method DeleteBatch(es: seq<Entry>, ghost live: seq<Entry>)
      requires Represents(es + live) && AllGoodTimers(es) && DistinctSlots(es + live)
      modifies this
      ensures Represents(live) && StampOf() == old(StampOf())
    {
      for i := 0 to |es|
        invariant StampOf() == old(StampOf())
        invariant Represents(es[i..] + live)
      {
        assert es[i..] + live == [es[i]] + (es[i + 1..] + live);
        OldSlot(es, live, i);
        DeleteOne(es[i], es[i + 1..] + live);
      }
      assert es[|es|..] + live == live;
    }

    method DeleteOne(e: Entry, ghost live: seq<Entry>)
      requires Represents([e] + live) && GoodTimers(e)
      requires forall i :: 0 <= i < |live| ==> live[i].slot != e.slot
      modifies this
      ensures Represents(live) && StampOf() == old(StampOf())
    {
      EntryTaken(sc, flat, StampOf(), cond, live, e, tagId, ByScriptAndValue);
      if cond(e.data) {
        Delete(e);
      }
    }
  }

  /** Without an inner map for its script, a request finds nothing to subtract from. */
  lemma {:induction false} NothingToTake(sc: Scale, f: Pairs<Group>, m: Nested<Group>, e: Entry, id: nat, n: nat)
    requires GoodScale(sc) && IsFlat(f, m) && e.data.script !in m && n <= |e.timers|
    ensures TakeTouches(sc, f, e.slot, Touches(e.data, e.timers, n, id, ByScriptAndValue)) == f
  {
    if n > 0 {
      NothingToTake(sc, f, m, e, id, n - 1);
      var ts, t := Touches(e.data, e.timers, n - 1, id, ByScriptAndValue), TouchOf(e.data, e.timers[n - 1], id, ByScriptAndValue);
      if t == [] {
        assert ts + t == ts;
      } else {
        assert PairIs(f, m, t[0].key.0, t[0].key.1);
        AddTouchesNext(sc, f, e.slot, ts, t[0]);
      }
    }
  }
}
