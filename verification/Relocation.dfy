/** Growing the timer ring while it is wrapped: the tail of the ring moves, and the requests
    whose slices start in that tail have to be found and moved with it. */
module Relocation {
  import opened Ring
  import opened Types
  import opened Pools
  import opened Tiling

  /** Some timer with resolved tags, in slots `lo..hi`, names request slot `s`. */
  ghost predicate Tagged(tims: seq<Timer>, lo: nat, hi: nat, s: nat)
    requires hi <= |tims|
  {
    exists i :: lo <= i < hi && tims[i].requestId == s && tims[i].tags != []
  }

  ghost function Moved(rec: Record, more: nat): Record {
    rec.(timersStart := rec.timersStart + more)
  }

  /** The effect of the relocation scan over the tail that starts at `out`. */
  ghost function Relocated(reqs: seq<Record>, tims: seq<Timer>, out: nat, hi: nat, more: nat): (r: seq<Record>)
    requires hi <= |tims|
    ensures |r| == |reqs|
  {
    seq(|reqs|, s requires 0 <= s < |reqs| =>
      if Tagged(tims, out, hi, s) then Moved(reqs[s], more) else reqs[s])
  }

  ghost predicate Wrapped(r: Rings)
    requires Shape(r)
  {
    r.tout > TimersEnd(r)
  }

  ghost function GrownTimers(r: Rings, more: nat): seq<Timer>
    requires Shape(r)
  {
    Grown(r.tims, TimersEnd(r), r.tout, more, NO_TIMER)
  }

  /** Both rings after the timer ring grew and, if it was wrapped, the scan ran. */
  ghost function GrownRings(r: Rings, more: nat): Rings
    requires Shape(r)
  {
    var tims := GrownTimers(r, more);
    var out := GrownOut(TimersEnd(r), r.tout, more);
    Rings(if Wrapped(r) then Relocated(r.reqs, tims, out, |tims|, more) else r.reqs,
          r.rout, r.live, tims, out)
  }

  /** Every request whose slice starts in the tail has a tagged timer in the tail. */
  ghost predicate TailTagged(r: Rings)
    requires Shape(r)
  {
    forall k :: 0 <= k < r.live && Live(r)[k].timersCnt > 0 && Live(r)[k].timersStart >= r.tout
      ==> Tagged(r.tims, r.tout, |r.tims|, ReqSlot(r, k))
  }

  /** Timers of one request sit together in the tail, so the scan meets each request in
      one run and its "same request as before" test never moves a request twice. */
  lemma TailRuns(r: Rings, a: nat, b: nat, c: nat)
    requires Tiled(r) && Wrapped(r)
    requires r.tout <= a <= b <= c < |r.tims|
    requires r.tims[a].requestId == r.tims[c].requestId
    ensures r.tims[b].requestId == r.tims[a].requestId
  {
    var ka, kb, kc := TailOwner(r, a), TailOwner(r, b), TailOwner(r, c);
    OneOwnerBetween(Live(r), r.live, r.rout, |r.reqs|, a - r.tout, b - r.tout, c - r.tout);
  }

  lemma OneOwnerBetween(recs: seq<Record>, n: nat, rout: nat, size: nat, x: nat, y: nat, z: nat)
    requires n <= |recs| && n < size && rout < size && x <= y <= z < Off(recs, n)
    requires Slot(rout, Owner(recs, n, x), size) == Slot(rout, Owner(recs, n, z), size)
    ensures Owner(recs, n, y) == Owner(recs, n, x)
  {
    SlotInjective(rout, Owner(recs, n, x), Owner(recs, n, z), size);
    OwnerMonotone(recs, n, x, y);
    OwnerMonotone(recs, n, y, z);
  }

  ghost function TailOwner(r: Rings, i: nat): (k: nat)
    requires Tiled(r) && Wrapped(r) && r.tout <= i < |r.tims|
    ensures i - r.tout < Total(r) && k == Owner(Live(r), r.live, i - r.tout)
    ensures k < r.live && r.tims[i].requestId == ReqSlot(r, k)
    ensures Live(r)[k].timersCnt > 0
  {
    TimerNamesOwner(r, i - r.tout);
    Owner(Live(r), r.live, i - r.tout)
  }

  /** Growth moves the tail, so a tagged timer is in the new tail exactly if it was in the old. */
  lemma TailAfterGrowth(r: Rings, more: nat, s: nat)
    requires Shape(r) && Wrapped(r)
    ensures Tagged(GrownTimers(r, more), r.tout + more, |r.tims| + more, s)
            <==> Tagged(r.tims, r.tout, |r.tims|, s)
  {
    var tims := GrownTimers(r, more);
    assert forall i :: r.tout <= i < |r.tims| ==> tims[i + more] == r.tims[i];
    if Tagged(tims, r.tout + more, |r.tims| + more, s) {
      var i :| r.tout + more <= i < |r.tims| + more && tims[i].requestId == s && tims[i].tags != [];
      assert r.tims[i - more] == tims[i];
    }
    if Tagged(r.tims, r.tout, |r.tims|, s) {
      var i :| r.tout <= i < |r.tims| && r.tims[i].requestId == s && r.tims[i].tags != [];
      assert tims[i + more] == r.tims[i];
    }
  }

  lemma GrownShape(r: Rings, more: nat)
    requires Shape(r)
    ensures Shape(GrownRings(r, more))
    ensures Total(GrownRings(r, more)) == Total(r)
    ensures forall k :: 0 <= k <= r.live ==> Off(Live(GrownRings(r, more)), k) == Off(Live(r), k)
  {
    var g := GrownRings(r, more);
    forall k | 0 <= k <= r.live
      ensures Off(Live(g), k) == Off(Live(r), k)
    {
      OffSame(Live(r), Live(g), k);
    }
  }

  /** A timer's distance from `out` survives growth, and so does its value. */
  lemma GrownTimerAt(r: Rings, more: nat, x: nat)
    requires Shape(r) && x < Total(r)
    ensures var g := GrownRings(r, more);
            && g.tout < |g.tims| && x <= |g.tims|
            && g.tims[Slot(g.tout, x, |g.tims|)] == r.tims[Slot(r.tout, x, |r.tims|)]
  {
  }

  /** One request's slice is intact when its start kept its distance from `out`. */
  lemma SliceAfterGrowth(r: Rings, more: nat, o: nat, rec: Record, rec': Record)
    requires Shape(r) && 0 < rec.timersCnt && o + rec.timersCnt <= Total(r)
    requires Shape(GrownRings(r, more))
    requires rec.timersStart == Slot(r.tout, o, |r.tims|)
    requires o < |GrownTimers(r, more)|
    requires var g := GrownRings(r, more);
             rec' == rec.(timersStart := Slot(g.tout, o, |g.tims|))
    ensures SliceOf(GrownTimers(r, more), rec') == SliceOf(r.tims, rec)
  {
    var g := GrownRings(r, more);
    forall j | 0 <= j < rec.timersCnt
      ensures SliceOf(g.tims, rec')[j] == SliceOf(r.tims, rec)[j]
    {
      GrownTimerAt(r, more, o + j);
      SlotCompose(r.tout, o, j, |r.tims|);
      SlotCompose(g.tout, o, j, |g.tims|);
    }
  }

  /** Where growth puts the start of a request with `o` timers before it. */
  lemma StartAfterGrowth(r: Rings, more: nat, o: nat)
    requires Shape(r) && o < Total(r)
    requires o < |GrownTimers(r, more)|
    ensures var g := GrownRings(r, more);
            var s := Slot(r.tout, o, |r.tims|);
            && g.tout < |g.tims|
            && Slot(g.tout, o, |g.tims|) == if Wrapped(r) && s >= r.tout then s + more else s
  {
  }

  /** A request whose slice starts before the tail has no timer in the tail. */
  lemma HeadNotInTail(r: Rings, k: nat)
    requires Tiled(r) && Wrapped(r) && k < r.live
    requires Live(r)[k].timersCnt == 0 || Live(r)[k].timersStart < r.tout
    ensures !Tagged(r.tims, r.tout, |r.tims|, ReqSlot(r, k))
  {
    forall i | r.tout <= i < |r.tims|
      ensures r.tims[i].requestId != ReqSlot(r, k)
    {
      var ki := TailOwner(r, i);
      SlotInjective(r.rout, ki, k, |r.reqs|);
      assert Placed(r, k);
      OffMonotone(Live(r), 0, k);
    }
  }

  /** With tags in the tail, growth plus relocation re-establishes the tiling. */
  lemma RelocationKeepsTiling(r: Rings, more: nat)
    requires Tiled(r)
    requires Wrapped(r) ==> TailTagged(r)
    ensures Tiled(GrownRings(r, more)) && View(GrownRings(r, more)) == View(r)
  {
    var g := GrownRings(r, more);
    GrownShape(r, more);
    forall k | 0 <= k < r.live
      ensures Placed(g, k) && View(g)[k] == View(r)[k]
    {
      RequestRelocated(r, more, k);
    }
  }

  lemma RequestRelocated(r: Rings, more: nat, k: nat)
    requires Tiled(r) && k < r.live && Shape(GrownRings(r, more))
    requires Wrapped(r) && Live(r)[k].timersCnt > 0 && Live(r)[k].timersStart >= r.tout
      ==> Tagged(r.tims, r.tout, |r.tims|, ReqSlot(r, k))
    ensures Placed(GrownRings(r, more), k) && View(GrownRings(r, more))[k] == View(r)[k]
  {
    var g := GrownRings(r, more);
    var rec := Live(r)[k];
    GrownShape(r, more);
    if rec.timersCnt > 0 {
      var o := Off(Live(r), k);
      assert Placed(r, k);
      OffMonotone(Live(r), k + 1, r.live);
      StartAfterGrowth(r, more, o);
      RequestMoved(r, more, k);
      SliceAfterGrowth(r, more, o, rec, Live(g)[k]);
    }
  }

  /** The scan moves exactly the requests whose slices start in the tail. */
  lemma RequestMoved(r: Rings, more: nat, k: nat)
    requires Tiled(r) && k < r.live && Live(r)[k].timersCnt > 0
    requires Wrapped(r) && Live(r)[k].timersStart >= r.tout
      ==> Tagged(r.tims, r.tout, |r.tims|, ReqSlot(r, k))
    ensures Live(GrownRings(r, more))[k]
            == if Wrapped(r) && Live(r)[k].timersStart >= r.tout
               then Moved(Live(r)[k], more) else Live(r)[k]
  {
    if Wrapped(r) {
      TailAfterGrowth(r, more, ReqSlot(r, k));
      if Live(r)[k].timersStart < r.tout { HeadNotInTail(r, k); }
    }
  }

  /** A request the scan missed reads some other slot's timer as its first one. */
  lemma MissedRequestReadsWrongTimer(r: Rings, more: nat, k: nat)
    requires Tiled(r) && Wrapped(r) && more > 0 && k < r.live && Shape(GrownRings(r, more))
    requires Live(r)[k].timersCnt > 0 && Live(r)[k].timersStart >= r.tout
    requires !Tagged(r.tims, r.tout, |r.tims|, ReqSlot(r, k))
    ensures View(GrownRings(r, more))[k] != View(r)[k]
  {
    var g := GrownRings(r, more);
    var rec := Live(r)[k];
    assert Placed(r, k);
    TailAfterGrowth(r, more, ReqSlot(r, k));
    assert Live(g)[k] == rec;
    var s := rec.timersStart;
    assert SliceOf(r.tims, rec)[0].requestId == ReqSlot(r, k) && SliceOf(r.tims, rec)[0].hitCount > 0;
    assert SliceOf(g.tims, rec)[0] == g.tims[s];
    if s < r.tout + more {
      assert g.tims[s] == NO_TIMER;
    } else {
      assert g.tims[s] == r.tims[s - more];
      var k' := TailOwner(r, s - more);
      SlotInjective(r.rout, k', k, |r.reqs|);
    }
  }

  /** The exact condition under which growing a wrapped timer ring is invisible to readers.
      The scan skips timers without tags, so a request all of whose timers in the tail lost
      their tags keeps a stale start. */
  lemma RelocationExact(r: Rings, more: nat)
    requires Tiled(r) && Wrapped(r) && more > 0
    ensures Shape(GrownRings(r, more))
    ensures View(GrownRings(r, more)) == View(r) <==> TailTagged(r)
  {
    GrownShape(r, more);
    if TailTagged(r) {
      RelocationKeepsTiling(r, more);
    } else {
      var k :| 0 <= k < r.live && Live(r)[k].timersCnt > 0 && Live(r)[k].timersStart >= r.tout
               && !Tagged(r.tims, r.tout, |r.tims|, ReqSlot(r, k));
      MissedRequestReadsWrongTimer(r, more, k);
    }
  }

  const UNTAGGED := NO_TIMER.(hitCount := 1)

  /** One live request whose two timers lie around the end of a ring of three, and whose tags
      could not be stored. */
  const LOST_TAGS := Rings([NO_RECORD.(timersStart := 2, timersCnt := 2, active := true), NO_RECORD], 0, 1,
                           [UNTAGGED, NO_TIMER, UNTAGGED], 2)

  /** Growing the ring then makes that request read a slot that never held its timer. */
  lemma LostTagsMoveTimers()
    ensures Tiled(LOST_TAGS) && Wrapped(LOST_TAGS) && Shape(GrownRings(LOST_TAGS, 1))
    ensures View(GrownRings(LOST_TAGS, 1)) != View(LOST_TAGS)
  {
    var r := LOST_TAGS;
    var rec := r.reqs[0];
    assert Live(r) == [rec];
    assert Off([rec], 0) == 0 && Off([rec], 1) == 2;
    assert SliceOf(r.tims, rec) == [UNTAGGED, UNTAGGED];
    assert Placed(r, 0);
    assert !Tagged(r.tims, 2, 3, 0);
    RelocationExact(r, 1);
  }

  /** The slots `last` and `i` of the tail, with nothing tagged between them; `last` is -1
      before the scan has met a tagged timer. */
  ghost predicate LastTagged(ts: seq<Timer>, out: nat, i: nat, last: int)
    requires i <= |ts|
  {
    && (last == -1 || (out <= last < i && ts[last].tags != []))
    && forall j :: out <= j < i && j > last ==> ts[j].tags == []
  }

  /** A tagged timer that names another request than the last one starts a new run. */
  lemma NewRun(r: Rings, more: nat, i: nat, last: int)
    requires Tiled(r) && Wrapped(r) && r.tout + more <= i < |r.tims| + more
    requires LastTagged(GrownTimers(r, more), r.tout + more, i, last)
    requires last >= 0 ==> GrownTimers(r, more)[last].requestId != GrownTimers(r, more)[i].requestId
    ensures !Tagged(GrownTimers(r, more), r.tout + more, i, GrownTimers(r, more)[i].requestId)
  {
    var ts := GrownTimers(r, more);
    forall j | r.tout + more <= j < i && ts[j].tags != []
      ensures ts[j].requestId != ts[i].requestId
    {
      assert j <= last;
      if ts[j].requestId == ts[i].requestId {
        assert ts[j] == r.tims[j - more] && ts[last] == r.tims[last - more] && ts[i] == r.tims[i - more];
        TailRuns(r, j - more, last - more, i - more);
      }
    }
  }

  /** The scan over the moved tail: one pass, moving the start of each request the first
      time one of its tagged timers comes up. */
  method RelocateStarts(reqs: Pool<Record>, tims: Pool<Timer>, more: nat, ghost r: Rings)
    requires Tiled(r) && Wrapped(r)
    requires reqs.data[..] == r.reqs
    requires tims.data[..] == GrownTimers(r, more) && tims.out == r.tout + more
    requires reqs.data as object != tims.data
    modifies reqs.data
    ensures reqs.data[..] == Relocated(r.reqs, tims.data[..], tims.out, tims.data.Length, more)
  {
    ghost var ts := tims.data[..];
    ghost var last := -1;
    var prev: int := -1;
    for i := tims.out to tims.data.Length
      invariant tims.data[..] == ts
      invariant reqs.data[..] == Relocated(r.reqs, ts, tims.out, i, more)
      invariant LastTagged(ts, tims.out, i, last)
      invariant prev == if last == -1 then -1 else ts[last].requestId
    {
      var timer := tims.data[i];
      if timer.tags != [] {
        if timer.requestId != prev {
          NewRun(r, more, i, last);
          TailSlotIsLive(r, more, i);
          var record := reqs.data[timer.requestId];
          if record.timersCnt != 0 {
            reqs.data[timer.requestId] := record.(timersStart := record.timersStart + more);
            prev := timer.requestId;
          }
        }
        last := i;
      }
      ScanStep(r.reqs, ts, tims.out, i, more);
    }
  }

  /** One more timer scanned moves at most the request it names. */
  lemma ScanStep(reqs: seq<Record>, ts: seq<Timer>, out: nat, i: nat, more: nat)
    requires out <= i < |ts|
    ensures var before, after := Relocated(reqs, ts, out, i, more), Relocated(reqs, ts, out, i + 1, more);
            var id := ts[i].requestId;
            if ts[i].tags != [] && id < |reqs| && !Tagged(ts, out, i, id)
            then before[id] == reqs[id] && after == before[id := Moved(reqs[id], more)]
            else after == before
  {
    forall s
      ensures Tagged(ts, out, i + 1, s) <==> Tagged(ts, out, i, s) || (ts[i].tags != [] && ts[i].requestId == s)
    {
    }
  }

  lemma TailSlotIsLive(r: Rings, more: nat, i: nat)
    requires Tiled(r) && Wrapped(r) && r.tout + more <= i < |r.tims| + more
    ensures var id := GrownTimers(r, more)[i].requestId;
            id < |r.reqs| && r.reqs[id].timersCnt > 0
  {
    var k := TailOwner(r, i - more);
    assert Live(r)[k] == r.reqs[ReqSlot(r, k)];
  }
}
