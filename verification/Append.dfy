/** Publishing a merged batch extends the tiling. */
module Append {
  import opened Ring
  import opened Types
  import opened Tiling
  import opened Batch
  import opened Merge

  /** What the engine promises about a staged request: only timers that were hit are stored,
      and never more than the packet lists. */
  ghost predicate WellStaged(s: Staged) {
    |s.timers| <= s.listed && forall j :: 0 <= j < |s.timers| ==> s.timers[j].hitCount > 0
  }

  ghost function RequestsIn(r: Rings): nat
    requires Shape(r)
  {
    Slot(r.rout, r.live, |r.reqs|)
  }

  /** The entry a reader sees for the `d`-th accepted request of a batch. */
  ghost function NewEntry(s: Staged, slot: nat, counter: nat): Entry {
    Entry(slot, s.time, counter, s.data, Relabel(s.timers, slot))
  }

  /** Reading an admitted request gives back what was staged; only the timers' slot is new. */
  lemma NewEntryKeeps(s: Staged, slot: nat, counter: nat)
    ensures var e := NewEntry(s, slot, counter);
            && e.slot == slot && e.counter == counter && e.time == s.time && e.data == s.data && |e.timers| == |s.timers|
            && forall j :: 0 <= j < |s.timers| ==>
                 && e.timers[j].requestId == slot && e.timers[j].tags == s.timers[j].tags && e.timers[j].value == s.timers[j].value
                 && e.timers[j].ruUtime == s.timers[j].ruUtime && e.timers[j].ruStime == s.timers[j].ruStime
                 && e.timers[j].hitCount == s.timers[j].hitCount
  {
  }

  ghost function NewEntries(a: seq<Staged>, p: nat, size: nat, base: nat): (es: seq<Entry>)
    requires p < size && |a| <= size
    ensures |es| == |a|
  {
    seq(|a|, d requires 0 <= d < |a| => NewEntry(a[d], Slot(p, d, size), base + d))
  }

  /** The rings after a batch `a` was copied, compacted and merged behind rings `r`. */
  ghost predicate Extended(r: Rings, r': Rings, a: seq<Staged>, base: nat) {
    && Shape(r)
    && |r'.reqs| == |r.reqs| && r'.rout == r.rout && r'.live == r.live + |a| < |r.reqs|
    && |r'.tims| == |r.tims| && r'.tout == r.tout && Total(r) + TimerSum(a, |a|) < |r.tims|
    && (forall k :: 0 <= k < r.live ==> r'.reqs[ReqSlot(r, k)] == r.reqs[ReqSlot(r, k)])
    && (forall d :: 0 <= d < |a| ==> FinalRecord(r, r', a, base, d))
    && (forall x :: 0 <= x < Total(r) ==>
          r'.tims[Slot(r.tout, x, |r.tims|)] == r.tims[Slot(r.tout, x, |r.tims|)])
    && (forall d :: 0 <= d < |a| ==> FinalTimers(r, r', a, d))
  }

  ghost predicate FinalRecord(r: Rings, r': Rings, a: seq<Staged>, base: nat, d: nat)
    requires Shape(r) && d < |a| && |r'.reqs| == |r.reqs| && r.live + |a| < |r.reqs|
    requires Total(r) + TimerSum(a, |a|) < |r.tims|
  {
    TimerSumMonotone(a, d, |a|);
    && a[d].copyOk && WellStaged(a[d])
    && r'.reqs[ReqSlot(r, r.live + d)]
       == WithTimers(Raw(a[d], base + d), a[d], Slot(r.tout, Total(r) + TimerSum(a, d), |r.tims|))
  }

  ghost predicate FinalTimers(r: Rings, r': Rings, a: seq<Staged>, d: nat)
    requires Shape(r) && d < |a| && |r'.tims| == |r.tims| && r.live + |a| < |r.reqs|
    requires Total(r) + TimerSum(a, |a|) < |r.tims|
  {
    TimerSumMonotone(a, d, |a|);
    TimerSumMonotone(a, d + 1, |a|);
    Window(r'.tims, Slot(r.tout, Total(r) + TimerSum(a, d), |r.tims|), |a[d].timers|)
    == Relabel(a[d].timers, ReqSlot(r, r.live + d))
  }

  lemma ExtendedOff(r: Rings, r': Rings, a: seq<Staged>, base: nat, d: nat)
    requires Extended(r, r', a, base) && d <= |a|
    ensures Off(Live(r'), r.live + d) == Total(r) + TimerSum(a, d)
    ensures forall k :: 0 <= k <= r.live ==> Off(Live(r'), k) == Off(Live(r), k)
    decreases d
  {
    if d == 0 {
      forall i | 0 <= i < r.live
        ensures Live(r')[i] == Live(r)[i]
      {
        assert r'.reqs[ReqSlot(r, i)] == r.reqs[ReqSlot(r, i)];
      }
      forall k | 0 <= k <= r.live
        ensures Off(Live(r'), k) == Off(Live(r), k)
      {
        OffSame(Live(r), Live(r'), k);
      }
    } else {
      ExtendedOff(r, r', a, base, d - 1);
      assert FinalRecord(r, r', a, base, d - 1);
      assert Live(r')[r.live + d - 1] == r'.reqs[ReqSlot(r, r.live + d - 1)];
    }
  }

  lemma OldSliceKept(r: Rings, r': Rings, a: seq<Staged>, base: nat, k: nat)
    requires Tiled(r) && Extended(r, r', a, base) && k < r.live
    ensures Live(r')[k] == Live(r)[k]
    ensures SliceOf(r'.tims, Live(r)[k]) == SliceOf(r.tims, Live(r)[k])
  {
    var rec := Live(r)[k];
    assert Live(r')[k] == r'.reqs[ReqSlot(r, k)];
    if rec.timersCnt > 0 {
      assert Placed(r, k);
      OffMonotone(Live(r), k + 1, r.live);
      var o := Off(Live(r), k);
      forall j | 0 <= j < rec.timersCnt
        ensures SliceOf(r'.tims, rec)[j] == SliceOf(r.tims, rec)[j]
      {
        SlotCompose(r.tout, o, j, |r.tims|);
      }
    }
  }

  lemma NewSlicePlaced(r: Rings, r': Rings, a: seq<Staged>, base: nat, d: nat)
    requires Tiled(r) && Extended(r, r', a, base) && d < |a| && Shape(r')
    ensures Placed(r', r.live + d)
    ensures View(r')[r.live + d] == NewEntry(a[d], ReqSlot(r, r.live + d), base + d)
  {
    assert FinalRecord(r, r', a, base, d);
    assert FinalTimers(r, r', a, d);
    ExtendedOff(r, r', a, base, d);
    TimerSumMonotone(a, d + 1, |a|);
    assert Live(r')[r.live + d] == r'.reqs[ReqSlot(r, r.live + d)];
  }

  /** Readers see the old requests unchanged, then the new ones; both tile the timer ring. */
  lemma BatchExtendsTiling(r: Rings, r': Rings, a: seq<Staged>, base: nat)
    requires Tiled(r) && Extended(r, r', a, base)
    ensures Tiled(r')
    ensures View(r') == View(r) + NewEntries(a, RequestsIn(r), |r.reqs|, base)
  {
    ExtendedOff(r, r', a, base, |a|);
    assert Shape(r');
    var old_, more := View(r), NewEntries(a, RequestsIn(r), |r.reqs|, base);
    forall k | 0 <= k < r'.live
      ensures Placed(r', k)
      ensures View(r')[k] == (old_ + more)[k]
    {
      if k < r.live {
        OldSlicePlaced(r, r', a, base, k);
      } else {
        NewSliceAt(r, r', a, base, k - r.live);
        assert (old_ + more)[k] == more[k - r.live];
      }
    }
  }

  lemma NewSliceAt(r: Rings, r': Rings, a: seq<Staged>, base: nat, d: nat)
    requires Tiled(r) && Extended(r, r', a, base) && d < |a| && Shape(r')
    ensures Placed(r', r.live + d)
    ensures View(r')[r.live + d] == NewEntries(a, RequestsIn(r), |r.reqs|, base)[d]
  {
    NewSlicePlaced(r, r', a, base, d);
    SlotCompose(r.rout, r.live, d, |r.reqs|);
  }

  lemma OldSlicePlaced(r: Rings, r': Rings, a: seq<Staged>, base: nat, k: nat)
    requires Tiled(r) && Extended(r, r', a, base) && k < r.live && Shape(r')
    ensures Placed(r', k) && View(r')[k] == View(r)[k]
  {
    ExtendedOff(r, r', a, base, 0);
    OldSliceKept(r, r', a, base, k);
    assert Placed(r, k);
  }
}
