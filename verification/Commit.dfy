/** From the copied and merged slots of a batch to the extended window. */
module Commit {
  import opened Ring
  import opened Types
  import opened Pools
  import opened Tiling
  import opened Relocation
  import opened Batch
  import opened Merge
  import opened Admission
  import opened Append

  /** Rings that differ only in free request slots look the same to readers. */
  ghost predicate SameButFree(r: Rings, r': Rings) {
    && Shape(r)
    && r' == r.(reqs := r'.reqs) && |r'.reqs| == |r.reqs|
    && forall k :: 0 <= k < r.live ==> r'.reqs[ReqSlot(r, k)] == r.reqs[ReqSlot(r, k)]
  }

  lemma FreeSlotsAreInvisible(r: Rings, r': Rings)
    requires Tiled(r) && SameButFree(r, r')
    ensures Tiled(r') && View(r') == View(r) && Total(r') == Total(r) && Live(r') == Live(r)
  {
    assert Live(r') == Live(r) by {
      forall k | 0 <= k < r.live
        ensures Live(r')[k] == Live(r)[k]
      {
        assert r'.reqs[ReqSlot(r, k)] == r.reqs[ReqSlot(r, k)];
      }
    }
    forall k | 0 <= k < r.live
      ensures Placed(r', k)
    {
      assert Placed(r, k);
    }
  }

  /** A live request's slot, counted from the `in` cursor instead of from `out`. */
  lemma LiveFromIn(r: Rings, k: nat)
    requires Shape(r) && k < r.live
    ensures ReqSlot(r, k) == Slot(RequestsIn(r), |r.reqs| - r.live + k, |r.reqs|)
  {
  }

  /** Writes to the first `n` free slots leave every live slot alone. */
  lemma BatchTouchesOnlyFree(r: Rings, reqs': seq<Record>, n: nat)
    requires Shape(r) && |reqs'| == |r.reqs| && n + r.live < |r.reqs|
    requires forall o :: n <= o < |r.reqs| ==>
      Rotated(reqs', RequestsIn(r))[o] == Rotated(r.reqs, RequestsIn(r))[o]
    ensures SameButFree(r, r.(reqs := reqs'))
  {
    RotatedAt(reqs', RequestsIn(r));
    RotatedAt(r.reqs, RequestsIn(r));
    forall k | 0 <= k < r.live
      ensures reqs'[ReqSlot(r, k)] == r.reqs[ReqSlot(r, k)]
    {
      LiveFromIn(r, k);
      var o := |r.reqs| - r.live + k;
      assert Rotated(reqs', RequestsIn(r))[o] == Rotated(r.reqs, RequestsIn(r))[o];
    }
  }

  /** Relocation moves live requests only, so pending copies in free slots survive it. */
  lemma RelocationSparesFree(r: Rings, more: nat, k: nat)
    requires Tiled(r) && r.live <= k < |r.reqs|
    ensures GrownRings(r, more).reqs[ReqSlot(r, k)] == r.reqs[ReqSlot(r, k)]
  {
    if Wrapped(r) {
      TailAfterGrowth(r, more, ReqSlot(r, k));
      forall i | r.tout <= i < |r.tims|
        ensures r.tims[i].requestId != ReqSlot(r, k)
      {
        var owner := TailOwner(r, i);
        SlotInjective(r.rout, owner, k, |r.reqs|);
      }
    }
  }

  /** The `j`-th timer of the `d`-th request in the merged stretch. */
  lemma {:induction false} LabelsAt(a: seq<Staged>, n: nat, c: nat, p: nat, size: nat, d: nat, j: nat)
    requires n <= |a| && p < size && c + n <= size && d < n && j < |a[d].timers|
    ensures TimerSum(a, d) + j < TimerSum(a, n)
    ensures Labels(a, n, c, p, size)[TimerSum(a, d) + j] == a[d].timers[j].(requestId := Slot(p, c + d, size))
  {
    if d < n - 1 { LabelsAt(a, n - 1, c, p, size, d, j); }
  }

  /** Everything a finished batch establishes, seen from the two `in` cursors. */
  ghost predicate Finished(r: Rings, r': Rings, a: seq<Staged>, base: nat) {
    && Shape(r) && r.live + |a| < |r.reqs| && Total(r) + TimerSum(a, |a|) < |r.tims|
    && r'.rout == r.rout && r'.live == r.live + |a| && r'.tout == r.tout
    && |r'.reqs| == |r.reqs| && |r'.tims| == |r.tims|
    && (forall d :: 0 <= d < |a| ==> a[d].copyOk && WellStaged(a[d]))
    && Packed(Rotated(r.reqs, RequestsIn(r)), a, base)
    && Merged(Rotated(r.reqs, RequestsIn(r)), Rotated(r'.reqs, RequestsIn(r)),
              Rotated(r.tims, TimersEnd(r)), Rotated(r'.tims, TimersEnd(r)),
              a, |a|, 0, 0, RequestsIn(r), TimersEnd(r))
  }

  lemma FinishedRecord(r: Rings, r': Rings, a: seq<Staged>, base: nat, d: nat)
    requires Finished(r, r', a, base) && d < |a|
    ensures FinalRecord(r, r', a, base, d)
  {
    var p, q := RequestsIn(r), TimersEnd(r);
    RotatedAt(r'.reqs, p);
    assert MergedAt(Rotated(r.reqs, p), Rotated(r'.reqs, p), a, d, 0, 0, q, |r.tims|);
    SlotCompose(r.rout, r.live, d, |r.reqs|);
    TimerSumMonotone(a, d, |a|);
    SlotCompose(r.tout, Total(r), TimerSum(a, d), |r.tims|);
  }

  lemma FinishedTimers(r: Rings, r': Rings, a: seq<Staged>, base: nat, d: nat)
    requires Finished(r, r', a, base) && d < |a|
    ensures FinalTimers(r, r', a, d)
  {
    var size, o := |r.tims|, TimerSum(a, d);
    TimerSumMonotone(a, d + 1, |a|);
    var at := Slot(r.tout, Total(r) + o, size);
    forall j | 0 <= j < |a[d].timers|
      ensures Window(r'.tims, at, |a[d].timers|)[j] == Relabel(a[d].timers, ReqSlot(r, r.live + d))[j]
    {
      FinishedTimer(r, r', a, base, d, j);
      SlotCompose(r.tout, Total(r) + o, j, size);
    }
    assert Window(r'.tims, at, |a[d].timers|) == Relabel(a[d].timers, ReqSlot(r, r.live + d));
  }

  lemma FinishedTimer(r: Rings, r': Rings, a: seq<Staged>, base: nat, d: nat, j: nat)
    requires Finished(r, r', a, base) && d < |a| && j < |a[d].timers|
    ensures Total(r) + TimerSum(a, d) + j <= |r.tims|
    ensures r'.tims[Slot(r.tout, Total(r) + TimerSum(a, d) + j, |r.tims|)]
            == a[d].timers[j].(requestId := ReqSlot(r, r.live + d))
  {
    var p, q, o := RequestsIn(r), TimersEnd(r), TimerSum(a, d);
    SlotCompose(r.rout, r.live, d, |r.reqs|);
    LabelsAt(a, |a|, 0, p, |r.reqs|, d, j);
    StoredAt(r, r'.tims, o + j);
    assert Rotated(r'.tims, q)[o + j] == Labels(a, |a|, 0, p, |r.reqs|)[o + j];
  }

  /** A timer slot past the occupied ones, seen from the `in` cursor. */
  lemma StoredAt(r: Rings, tims: seq<Timer>, x: nat)
    requires Shape(r) && |tims| == |r.tims| && Total(r) + x < |r.tims|
    ensures tims[Slot(r.tout, Total(r) + x, |r.tims|)] == Rotated(tims, TimersEnd(r))[x]
  {
    RotatedAt(tims, TimersEnd(r));
    SlotCompose(r.tout, Total(r), x, |r.tims|);
  }

  lemma OldTimerFromIn(r: Rings, x: nat)
    requires Shape(r) && x < Total(r)
    ensures Slot(r.tout, x, |r.tims|) == Slot(TimersEnd(r), |r.tims| - Total(r) + x, |r.tims|)
  {
  }

  lemma FinishedOldTimers(r: Rings, r': Rings, a: seq<Staged>, base: nat, x: nat)
    requires Finished(r, r', a, base) && x < Total(r)
    ensures r'.tims[Slot(r.tout, x, |r.tims|)] == r.tims[Slot(r.tout, x, |r.tims|)]
  {
    var q := TimersEnd(r);
    RotatedAt(r'.tims, q);
    RotatedAt(r.tims, q);
    OldTimerFromIn(r, x);
    var o := |r.tims| - Total(r) + x;
    assert Rotated(r'.tims, q)[o] == Rotated(r.tims, q)[o];
  }

  /** A finished batch extends the window. */
  lemma FinishedExtends(r: Rings, r': Rings, a: seq<Staged>, base: nat)
    requires Finished(r, r', a, base)
    ensures Extended(r, r', a, base)
  {
    forall k | 0 <= k < r.live
      ensures r'.reqs[ReqSlot(r, k)] == r.reqs[ReqSlot(r, k)]
    {
      BatchTouchesOnlyFree(r, r'.reqs, |a|);
    }
    forall d | 0 <= d < |a|
      ensures FinalRecord(r, r', a, base, d) && FinalTimers(r, r', a, d)
    {
      FinishedRecord(r, r', a, base, d);
      FinishedTimers(r, r', a, base, d);
    }
    forall x | 0 <= x < Total(r)
      ensures r'.tims[Slot(r.tout, x, |r.tims|)] == r.tims[Slot(r.tout, x, |r.tims|)]
    {
      FinishedOldTimers(r, r', a, base, x);
    }
  }

  /** Requests whose timers could not be stored. */
  ghost function Stripped(a: seq<Staged>): (b: seq<Staged>)
    ensures |b| == |a|
  {
    seq(|a|, d requires 0 <= d < |a| => a[d].(listed := 0, timers := []))
  }

  lemma {:induction false} StrippedTimers(a: seq<Staged>, n: nat, c: nat, p: nat, size: nat)
    requires n <= |a| && p < size && c + n <= size
    ensures TimerSum(Stripped(a), n) == 0 && Labels(Stripped(a), n, c, p, size) == []
  {
    if n > 0 { StrippedTimers(a, n - 1, c, p, size); }
  }

  /** Without timers to place, there is nothing to merge. */
  lemma NothingToMerge(w: seq<Record>, tw: seq<Timer>, a: seq<Staged>, p: nat, q: nat)
    requires p < |w| && q < |tw| && |a| <= |w|
    ensures TimerSum(Stripped(a), |a|) == 0
    ensures Merged(w, w, tw, tw, Stripped(a), |a|, 0, 0, p, q)
  {
    StrippedTimers(a, |a|, 0, p, |w|);
    forall d | 0 <= d < |a|
      ensures MergedAt(w, w, Stripped(a), d, 0, 0, q, |tw|)
    {
      StrippedTimers(a, d, 0, p, |w|);
    }
  }
}
