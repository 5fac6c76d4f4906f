/** The invariant that spans both rings: the timers of the live requests tile the timer
    ring from `out` to `in`, in request order. */
module Tiling {
  import opened Ring
  import opened Types
  import opened Pools

  /** Timers stored for the first `k` records. */
  function Off(recs: seq<Record>, k: nat): nat
    requires k <= |recs|
  {
    if k == 0 then 0 else Off(recs, k - 1) + recs[k - 1].timersCnt
  }

  lemma {:induction false} OffMonotone(recs: seq<Record>, a: nat, b: nat)
    requires a <= b <= |recs|
    ensures Off(recs, a) <= Off(recs, b)
  {
    if a < b { OffMonotone(recs, a, b - 1); }
  }

  /** `Off` looks only at the timer counts of a prefix. */
  lemma {:induction false} OffSame(recs: seq<Record>, recs': seq<Record>, k: nat)
    requires k <= |recs| && k <= |recs'|
    requires forall i :: 0 <= i < k ==> recs[i].timersCnt == recs'[i].timersCnt
    ensures Off(recs, k) == Off(recs', k)
  {
    if k > 0 { OffSame(recs, recs', k - 1); }
  }

  lemma {:induction false} OffDrop(recs: seq<Record>, m: nat, k: nat)
    requires m + k <= |recs|
    ensures Off(recs[m..], k) == Off(recs, m + k) - Off(recs, m)
  {
    if k > 0 { OffDrop(recs, m, k - 1); }
  }

  /** The record whose slice covers the `x`-th stored timer. */
  function Owner(recs: seq<Record>, n: nat, x: nat): (k: nat)
    requires n <= |recs| && x < Off(recs, n)
    ensures k < n && Off(recs, k) <= x < Off(recs, k + 1)
  {
    if x >= Off(recs, n - 1) then n - 1 else Owner(recs, n - 1, x)
  }

  lemma OwnerMonotone(recs: seq<Record>, n: nat, x: nat, y: nat)
    requires n <= |recs| && x <= y < Off(recs, n)
    ensures Owner(recs, n, x) <= Owner(recs, n, y)
  {
    var a, b := Owner(recs, n, x), Owner(recs, n, y);
    if b < a { OffMonotone(recs, b + 1, a); }
  }

  /** Both rings as values. `live` requests from `rout` own the timers from `tout`. */
  datatype Rings = Rings(reqs: seq<Record>, rout: nat, live: nat, tims: seq<Timer>, tout: nat)

  ghost predicate Shape(r: Rings) {
    && r.rout < |r.reqs| && r.live < |r.reqs|
    && r.tout < |r.tims|
    && Total(r) < |r.tims|
  }

  ghost function Live(r: Rings): (recs: seq<Record>)
    requires r.rout < |r.reqs| && r.live < |r.reqs|
    ensures |recs| == r.live
  {
    Window(r.reqs, r.rout, r.live)
  }

  ghost function Total(r: Rings): nat
    requires r.rout < |r.reqs| && r.live < |r.reqs|
  {
    Off(Live(r), r.live)
  }

  /** The slot after the last stored timer. */
  ghost function TimersEnd(r: Rings): nat
    requires Shape(r)
  {
    Slot(r.tout, Total(r), |r.tims|)
  }

  ghost function ReqSlot(r: Rings, k: nat): nat
    requires r.rout < |r.reqs| && k <= |r.reqs|
  {
    Slot(r.rout, k, |r.reqs|)
  }

  /** A record's timers, read through the wrap from `timersStart`. */
  ghost function SliceOf(tims: seq<Timer>, rec: Record): (ts: seq<Timer>) {
    if 0 < rec.timersCnt <= |tims| && rec.timersStart < |tims|
    then Window(tims, rec.timersStart, rec.timersCnt) else []
  }

  ghost predicate OwnedBy(ts: seq<Timer>, owner: nat) {
    forall j :: 0 <= j < |ts| ==> ts[j].requestId == owner && ts[j].hitCount > 0
  }

  /** The `k`-th live request's slice begins where the previous slices end, and every timer
      in it was hit and names that request's slot. */
  ghost predicate Placed(r: Rings, k: nat)
    requires Shape(r) && k < r.live
  {
    var rec := Live(r)[k];
    rec.timersCnt > 0 ==>
      && Off(Live(r), k) < |r.tims|
      && rec.timersStart == Slot(r.tout, Off(Live(r), k), |r.tims|)
      && rec.timersCnt <= |r.tims|
      && OwnedBy(SliceOf(r.tims, rec), ReqSlot(r, k))
  }

  ghost predicate Tiled(r: Rings) {
    Shape(r) && forall k :: 0 <= k < r.live ==> Placed(r, k)
  }

  ghost function EntryOf(slot: nat, rec: Record, tims: seq<Timer>): Entry {
    Entry(slot, rec.time, rec.counter, rec.data, SliceOf(tims, rec))
  }

  /** The live requests with their timers: all that readers of the rings can see. */
  ghost function View(r: Rings): (v: seq<Entry>)
    requires Shape(r)
    ensures |v| == r.live
    ensures forall k :: 0 <= k < r.live ==> v[k] == EntryOf(ReqSlot(r, k), Live(r)[k], r.tims)
  {
    seq(r.live, k requires 0 <= k < r.live => EntryOf(ReqSlot(r, k), Live(r)[k], r.tims))
  }

  /** The timers of the first `k` requests, in request order. */
  ghost function AllTimers(v: seq<Entry>, k: nat): seq<Timer>
    requires k <= |v|
  {
    if k == 0 then [] else AllTimers(v, k - 1) + v[k - 1].timers
  }

  /** The slices cover the occupied part of the timer ring exactly: read in request order
      they are the ring's contents, no timer missing, shared or left over. */
  lemma {:induction false} SlicesTileTheRing(r: Rings)
    requires Tiled(r)
    ensures AllTimers(View(r), r.live) == Window(r.tims, r.tout, Total(r))
  {
    PrefixTiles(r, r.live);
  }

  lemma {:induction false} PrefixTiles(r: Rings, k: nat)
    requires Tiled(r) && k <= r.live
    ensures Off(Live(r), k) <= Total(r)
    ensures AllTimers(View(r), k) == Window(r.tims, r.tout, Off(Live(r), k))
  {
    OffMonotone(Live(r), k, r.live);
    if k > 0 {
      PrefixTiles(r, k - 1);
      SliceFollows(r, k - 1);
    }
  }

  /** A request's timers follow those of the requests before it. */
  lemma SliceFollows(r: Rings, k: nat)
    requires Tiled(r) && k < r.live && Off(Live(r), k + 1) <= Total(r)
    ensures Window(r.tims, r.tout, Off(Live(r), k + 1))
            == Window(r.tims, r.tout, Off(Live(r), k)) + View(r)[k].timers
  {
    var rec, o := Live(r)[k], Off(Live(r), k);
    if rec.timersCnt > 0 {
      assert Placed(r, k);
      WindowSplit(r.tims, r.tout, o, rec.timersCnt);
    } else {
      assert Window(r.tims, r.tout, o) + [] == Window(r.tims, r.tout, o);
    }
  }

  /** Which request a stored timer names. */
  lemma TimerNamesOwner(r: Rings, x: nat)
    requires Tiled(r) && x < Total(r)
    ensures var k := Owner(Live(r), r.live, x);
            r.tims[Slot(r.tout, x, |r.tims|)].requestId == ReqSlot(r, k)
  {
    var k := Owner(Live(r), r.live, x);
    assert Placed(r, k);
    var j := x - Off(Live(r), k);
    SlotCompose(r.tout, Off(Live(r), k), j, |r.tims|);
    assert SliceOf(r.tims, Live(r)[k])[j].requestId == ReqSlot(r, k);
  }
}
