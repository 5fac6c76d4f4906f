/** What admission and expiry make of the window, without the rings: the live requests as a
    sequence, from which a batch and an expiry compute the next. */
module Contents {
  import opened Ring
  import opened Time
  import opened Types
  import opened Tiling
  import opened Batch
  import opened Merge
  import opened Append
  import opened Admission
  import opened Engine
  import opened Stamps
  import Jobs

  /** Timers of the live requests. */
  ghost function TimersHeld(live: seq<Entry>, n: nat): nat
    requires n <= |live|
  {
    if n == 0 then 0 else TimersHeld(live, n - 1) + |live[n - 1].timers|
  }

  lemma {:induction false} HeldIsOff(r: Rings, n: nat)
    requires Tiled(r) && n <= r.live
    ensures TimersHeld(View(r), n) == Off(Tiling.Live(r), n)
  {
    if n > 0 {
      HeldIsOff(r, n - 1);
      assert Placed(r, n - 1);
      assert View(r)[n - 1].timers == SliceOf(r.tims, Tiling.Live(r)[n - 1]);
    }
  }

  /** A ring of `size` slots always keeps one of them empty. */
  ghost function RoomIn(c: Content, size: nat): nat {
    if |c.live| < size then size - |c.live| - 1 else 0
  }

  /** The staged requests that a batch copies. */
  ghost function Offer(c: Content, size: nat, tmp: seq<seq<Staged>>): (f: seq<Staged>)
    ensures |f| <= RoomIn(c, size)
  {
    Taken(Jobs.Concat(tmp), RoomIn(c, size))
  }

  ghost function Stores(c: Content, f: seq<Staged>, memOk: bool): bool {
    var n := JobTimers(f, |f|);
    n > 0 && (memOk || TimersHeld(c.live, |c.live|) + n < c.slots)
  }

  /** The requests that become live: the successful copies of those that fit, in order, at the
      next slots, with the next counters, and with their timers if those could be stored. */
  ghost function Admitted(c: Content, size: nat, tmp: seq<seq<Staged>>, memOk: bool): (es: seq<Entry>)
    requires c.inp < size
    ensures |es| <= RoomIn(c, size) && |es| < size
  {
    var f := Offer(c, size, tmp);
    NewEntries(Kept(f, Stores(c, f, memOk)), c.inp, size, c.counter)
  }

  ghost function AfterBatch(c: Content, size: nat, grow: nat, tmp: seq<seq<Staged>>, memOk: bool): Content
    requires c.inp < size
  {
    var f, es := Offer(c, size, tmp), Admitted(c, size, tmp, memOk);
    Content(c.live + es, c.behind, c.counter + |es|, Slot(c.inp, |es|, size),
            TimerSlots(c.slots, TimersHeld(c.live, |c.live|), JobTimers(f, |f|), grow, memOk))
  }

  /** What a batch that staged something leaves at `in` for reports without a start. */
  ghost function Start(c: Content, size: nat, tmp: seq<seq<Staged>>, memOk: bool): Stamp
    requires c.inp < size
  {
    var es, job := Admitted(c, size, tmp, memOk), FirstJob(Plan(tmp, RoomIn(c, size)));
    if es != [] then StampFrom(es[0])
    else if RoomIn(c, size) == 0 || job == [] then c.behind
    else StampOf(LastFailed(job, c.counter))
  }

  /** Expiry lets go of the oldest request as long as it is older than the cutoff. */
  ghost function AfterExpiry(c: Content, from: Timeval): (c': Content)
    ensures |c'.live| <= |c.live| && c'.inp == c.inp && c'.counter == c.counter
    decreases |c.live|
  {
    if c.live == [] || !Less(c.live[0].time, from) then c
    else AfterExpiry(c.(live := c.live[1..], behind := StampFrom(c.live[0])), from)
  }

  ghost function Expired(live: seq<Entry>, from: Timeval): seq<Entry> {
    if live == [] || !Less(live[0].time, from) then [] else [live[0]] + Expired(live[1..], from)
  }

  /** What leaves is the longest prefix older than the cutoff, and the last of it is what stands
      before `out` afterwards. */
  ghost predicate Splits(c: Content, from: Timeval, gone: seq<Entry>, c': Content) {
    && gone + c'.live == c.live && c' == c.(live := c'.live, behind := LastOf(gone, c.behind))
    && (forall k :: 0 <= k < |gone| ==> Less(gone[k].time, from))
    && (c'.live != [] ==> !Less(c'.live[0].time, from))
  }

  lemma {:induction false} ExpirySplits(c: Content, from: Timeval)
    ensures Splits(c, from, Expired(c.live, from), AfterExpiry(c, from))
    decreases |c.live|
  {
    if c.live != [] && Less(c.live[0].time, from) {
      var next := c.(live := c.live[1..], behind := StampFrom(c.live[0]));
      ExpirySplits(next, from);
      assert c.live == [c.live[0]] + next.live;
    }
  }

  /** The rings do to the window what the functions say. */
  method AdmitTo(window: RawWindow, tmp: seq<seq<Staged>>, memOk: bool, ghost c: Content)
    returns (admitted: seq<Entry>, at: Stamp, ghost c': Content)
    requires window.Holds(c) && GoodBatch(Jobs.Concat(tmp))
    modifies window, window.reqs, window.reqs.data, window.tims, window.tims.data
    ensures window.reqs.data == old(window.reqs.data)
    ensures window.tims.data == old(window.tims.data) || fresh(window.tims.data)
    ensures c.inp < window.reqs.data.Length && |c.live| < window.reqs.data.Length
    ensures c' == AfterBatch(c, window.reqs.data.Length, window.growTimers, tmp, memOk) && window.Holds(c')
    ensures admitted == Admitted(c, window.reqs.data.Length, tmp, memOk)
    ensures Jobs.Concat(tmp) != [] ==> at == Start(c, window.reqs.data.Length, tmp, memOk)
  {
    ghost var size := window.reqs.data.Length;
    Measured(window, c);
    PlanTakesPrefix(tmp, window.Room());
    var stored;
    admitted, stored, at := window.Admit(tmp, memOk);
    BatchIs(c, size, window.growTimers, tmp, memOk, admitted, stored, at, window.tims.data.Length);
    c' := Content(c.live + admitted, c.behind, c.counter + |admitted|, Slot(c.inp, |admitted|, size), window.tims.data.Length);
  }

  lemma Measured(window: RawWindow, c: Content)
    requires window.Holds(c)
    ensures c.inp < window.reqs.data.Length && |c.live| < window.reqs.data.Length
    ensures window.Room() == RoomIn(c, window.reqs.data.Length)
    ensures Total(window.AsRings()) == TimersHeld(c.live, |c.live|)
  {
    HeldIsOff(window.AsRings(), window.AsRings().live);
  }

  lemma BatchIs(c: Content, size: nat, grow: nat, tmp: seq<seq<Staged>>, memOk: bool,
                admitted: seq<Entry>, stored: bool, at: Stamp, slots: nat)
    requires c.inp < size && |c.live| < size
    requires var room, held := RoomIn(c, size), TimersHeld(c.live, |c.live|);
             var f := Taken(Jobs.Concat(tmp), room);
             && admitted == NewEntries(Kept(f, stored), c.inp, size, c.counter)
             && (stored <==> JobTimers(f, |f|) > 0 && (memOk || held + JobTimers(f, |f|) < c.slots))
             && (admitted != [] ==> at == Stamp(admitted[0].time, admitted[0].counter))
             && (admitted == [] && f != [] ==>
                   var job := FirstJob(Plan(tmp, room)); job != [] && at == StampOf(LastFailed(job, c.counter)))
             && slots == TimerSlots(c.slots, held, JobTimers(f, |f|), grow, memOk)
             && (room == 0 ==> at == c.behind)
    ensures admitted == Admitted(c, size, tmp, memOk)
    ensures AfterBatch(c, size, grow, tmp, memOk)
            == Content(c.live + admitted, c.behind, c.counter + |admitted|, Slot(c.inp, |admitted|, size), slots)
    ensures Jobs.Concat(tmp) != [] ==> at == Start(c, size, tmp, memOk)
  {
  }

  /** There is only one way to split, so the rings do that too. */
  method ExpireFrom(window: RawWindow, from: Timeval, ghost c: Content, ghost gone: seq<Entry>, ghost c': Content)
    returns (expired: seq<Entry>)
    requires window.Holds(c) && Splits(c, from, gone, c')
    modifies window.reqs, window.reqs.data, window.tims, window.tims.data
    ensures window.reqs.data == old(window.reqs.data) && window.tims.data == old(window.tims.data)
    ensures window.Holds(c') && expired == gone
  {
    expired := window.Expire(from);
    SplitUnique(expired, window.Live(), gone, c'.live, from);
  }

  lemma SplitUnique(gone: seq<Entry>, rest: seq<Entry>, gone': seq<Entry>, rest': seq<Entry>, from: Timeval)
    requires gone + rest == gone' + rest'
    requires forall k :: 0 <= k < |gone| ==> Less(gone[k].time, from)
    requires forall k :: 0 <= k < |gone'| ==> Less(gone'[k].time, from)
    requires (rest != [] ==> !Less(rest[0].time, from)) && (rest' != [] ==> !Less(rest'[0].time, from))
    ensures gone == gone' && rest == rest'
  {
    var all, n, m := gone + rest, |gone|, |gone'|;
    assert rest != [] ==> all[n] == rest[0];
    assert rest' != [] ==> all[m] == rest'[0];
    assert forall k :: 0 <= k < n ==> all[k] == gone[k];
    assert forall k :: 0 <= k < m ==> all[k] == gone'[k];
    assert gone == all[..n] && rest == all[n..] && gone' == all[..m] && rest' == all[m..];
  }
}
