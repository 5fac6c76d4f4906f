/** The engine's raw window: a request ring and a timer ring moved by admission and expiry. */
module Engine {
  import opened Sequences
  import opened Ring
  import opened Time
  import opened Types
  import opened Pools
  import opened Tiling
  import opened Relocation
  import opened Batch
  import opened Merge
  import opened Admission
  import opened Publish
  import opened Append
  import opened Expiry
  import opened Commit
  import Jobs
  import Stamps

  /** Every stored timer resolved at least one of its tags. */
  ghost predicate AllTagged(v: seq<Entry>) {
    forall k :: 0 <= k < |v| ==> EntryTagged(v[k])
  }

  ghost predicate EntryTagged(e: Entry) {
    forall j :: 0 <= j < |e.timers| ==> e.timers[j].tags != []
  }

  /** A first timer with tags is all the relocation scan needs. */
  lemma TaggedTail(r: Rings)
    requires Tiled(r) && AllTagged(View(r))
    ensures TailTagged(r)
  {
    forall k | 0 <= k < r.live && Live(r)[k].timersCnt > 0 && Live(r)[k].timersStart >= r.tout
      ensures Tagged(r.tims, r.tout, |r.tims|, ReqSlot(r, k))
    {
      assert Placed(r, k);
      assert EntryTagged(View(r)[k]);
      var ts := SliceOf(r.tims, Live(r)[k]);
      assert View(r)[k].timers == ts && ts[0] == r.tims[Live(r)[k].timersStart];
    }
  }

  /** Growth left the free request slots, and where they begin, alone. */
  ghost predicate SparesFree(r: Rings, r': Rings) {
    && Shape(r) && Shape(r')
    && |r'.reqs| == |r.reqs| && r'.rout == r.rout && r'.live == r.live
    && forall k :: r.live <= k < |r.reqs| ==> r'.reqs[ReqSlot(r, k)] == r.reqs[ReqSlot(r, k)]
  }

  lemma GrowthSparesFree(r: Rings, more: nat)
    requires Tiled(r)
    ensures SparesFree(r, GrownRings(r, more))
  {
    GrownShape(r, more);
    forall k | r.live <= k < |r.reqs|
      ensures GrownRings(r, more).reqs[ReqSlot(r, k)] == r.reqs[ReqSlot(r, k)]
    {
      RelocationSparesFree(r, more, k);
    }
  }

  function StampOf(record: Record): Stamps.Stamp {
    Stamps.Stamp(record.time, record.counter)
  }

  /** Time and counter of the last of some requests, or `other` if there are none. */
  ghost function LastOf(es: seq<Entry>, other: Stamps.Stamp): Stamps.Stamp {
    if es == [] then other else Stamps.Stamp(es[|es| - 1].time, es[|es| - 1].counter)
  }

  /** What the slot before `out` holds. */
  ghost function BehindOf(r: Rings): Stamps.Stamp
    requires r.rout < |r.reqs|
  {
    StampOf(r.reqs[ReqSlot(r, |r.reqs| - 1)])
  }

  /** A free slot, counted from `in` instead of from `out`. */
  lemma FreeFromIn(r: Rings, k: nat)
    requires Shape(r) && r.live <= k < |r.reqs|
    ensures ReqSlot(r, k) == Slot(RequestsIn(r), k - r.live, |r.reqs|)
  {
    SlotCompose(r.rout, r.live, k - r.live, |r.reqs|);
  }

  /** Writes to the first `n` free slots leave the slot before `out` alone. */
  lemma BatchSparesBehind(r: Rings, reqs': seq<Record>, n: nat)
    requires Shape(r) && |reqs'| == |r.reqs| && n + r.live < |r.reqs|
    requires forall o :: n <= o < |r.reqs| ==>
      Rotated(reqs', RequestsIn(r))[o] == Rotated(r.reqs, RequestsIn(r))[o]
    ensures BehindOf(r.(reqs := reqs')) == BehindOf(r)
  {
    var k := |r.reqs| - 1;
    FreeFromIn(r, k);
    RotatedAt(reqs', RequestsIn(r));
    RotatedAt(r.reqs, RequestsIn(r));
    assert Rotated(reqs', RequestsIn(r))[k - r.live] == Rotated(r.reqs, RequestsIn(r))[k - r.live];
  }

  lemma FinishedSparesBehind(r: Rings, r': Rings, a: seq<Staged>, base: nat)
    requires Finished(r, r', a, base)
    ensures BehindOf(r') == BehindOf(r)
  {
    BatchSparesBehind(r, r'.reqs, |a|);
  }

  lemma FilledSparesBehind(r: Rings, r': Rings, a: seq<Staged>, base: nat)
    requires r'.rout < |r'.reqs| && Finished(r, r'.(live := r.live + |a|), a, base)
    ensures BehindOf(r') == BehindOf(r)
  {
    FinishedSparesBehind(r, r'.(live := r.live + |a|), a, base);
    BehindIgnoresLive(r', r.live + |a|);
  }

  lemma GrowthSparesBehind(r: Rings, r': Rings)
    requires SparesFree(r, r')
    ensures BehindOf(r') == BehindOf(r)
  {
    assert r'.reqs[ReqSlot(r, |r.reqs| - 1)] == r.reqs[ReqSlot(r, |r.reqs| - 1)];
  }

  lemma BehindIgnoresLive(r: Rings, live: nat)
    requires r.rout < |r.reqs|
    ensures BehindOf(r.(live := live)) == BehindOf(r)
  {
  }

  /** What packing the copies `f` of a batch makes of the free part of the ring: the successful
      ones in order from the front, nothing past the batch, and the last failed copy of the
      first job at the front if none succeeded. */
  ghost predicate BatchPacked(w0: seq<Record>, w: seq<Record>, jobs: seq<seq<Staged>>, f: seq<Staged>, base: nat) {
    && |w| == |w0| && |f| <= |w| && f == Jobs.Concat(jobs)
    && Packed(w, Accepted(f), base)
    && (forall o :: |f| <= o < |w| ==> w[o] == w0[o])
    && (f != [] && Succ(f, |f|) == 0 ==> FirstJob(jobs) != [] && w[0] == LastFailed(FirstJob(jobs), base))
  }

  /** The time and counter that stand at `in` after packing. */
  lemma FrontOfBatch(w0: seq<Record>, w: seq<Record>, jobs: seq<seq<Staged>>, f: seq<Staged>, stored: bool, p: nat, base: nat)
    requires p < |w| && BatchPacked(w0, w, jobs, f, base)
    ensures var es := NewEntries(Kept(f, stored), p, |w|, base);
            && (es == [] <==> Succ(f, |f|) == 0)
            && (es != [] ==> StampOf(w[0]) == Stamps.Stamp(es[0].time, es[0].counter))
            && (es == [] && f != [] ==> FirstJob(jobs) != [] && StampOf(w[0]) == StampOf(LastFailed(FirstJob(jobs), base)))
            && (f == [] ==> StampOf(w[0]) == StampOf(w0[0]))
  {
    if Succ(f, |f|) > 0 {
      assert w[0] == Raw(Accepted(f)[0], base + 0);
    }
  }

  /** Slots of the timer ring once `n` more timers were asked for: it grows if they do not fit
      and memory allows it. */
  function TimerSlots(slots: nat, held: nat, n: nat, grow: nat, memOk: bool): nat {
    if held + n < slots || !memOk then slots else slots + if grow < n then grow + n else grow
  }

  /** All there is to know about a window from outside: the live requests, what stands before
      `out`, the next counter, the slot at `in` and the number of timer slots. */
  datatype Content = Content(live: seq<Entry>, behind: Stamps.Stamp, counter: nat, inp: nat, slots: nat)

  class RawWindow {
    const reqs: Pool<Record>
    const tims: Pool<Timer>
    const threads: nat
    const growTimers: nat
    var counter: nat

    ghost predicate Shaped()
      reads this, reqs, tims
    {
      && reqs.IsRing() && tims.IsRing() && threads > 0 && growTimers > 0
      && tims.limit == 0 && tims.zero == NO_TIMER
      && reqs.data as object != tims.data && reqs as object != tims
    }

    ghost function AsRings(): Rings
      requires reqs.IsRing()
      reads this, reqs, reqs.data, tims, tims.data
    {
      Rings(reqs.data[..], reqs.out, reqs.NumRecords(), tims.data[..], tims.out)
    }

    ghost predicate Valid()
      reads this, reqs, reqs.data, tims, tims.data
    {
      && Shaped()
      && Tiled(AsRings()) && tims.inp == TimersEnd(AsRings())
      && AllTagged(View(AsRings()))
    }

    /** What the slot before `out` holds: the last request that expired, or nothing yet. No
        batch ever writes there. */
    ghost function Behind(): Stamps.Stamp
      requires reqs.IsRing()
      reads this, reqs, reqs.data, tims, tims.data
    {
      BehindOf(AsRings())
    }

    /** The live requests, oldest first, each with its timers. */
    ghost function Live(): seq<Entry>
      requires Valid()
      reads this, reqs, reqs.data, tims, tims.data
    {
      View(AsRings())
    }

    ghost predicate Holds(c: Content)
      reads this, reqs, reqs.data, tims, tims.data
    {
      && Valid() && Live() == c.live && Behind() == c.behind && counter == c.counter
      && reqs.inp == c.inp && tims.data.Length == c.slots
    }

    constructor (reqSize: nat, timSize: nat, threads: nat, growTimers: nat)
      requires reqSize > 0 && timSize > 0 && threads > 0 && growTimers > 0
      ensures Valid() && Live() == [] && counter == 0 && Behind() == Stamps.Stamp(ZERO, 0)
      ensures fresh(reqs) && fresh(reqs.data) && fresh(tims) && fresh(tims.data)
      ensures reqs.data.Length == reqSize && tims.data.Length == timSize && reqs.inp == 0 && this.growTimers == growTimers
    {
      reqs := new Pool(reqSize, 0, 0, NO_RECORD);
      tims := new Pool(timSize, 0, growTimers, NO_TIMER);
      this.threads := threads;
      this.growTimers := growTimers;
      counter := 0;
    }

    /** Do `n` more timers fit without growing the timer ring? */
    ghost predicate TimersFit(n: nat)
      requires reqs.IsRing()
      reads this, reqs, reqs.data, tims, tims.data
    {
      Total(AsRings()) + n < tims.data.Length
    }

    /** Reserve `n` consecutive timer slots, growing the ring first if they do not fit; -1 if
        it cannot grow. Nothing a reader sees changes. */
    method TimerPoolAdd(n: nat, memOk: bool) returns (id: int)
      requires Valid()
      modifies reqs.data, tims
      ensures Shaped() && reqs.data == old(reqs.data) && (tims.data == old(tims.data) || fresh(tims.data))
      ensures Tiled(AsRings()) && View(AsRings()) == old(Live())
      ensures SparesFree(old(AsRings()), AsRings())
      ensures id == -1 <==> !memOk && !old(TimersFit(n))
      ensures tims.data.Length == TimerSlots(old(tims.data.Length), old(Total(AsRings())), n, growTimers, memOk)
      ensures id == -1 ==> tims.inp == TimersEnd(AsRings())
      ensures id != -1 ==>
        && id == TimersEnd(AsRings()) && Total(AsRings()) + n < tims.data.Length
        && tims.inp == Slot(id, n, tims.data.Length)
    {
      ghost var r := AsRings();
      if tims.NumRecords() + n >= tims.data.Length {
        var more := growTimers;
        if more < n {
          more := more + n;
        }
        var ok := GrowTimers(more, memOk);
        if !ok {
          return -1;
        }
      }
      id := tims.inp;
      tims.inp := if tims.inp + n >= tims.data.Length then tims.inp + n - tims.data.Length else tims.inp + n;
    }

    method GrowTimers(more: nat, memOk: bool) returns (ok: bool)
      requires Valid() && more > 0
      modifies reqs.data, tims
      ensures Valid() && Live() == old(Live())
      ensures reqs.data == old(reqs.data) && (tims.data == old(tims.data) || fresh(tims.data))
      ensures ok == memOk && tims.data.Length == old(tims.data.Length) + (if ok then more else 0)
      ensures Total(AsRings()) == old(Total(AsRings())) && SparesFree(old(AsRings()), AsRings())
    {
      ghost var r := AsRings();
      ok := tims.Grow(more, memOk);
      if ok {
        TaggedTail(r);
        GrownShape(r, more);
        RelocationKeepsTiling(r, more);
        GrowthSparesFree(r, more);
        if tims.out > tims.inp {
          RelocateStarts(reqs, tims, more, r);
        }
        assert AsRings() == GrownRings(r, more);
      }
    }

    /** Read `n` requests through the rings, starting at slot `from`, the way report jobs do. */
    method ReadRange(from: nat, n: nat, ghost r: Rings, ghost k0: nat) returns (es: seq<Entry>)
      requires Shaped() && Tiled(r) && r.reqs == reqs.data[..] && r.tims == tims.data[..]
      requires k0 + n <= r.live && from == ReqSlot(r, k0)
      ensures es == View(r)[k0..k0 + n]
    {
      es := [];
      var slot := from;
      ghost var view := View(r);
      for i := 0 to n
        invariant slot == ReqSlot(r, k0 + i)
        invariant es == view[k0..k0 + i]
      {
        var e := ReadEntry(slot, r, k0 + i);
        assert view[k0..k0 + i + 1] == view[k0..k0 + i] + [view[k0 + i]];
        es := es + [e];
        slot := if slot == reqs.data.Length - 1 then 0 else slot + 1;
      }
    }

    method ReadEntry(slot: nat, ghost r: Rings, ghost k: nat) returns (e: Entry)
      requires Shaped() && Tiled(r) && r.reqs == reqs.data[..] && r.tims == tims.data[..]
      requires k < r.live && slot == ReqSlot(r, k)
      ensures e == View(r)[k]
    {
      assert Placed(r, k);
      var record := reqs.data[slot];
      assert record == Tiling.Live(r)[k];
      var ts := ReadTimers(record);
      e := Entry(slot, record.time, record.counter, record.data, ts);
    }

    method ReadTimers(record: Record) returns (ts: seq<Timer>)
      requires record.timersCnt > 0 ==> record.timersStart < tims.data.Length && record.timersCnt <= tims.data.Length
      ensures ts == SliceOf(tims.data[..], record)
    {
      ts := [];
      for j := 0 to record.timersCnt
        invariant |ts| == j
        invariant forall i :: 0 <= i < j ==> ts[i] == tims.data[Slot(record.timersStart, i, tims.data.Length)]
      {
        var at := record.timersStart + j;
        ts := ts + [tims.data[if at >= tims.data.Length then at - tims.data.Length else at]];
      }
    }

    /** Expire every request older than the cutoff from the front of the window. */
    method Expire(from: Timeval) returns (expired: seq<Entry>)
      requires Valid()
      modifies reqs, reqs.data, tims, tims.data
      ensures Valid() && reqs.data == old(reqs.data) && tims.data == old(tims.data)
      ensures reqs.inp == old(reqs.inp)
      ensures expired + Live() == old(Live())
      ensures Behind() == LastOf(expired, old(Behind()))
      ensures forall k :: 0 <= k < |expired| ==> Less(expired[k].time, from)
      ensures Live() != [] ==> !Less(Live()[0].time, from)
    {
      ghost var r := AsRings();
      var prev := reqs.out;
      var num, timers := DeleteOld(reqs, from);
      ghost var mid := r.(reqs := reqs.data[..]);
      MarkingIsInvisible(r, mid, num);
      expired := ReadRange(prev, num, mid, 0);
      GiveBackTimers(prev, num, timers, r, mid);
      ghost var r' := AsRings();
      WindowAfterExpiry(r, mid, r', num, from);
      assert expired == View(r)[..num];
      BehindAfterExpiry(r, r', num, expired);
      ValidAgain(r');
    }

    method GiveBackTimers(prev: nat, num: nat, timers: nat, ghost r: Rings, ghost mid: Rings)
      requires Shaped() && mid.reqs == reqs.data[..] && mid.tims == r.tims == tims.data[..] && mid.tout == tims.out
      requires mid.rout == prev && mid.live < |mid.reqs| && prev < |mid.reqs| && num <= mid.live
      requires StartsAt(Tiling.Live(mid), num, tims.out, tims.data.Length) && timers == Off(Tiling.Live(mid), num)
      modifies tims, tims.data
      ensures Shaped() && tims.data == old(tims.data) && tims.inp == old(tims.inp)
      ensures tims.out == Slot(mid.tout, timers, |r.tims|)
      ensures Rotated(tims.data[..], mid.tout) == ClearRange(Rotated(r.tims, mid.tout), 0, timers)
    {
      if timers > 0 {
        var tags := ClearAll(reqs, tims, prev, num, threads, Tiling.Live(mid), tims.out);
        tims.out := if tims.out + timers >= tims.data.Length
                    then tims.out + timers - tims.data.Length else tims.out + timers;
      } else {
        assert ClearRange(Rotated(r.tims, mid.tout), 0, 0) == Rotated(r.tims, mid.tout);
      }
    }

    /** Free slots; one slot always stays empty so that a full ring differs from an empty one. */
    function Room(): nat
      requires reqs.IsRing()
      reads this, reqs
    {
      reqs.data.Length - reqs.NumRecords() - 1
    }

    /** Copy the batch into the free part of the ring and pack it. */
    method PackPhase(tmp: seq<seq<Staged>>) returns (jobs: seq<seq<Staged>>, f: seq<Staged>, ids: seq<int>)
      requires reqs.IsRing()
      modifies reqs.data
      ensures jobs == Plan(tmp, Room()) && f == Jobs.Concat(jobs) && |ids| == |f| <= Room()
      ensures IdsPacked(ids, f, |f|, reqs.inp, reqs.data.Length)
      ensures BatchPacked(old(Free(reqs)), Free(reqs), jobs, f, counter)
    {
      ghost var w, src := Free(reqs), [];
      jobs, f, ids, src := CopyAll(reqs, tmp, Room(), counter);
      assert tmp[..|tmp|] == tmp;
      if Succ(f, |f|) == 0 { FailedCopiesLeave(w, jobs, counter); }
      if Succ(f, |f|) < |f| {
        ids := Compact(reqs, f, ids, counter, src, w);
      } else {
        AllCopied(Free(reqs), f, src, counter, |f|);
      }
    }

    /** The same, seen from the window: live requests are not touched. */
    method CopyPhase(tmp: seq<seq<Staged>>) returns (jobs: seq<seq<Staged>>, f: seq<Staged>, ids: seq<int>)
      requires Valid()
      modifies reqs.data
      ensures Valid() && Live() == old(Live()) && AsRings() == old(AsRings()).(reqs := reqs.data[..])
      ensures Total(AsRings()) == old(Total(AsRings())) && Behind() == old(Behind())
      ensures jobs == Plan(tmp, Room()) && f == Jobs.Concat(jobs) && |ids| == |f| <= Room()
      ensures IdsPacked(ids, f, |f|, reqs.inp, reqs.data.Length)
      ensures BatchPacked(old(Free(reqs)), Free(reqs), jobs, f, counter)
    {
      ghost var r := AsRings();
      jobs, f, ids := PackPhase(tmp);
      ghost var r' := r.(reqs := reqs.data[..]);
      BatchTouchesOnlyFree(r, reqs.data[..], |f|);
      BatchSparesBehind(r, reqs.data[..], |f|);
      FreeSlotsAreInvisible(r, r');
      assert AsRings() == r';
    }

    /** Reserve and fill timer slots for a packed batch. `r` is the window the batch will be
        appended to. Without memory for the timers the requests go in without them. */
    method TimerPhase(jobs: seq<seq<Staged>>, f: seq<Staged>, ids: seq<int>, memOk: bool)
      returns (stored: bool, ghost r: Rings)
      requires Valid() && GoodBatch(f)
      requires f == Jobs.Concat(jobs) && |ids| == |f| <= Room()
      requires IdsPacked(ids, f, |f|, reqs.inp, reqs.data.Length) && Packed(Free(reqs), Accepted(f), counter)
      modifies reqs.data, tims, tims.data
      ensures Shaped() && reqs.data == old(reqs.data) && (tims.data == old(tims.data) || fresh(tims.data))
      ensures Tiled(r) && View(r) == old(Live())
      ensures stored <==> JobTimers(f, |f|) > 0 && (memOk || old(TimersFit(JobTimers(f, |f|))))
      ensures var a := Kept(f, stored);
              && Finished(r, AsRings().(live := r.live + |a|), a, counter)
              && tims.inp == Slot(TimersEnd(r), TimerSum(a, |a|), |r.tims|)
      ensures Behind() == old(Behind())
      ensures tims.data.Length == TimerSlots(old(tims.data.Length), old(Total(AsRings())), JobTimers(f, |f|), growTimers, memOk)
    {
      stored := false;
      var timers := JobTimers(f, |f|);
      JobTimersCount(f, |f|);
      r := AsRings();
      if timers > 0 {
        var id := TimerPoolAdd(timers, memOk);
        PackedAfterGrowth(r, AsRings(), Accepted(f), counter);
        GrowthSparesBehind(r, AsRings());
        r := AsRings();
        if id != -1 {
          Fill(jobs, f, ids, id, r);
          FilledSparesBehind(r, AsRings(), Accepted(f), counter);
          stored := true;
          return;
        }
      }
      FinishedWithout(r, f, counter);
    }

    method Fill(jobs: seq<seq<Staged>>, f: seq<Staged>, ids: seq<int>, id: nat, ghost r: Rings)
      requires Shaped() && GoodBatch(f) && r == AsRings() && Tiled(r)
      requires f == Jobs.Concat(jobs) && |ids| == |f| <= Room()
      requires IdsPacked(ids, f, |f|, reqs.inp, reqs.data.Length)
      requires Packed(Rotated(r.reqs, RequestsIn(r)), Accepted(f), counter)
      requires id == TimersEnd(r) && Total(r) + TimerSum(Accepted(f), |Accepted(f)|) < |r.tims|
      modifies reqs.data, tims.data
      ensures var a := Accepted(f);
              Finished(r, AsRings().(live := r.live + |a|), a, counter)
    {
      AcceptedGood(f, |f|);
      MergeAll(reqs, tims, jobs, ids, id);
    }

    /** Admit a batch: what fits is copied, failed copies are dropped, timers are placed, and
        the batch becomes live in one step. `atIn` is what new base reports take their start
        from: the record at `in` once the batch is packed. */
    method Admit(tmp: seq<seq<Staged>>, memOk: bool) returns (admitted: seq<Entry>, stored: bool, atIn: Stamps.Stamp)
      requires Valid() && GoodBatch(Jobs.Concat(tmp))
      modifies this, reqs, reqs.data, tims, tims.data
      ensures Valid() && reqs.data == old(reqs.data) && (tims.data == old(tims.data) || fresh(tims.data))
      ensures Live() == old(Live()) + admitted && Behind() == old(Behind())
      ensures var f := Taken(Jobs.Concat(tmp), old(Room()));
              && admitted == NewEntries(Kept(f, stored), old(reqs.inp), reqs.data.Length, old(counter))
              && (stored <==> JobTimers(f, |f|) > 0
                              && (memOk || old(Total(AsRings())) + JobTimers(f, |f|) < old(tims.data.Length)))
              && (admitted != [] ==> atIn == Stamps.Stamp(admitted[0].time, admitted[0].counter))
              && (admitted == [] && f != [] ==>
                    var job := FirstJob(Plan(tmp, old(Room())));
                    job != [] && atIn == StampOf(LastFailed(job, old(counter))))
              && tims.data.Length == TimerSlots(old(tims.data.Length), old(Total(AsRings())), JobTimers(f, |f|), growTimers, memOk)
      ensures old(Room()) == 0 ==> atIn == old(Behind())
      ensures counter == old(counter) + |admitted| && |admitted| <= reqs.data.Length
      ensures reqs.inp == Slot(old(reqs.inp), |admitted|, reqs.data.Length)
    {
      ghost var w0, p, base := Free(reqs), reqs.inp, counter;
      InIsBehind();
      var jobs, f, ids := CopyPhase(tmp);
      PlanTakesPrefix(tmp, Room());
      assert f == Taken(Jobs.Concat(tmp), Room());
      atIn := StampOf(reqs.data[reqs.inp]);
      ghost var w := Free(reqs);
      assert atIn == StampOf(w[0]);
      admitted, stored := AdmitPacked(jobs, f, ids, memOk);
      FrontOfBatch(w0, w, jobs, f, stored, p, base);
    }

    /** In a full ring the one free slot is both at `in` and before `out`. */
    lemma InIsBehind()
      requires Shaped()
      ensures Room() == 0 ==> StampOf(Free(reqs)[0]) == Behind()
    {
    }

    /** Give a packed batch its timers and publish it. */
    method AdmitPacked(jobs: seq<seq<Staged>>, f: seq<Staged>, ids: seq<int>, memOk: bool)
      returns (admitted: seq<Entry>, stored: bool)
      requires Valid() && GoodBatch(f)
      requires f == Jobs.Concat(jobs) && |ids| == |f| <= Room()
      requires IdsPacked(ids, f, |f|, reqs.inp, reqs.data.Length) && Packed(Free(reqs), Accepted(f), counter)
      modifies this, reqs, reqs.data, tims, tims.data
      ensures Valid() && reqs.data == old(reqs.data) && (tims.data == old(tims.data) || fresh(tims.data))
      ensures Live() == old(Live()) + admitted
      ensures admitted == NewEntries(Kept(f, stored), old(reqs.inp), reqs.data.Length, old(counter))
      ensures Behind() == old(Behind())
      ensures stored <==> JobTimers(f, |f|) > 0 && (memOk || old(TimersFit(JobTimers(f, |f|))))
      ensures tims.data.Length == TimerSlots(old(tims.data.Length), old(Total(AsRings())), JobTimers(f, |f|), growTimers, memOk)
      ensures counter == old(counter) + |admitted| && |admitted| <= reqs.data.Length
      ensures reqs.inp == Slot(old(reqs.inp), |admitted|, reqs.data.Length)
    {
      ghost var r;
      stored, r := TimerPhase(jobs, f, ids, memOk);
      ghost var r' := AsRings().(live := r.live + Succ(f, |f|));
      BatchReady(r, r', f, stored, counter);
      admitted := Publish(Succ(f, |f|), r', View(r), NewEntries(Kept(f, stored), reqs.inp, reqs.data.Length, counter));
    }

    /** Make `created` finished records live and read them back. */
    method Publish(created: nat, ghost r: Rings, ghost live: seq<Entry>, ghost more: seq<Entry>) returns (admitted: seq<Entry>)
      requires Shaped() && reqs.NumRecords() + created < reqs.data.Length
      requires r == AsRings().(live := reqs.NumRecords() + created)
      requires Tiled(r) && AllTagged(View(r)) && tims.inp == TimersEnd(r)
      requires View(r) == live + more && |more| == created
      modifies this, reqs
      ensures Valid() && reqs.data == old(reqs.data) && Live() == live + admitted
      ensures admitted == more && counter == old(counter) + created && Behind() == old(Behind())
      ensures reqs.inp == Slot(old(reqs.inp), created, reqs.data.Length)
    {
      var start := reqs.inp;
      ghost var before := reqs.NumRecords();
      Advance(created);
      ValidAgain(r);
      admitted := ReadRange(start, created, r, before);
      TailOfConcat(live, more);
    }

    lemma ValidAgain(r: Rings)
      requires Shaped() && AsRings() == r && Tiled(r) && AllTagged(View(r)) && tims.inp == TimersEnd(r)
      ensures Valid() && Live() == View(r)
    {
    }

    /** Move the `in` cursor over `created` finished records. */
    method Advance(created: nat)
      requires Shaped() && reqs.NumRecords() + created < reqs.data.Length
      modifies this, reqs
      ensures Shaped() && reqs.data == old(reqs.data) && counter == old(counter) + created
      ensures AsRings() == old(AsRings()).(live := old(reqs.NumRecords()) + created) && Behind() == old(Behind())
      ensures reqs.inp == Slot(old(reqs.inp), created, reqs.data.Length)
    {
      var next := reqs.inp + created;
      reqs.inp := if next >= reqs.data.Length then next - reqs.data.Length else next;
      counter := counter + created;
      BehindIgnoresLive(old(AsRings()), old(reqs.NumRecords()) + created);
    }
  }

  /** The staged requests that fit into the free slots. */
  ghost function Taken(all: seq<Staged>, room: nat): seq<Staged> {
    if |all| <= room then all else all[..room]
  }

  lemma KeptTagged(f: seq<Staged>, stored: bool)
    requires GoodBatch(f)
    ensures forall d :: 0 <= d < |Kept(f, stored)| ==> GoodStaged(Kept(f, stored)[d])
  {
    AcceptedGood(f, |f|);
  }

  /** Publishing a finished batch gives a valid window again. */
  lemma WindowAfterBatch(r: Rings, r': Rings, a: seq<Staged>, base: nat)
    requires Tiled(r) && AllTagged(View(r)) && Finished(r, r', a, base)
    requires forall d :: 0 <= d < |a| ==> GoodStaged(a[d])
    ensures Tiled(r') && View(r') == View(r) + NewEntries(a, RequestsIn(r), |r.reqs|, base)
    ensures AllTagged(View(r'))
    ensures TimersEnd(r') == Slot(TimersEnd(r), TimerSum(a, |a|), |r.tims|)
    ensures Slot(r.rout, r'.live, |r.reqs|) == Slot(RequestsIn(r), |a|, |r.reqs|)
  {
    FinishedExtends(r, r', a, base);
    BatchExtendsTiling(r, r', a, base);
    CursorsAfterBatch(r, r', a, base);
    TaggedAppend(View(r), a, RequestsIn(r), |r.reqs|, base);
  }

  lemma CursorsAfterBatch(r: Rings, r': Rings, a: seq<Staged>, base: nat)
    requires Tiled(r) && Shape(r') && Extended(r, r', a, base)
    ensures TimersEnd(r') == Slot(TimersEnd(r), TimerSum(a, |a|), |r.tims|)
    ensures Slot(r.rout, r'.live, |r.reqs|) == Slot(RequestsIn(r), |a|, |r.reqs|)
  {
    ExtendedOff(r, r', a, base, |a|);
    SlotCompose(r.tout, Total(r), TimerSum(a, |a|), |r.tims|);
    SlotCompose(r.rout, r.live, |a|, |r.reqs|);
  }

  lemma BatchReady(r: Rings, r': Rings, f: seq<Staged>, stored: bool, base: nat)
    requires Tiled(r) && AllTagged(View(r)) && GoodBatch(f)
    requires Finished(r, r', Kept(f, stored), base)
    ensures Tiled(r') && AllTagged(View(r'))
    ensures var a := Kept(f, stored);
            && View(r') == View(r) + NewEntries(a, RequestsIn(r), |r.reqs|, base)
            && TimersEnd(r') == Slot(TimersEnd(r), TimerSum(a, |a|), |r.tims|)
  {
    KeptTagged(f, stored);
    WindowAfterBatch(r, r', Kept(f, stored), base);
  }

  lemma TaggedAppend(v: seq<Entry>, a: seq<Staged>, p: nat, size: nat, base: nat)
    requires AllTagged(v) && p < size && |a| <= size
    requires forall d :: 0 <= d < |a| ==> GoodStaged(a[d])
    ensures AllTagged(v + NewEntries(a, p, size, base))
  {
    var v' := v + NewEntries(a, p, size, base);
    forall k | 0 <= k < |v'|
      ensures EntryTagged(v'[k])
    {
      if k < |v| {
        assert EntryTagged(v[k]);
      } else {
        assert GoodStaged(a[k - |v|]);
      }
    }
  }

  lemma FinishedWithout(r: Rings, f: seq<Staged>, base: nat)
    requires Shape(r) && r.live + |f| < |r.reqs| && GoodBatch(f)
    requires Packed(Rotated(r.reqs, RequestsIn(r)), Accepted(f), base)
    ensures var a := Stripped(Accepted(f));
            && TimerSum(a, |a|) == 0
            && Finished(r, r.(live := r.live + |a|), a, base)
  {
    AcceptedGood(f, |f|);
    NothingToMerge(Rotated(r.reqs, RequestsIn(r)), Rotated(r.tims, TimersEnd(r)), Accepted(f),
                   RequestsIn(r), TimersEnd(r));
  }

  /** The accepted requests as they are admitted. */
  ghost function Kept(f: seq<Staged>, stored: bool): seq<Staged> {
    if stored then Accepted(f) else Stripped(Accepted(f))
  }

  lemma PackedAfterGrowth(r: Rings, r': Rings, a: seq<Staged>, base: nat)
    requires SparesFree(r, r') && r.live + |a| < |r.reqs|
    requires Packed(Rotated(r.reqs, RequestsIn(r)), a, base)
    ensures Packed(Rotated(r'.reqs, RequestsIn(r')), a, base)
  {
    RotatedAt(r.reqs, RequestsIn(r));
    RotatedAt(r'.reqs, RequestsIn(r));
    forall d | 0 <= d < |a|
      ensures Rotated(r'.reqs, RequestsIn(r))[d] == Raw(a[d], base + d)
    {
      SlotCompose(r.rout, r.live, d, |r.reqs|);
      assert r'.reqs[ReqSlot(r, r.live + d)] == r.reqs[ReqSlot(r, r.live + d)];
    }
  }

  /** What the window requires of staged requests. */
  ghost predicate GoodStaged(s: Staged) {
    WellStaged(s) && forall j :: 0 <= j < |s.timers| ==> s.timers[j].tags != []
  }

  ghost predicate GoodBatch(f: seq<Staged>) {
    forall y :: 0 <= y < |f| ==> GoodStaged(f[y])
  }

  lemma {:induction false} AcceptedGood(f: seq<Staged>, n: nat)
    requires n <= |f| && GoodBatch(f)
    ensures forall d :: 0 <= d < Succ(f, n) ==> AcceptedTo(f, n)[d].copyOk && GoodStaged(AcceptedTo(f, n)[d])
  {
    if n > 0 { AcceptedGood(f, n - 1); }
  }

  lemma WindowAfterExpiry(r: Rings, mid: Rings, r': Rings, num: nat, from: Timeval)
    requires Tiled(r) && num <= r.live && mid == r.(reqs := Deactivated(r.reqs, r.rout, num))
    requires num == OldPrefix(Tiling.Live(r), from) && AllTagged(View(r))
    requires r'.reqs == mid.reqs && r'.rout == ReqSlot(r, num) && r'.live == r.live - num
    requires |r'.tims| == |r.tims|
    requires var o := Off(Tiling.Live(r), num);
             && o <= |r.tims| && r'.tout == Slot(r.tout, o, |r.tims|)
             && Rotated(r'.tims, r.tout) == ClearRange(Rotated(r.tims, r.tout), 0, o)
    ensures Tiled(r') && View(r)[..num] + View(r') == View(r) && AllTagged(View(r'))
    ensures TimersEnd(r') == TimersEnd(r)
    ensures forall k :: 0 <= k < num ==> Less(View(r)[k].time, from)
    ensures View(r') != [] ==> !Less(View(r')[0].time, from)
  {
    OffMonotone(Tiling.Live(r), num, r.live);
    TimersGivenBack(r, mid, r', num);
    ExpiryKeepsTiling(r, r', num);
    TimersEndStays(r, r', num);
    TaggedDrop(View(r), num);
    assert View(r)[..num] + View(r)[num..] == View(r);
  }

  /** The slot before `out` now holds the last request that expired. */
  lemma BehindAfterExpiry(r: Rings, r': Rings, num: nat, expired: seq<Entry>)
    requires Shape(r) && num <= r.live && r'.reqs == Deactivated(r.reqs, r.rout, num) && r'.rout == ReqSlot(r, num)
    requires expired == View(r)[..num]
    ensures BehindOf(r') == LastOf(expired, BehindOf(r))
  {
    DeactivatedSame(r.reqs, r.rout, num);
    if num > 0 {
      assert ReqSlot(r', |r.reqs| - 1) == ReqSlot(r, num - 1);
      assert View(r)[num - 1] == EntryOf(ReqSlot(r, num - 1), Tiling.Live(r)[num - 1], r.tims);
    }
  }

  lemma TimersEndStays(r: Rings, r': Rings, m: nat)
    requires Shrunk(r, r', m) && Shape(r')
    ensures TimersEnd(r') == TimersEnd(r)
  {
    ShrunkOff(r, r', m, r'.live);
    SlotCompose(r.tout, Off(Tiling.Live(r), m), Total(r'), |r.tims|);
  }

  lemma TaggedDrop(v: seq<Entry>, m: nat)
    requires AllTagged(v) && m <= |v|
    ensures AllTagged(v[m..])
  {
    forall k | 0 <= k < |v[m..]|
      ensures EntryTagged(v[m..][k])
    {
      assert EntryTagged(v[m + k]);
    }
  }

  /** Marking expired records inactive changes nothing that readers see. */
  lemma MarkingIsInvisible(r: Rings, mid: Rings, num: nat)
    requires Tiled(r) && num <= r.live && mid == r.(reqs := Deactivated(r.reqs, r.rout, num))
    ensures Tiled(mid) && View(mid) == View(r)
    ensures StartsAt(Tiling.Live(mid), num, r.tout, |r.tims|)
    ensures forall k :: 0 <= k <= r.live ==> Off(Tiling.Live(mid), k) == Off(Tiling.Live(r), k)
  {
    DeactivatedSame(r.reqs, r.rout, num);
    forall k | 0 <= k <= r.live
      ensures Off(Tiling.Live(mid), k) == Off(Tiling.Live(r), k)
    {
      OffSame(Tiling.Live(mid), Tiling.Live(r), k);
    }
    forall k | 0 <= k < r.live
      ensures Placed(mid, k) && View(mid)[k] == View(r)[k]
      ensures StartAt(Tiling.Live(mid), k, r.tout, |r.tims|)
    {
      assert Placed(r, k);
      assert SliceOf(mid.tims, Tiling.Live(mid)[k]) == SliceOf(r.tims, Tiling.Live(r)[k]);
    }
    OffMonotone(Tiling.Live(r), num, r.live);
  }

  lemma {:induction false} DeactivatedSame(data: seq<Record>, p: nat, n: nat)
    requires p < |data| && n <= |data|
    ensures forall s :: 0 <= s < |data| ==>
      var d := Deactivated(data, p, n)[s];
      d == data[s].(active := d.active)
  {
    if n > 0 { DeactivatedSame(data, p, n - 1); }
  }

  /** After the clear jobs, the cursors drop exactly the expired part of both rings. */
  lemma TimersGivenBack(r: Rings, mid: Rings, r': Rings, num: nat)
    requires Tiled(r) && num <= r.live && mid == r.(reqs := Deactivated(r.reqs, r.rout, num))
    requires r'.reqs == mid.reqs && r'.rout == ReqSlot(r, num) && r'.live == r.live - num
    requires |r'.tims| == |r.tims|
    requires Off(Tiling.Live(r), num) <= Total(r)
    requires r'.tout == Slot(r.tout, Off(Tiling.Live(r), num), |r.tims|)
    requires Rotated(r'.tims, r.tout) == ClearRange(Rotated(r.tims, r.tout), 0, Off(Tiling.Live(r), num))
    ensures Shrunk(r, r', num)
  {
    forall k | num <= k < r.live
      ensures r'.reqs[ReqSlot(r, k)] == r.reqs[ReqSlot(r, k)]
    {
      DeactivatedNext(r.reqs, r.rout, num);
    }
    RotatedAt(r'.tims, r.tout);
    RotatedAt(r.tims, r.tout);
    forall x | Off(Tiling.Live(r), num) <= x < Total(r)
      ensures r'.tims[Slot(r.tout, x, |r.tims|)] == r.tims[Slot(r.tout, x, |r.tims|)]
    {
      assert Rotated(r'.tims, r.tout)[x] == Rotated(r.tims, r.tout)[x];
    }
  }
}
