/** Placing the timers of newly admitted requests: the slots were reserved in one piece, and
    each merge job fills the part that its prefix sum gives it. */
module Merge {
  import opened Sequences
  import opened Ring
  import opened Types
  import opened Pools
  import opened Batch
  import Jobs

  /** Timers of the first `d` accepted requests. */
  ghost function TimerSum(a: seq<Staged>, d: nat): nat
    requires d <= |a|
  {
    if d == 0 then 0 else TimerSum(a, d - 1) + |a[d - 1].timers|
  }

  function Relabel(ts: seq<Timer>, id: nat): (r: seq<Timer>)
    ensures |r| == |ts|
  {
    seq(|ts|, j requires 0 <= j < |ts| => ts[j].(requestId := id))
  }

  /** All timers of the first `n` of requests `a`, the `d`-th stored at slot `c + d` past `p`. */
  ghost function Labels(a: seq<Staged>, n: nat, c: nat, p: nat, size: nat): (ts: seq<Timer>)
    requires n <= |a| && p < size && c + n <= size
    ensures |ts| == TimerSum(a, n)
  {
    if n == 0 then []
    else Labels(a, n - 1, c, p, size) + Relabel(a[n - 1].timers, Slot(p, c + n - 1, size))
  }

  lemma {:induction false} TimerSumPrefix(a: seq<Staged>, b: seq<Staged>, d: nat)
    requires a <= b && d <= |a|
    ensures TimerSum(a, d) == TimerSum(b, d)
  {
    if d > 0 { TimerSumPrefix(a, b, d - 1); }
  }

  lemma {:induction false} TimerSumConcat(a: seq<Staged>, b: seq<Staged>, d: nat)
    requires d <= |b|
    ensures TimerSum(a + b, |a| + d) == TimerSum(a, |a|) + TimerSum(b, d)
  {
    if d == 0 {
      TimerSumPrefix(a, a + b, |a|);
    } else {
      TimerSumConcat(a, b, d - 1);
    }
  }

  lemma {:induction false} LabelsPrefix(a: seq<Staged>, b: seq<Staged>, n: nat, c: nat, p: nat, size: nat)
    requires a <= b && n <= |a| && p < size && c + n <= size
    ensures Labels(a, n, c, p, size) == Labels(b, n, c, p, size)
  {
    if n > 0 { LabelsPrefix(a, b, n - 1, c, p, size); }
  }

  ghost predicate LabelsJoin(a: seq<Staged>, b: seq<Staged>, n: nat, c: nat, p: nat, size: nat)
    requires n <= |b| && p < size && c + |a| + n <= size
  {
    Labels(a + b, |a| + n, c, p, size) == Labels(a, |a|, c, p, size) + Labels(b, n, c + |a|, p, size)
  }

  lemma {:induction false} LabelsConcat(a: seq<Staged>, b: seq<Staged>, n: nat, c: nat, p: nat, size: nat)
    requires n <= |b| && p < size && c + |a| + n <= size
    ensures LabelsJoin(a, b, n, c, p, size)
  {
    if n == 0 {
      LabelsConcatNone(a, b, c, p, size);
    } else {
      LabelsConcat(a, b, n - 1, c, p, size);
      LabelsConcatNext(a, b, n, c, p, size);
    }
  }

  lemma LabelsConcatNone(a: seq<Staged>, b: seq<Staged>, c: nat, p: nat, size: nat)
    requires p < size && c + |a| <= size
    ensures LabelsJoin(a, b, 0, c, p, size)
  {
    LabelsPrefix(a, a + b, |a|, c, p, size);
    NothingAppended(Labels(a, |a|, c, p, size), Labels(b, 0, c + |a|, p, size));
  }

  lemma LabelsConcatNext(a: seq<Staged>, b: seq<Staged>, n: nat, c: nat, p: nat, size: nat)
    requires 0 < n <= |b| && p < size && c + |a| + n <= size && LabelsJoin(a, b, n - 1, c, p, size)
    ensures LabelsJoin(a, b, n, c, p, size)
  {
    Associates(Labels(a, |a|, c, p, size), Labels(b, n - 1, c + |a|, p, size),
               Relabel(b[n - 1].timers, Slot(p, c + |a| + n - 1, size)));
  }

  /** A stretch of `new` values written over `w` from offset `o` on. */
  ghost function Overlay<T>(w: seq<T>, o: nat, new_: seq<T>): (r: seq<T>)
    requires o + |new_| <= |w|
    ensures |r| == |w|
  {
    w[..o] + new_ + w[o + |new_|..]
  }

  lemma OverlayTwice<T>(w: seq<T>, o: nat, a: seq<T>, b: seq<T>)
    requires o + |a| + |b| <= |w|
    ensures Overlay(Overlay(w, o, a), o + |a|, b) == Overlay(w, o, a + b)
  {
  }

  lemma OverlayNext<T>(w: seq<T>, o: nat, a: seq<T>, x: T)
    requires o + |a| < |w|
    ensures Overlay(w, o, a)[o + |a| := x] == Overlay(w, o, a + [x])
  {
  }

  lemma RelabelNext(ts: seq<Timer>, j: nat, id: nat)
    requires j < |ts|
    ensures Relabel(ts[..j + 1], id) == Relabel(ts[..j], id) + [ts[j].(requestId := id)]
  {
  }

  /** The first `j` of a request's timers are stored. */
  ghost predicate StoredTo(d: seq<Timer>, q: nat, w: seq<Timer>, o: nat, ts: seq<Timer>, j: nat, id: nat) {
    && q < |d| && |w| == |d| && j <= |ts| && o + |ts| <= |w|
    && Rotated(d, q) == Overlay(w, o, Relabel(ts[..j], id))
  }

  lemma NoTimerStored(d: seq<Timer>, q: nat, o: nat, ts: seq<Timer>, id: nat)
    requires q < |d| && o + |ts| <= |d|
    ensures StoredTo(d, q, Rotated(d, q), o, ts, 0, id)
  {
  }

  lemma TimerStored(d: seq<Timer>, q: nat, w: seq<Timer>, o: nat, ts: seq<Timer>, j: nat, id: nat)
    requires j < |ts| && StoredTo(d, q, w, o, ts, j, id)
    ensures StoredTo(d[Slot(q, o + j, |d|) := ts[j].(requestId := id)], q, w, o, ts, j + 1, id)
  {
    var timer := ts[j].(requestId := id);
    RotatedWrite(d, q, o + j, timer);
    RelabelNext(ts, j, id);
    OverlayNext(w, o, Relabel(ts[..j], id), timer);
  }

  /** Store one request's timers from slot `start` on, through the wrap. */
  method StoreTimers(tims: Pool<Timer>, start: nat, ts: seq<Timer>, id: nat, ghost q: nat, ghost o: nat)
    requires q < tims.data.Length && o + |ts| <= tims.data.Length
    requires start < tims.data.Length && (ts != [] ==> start == Slot(q, o, tims.data.Length))
    modifies tims.data
    ensures Rotated(tims.data[..], q) == Overlay(Rotated(old(tims.data[..]), q), o, Relabel(ts, id))
  {
    ghost var w := Rotated(tims.data[..], q);
    NoTimerStored(tims.data[..], q, o, ts, id);
    for j := 0 to |ts|
      invariant StoredTo(tims.data[..], q, w, o, ts, j, id)
    {
      StoreTimer(tims, start, ts, j, id, q, o, w);
    }
    assert ts[..|ts|] == ts;
  }

  method StoreTimer(tims: Pool<Timer>, start: nat, ts: seq<Timer>, j: nat, id: nat, ghost q: nat, ghost o: nat, ghost w: seq<Timer>)
    requires j < |ts| && StoredTo(tims.data[..], q, w, o, ts, j, id) && start == Slot(q, o, tims.data.Length)
    modifies tims.data
    ensures StoredTo(tims.data[..], q, w, o, ts, j + 1, id)
  {
    var size := tims.data.Length;
    var slot := if start + j >= size then start + j - size else start + j;
    SlotCompose(q, o, j, size);
    TimerStored(tims.data[..], q, w, o, ts, j, id);
    ghost var d := tims.data[..];
    tims.data[slot] := ts[j].(requestId := id);
    assert tims.data[..] == d[slot := ts[j].(requestId := id)];
  }

  /** The record after its timers were placed at offset `o` past slot `q`. A request whose
      packet lists timers gets a start even if none of them was worth storing. */
  function WithTimers(rec: Record, s: Staged, start: nat): Record {
    if s.listed > 0 then rec.(timersStart := start, timersCnt := |s.timers|) else rec
  }

  /** The records of the first `n` of requests `a` have their slices, and no other changed. */
  ghost predicate RecordsMerged(w: seq<Record>, w': seq<Record>, a: seq<Staged>, n: nat, c: nat, o: nat, q: nat, tsize: nat)
    requires n <= |a| && c + |a| <= |w|
  {
    && |w'| == |w|
    && (forall d :: 0 <= d < n ==> MergedAt(w, w', a, d, c, o, q, tsize))
    && (forall x :: 0 <= x < |w| && !(c <= x < c + n) ==> w'[x] == w[x])
  }

  /** What is left of the merge is unchanged, what is done is in place: the first `n` of the
      accepted requests `a`, whose records start at offset `c` and whose timers at offset `o`. */
  ghost predicate Merged(w: seq<Record>, w': seq<Record>, tw: seq<Timer>, tw': seq<Timer>,
                         a: seq<Staged>, n: nat, c: nat, o: nat, p: nat, q: nat)
    requires p < |w| && q < |tw| && n <= |a| && c + |a| <= |w| && o + TimerSum(a, n) <= |tw|
  {
    && tw' == Overlay(tw, o, Labels(a, n, c, p, |w|))
    && RecordsMerged(w, w', a, n, c, o, q, |tw|)
  }

  ghost predicate MergedAt(w: seq<Record>, w': seq<Record>, a: seq<Staged>, d: nat, c: nat, o: nat, q: nat, tsize: nat)
    requires d < |a| && c + |a| <= |w| == |w'|
  {
    && q < tsize && o + TimerSum(a, d) <= tsize
    && w'[c + d] == WithTimers(w[c + d], a[d], Slot(q, o + TimerSum(a, d), tsize))
  }

  lemma {:induction false} TimerSumMonotone(a: seq<Staged>, d: nat, e: nat)
    requires d <= e <= |a|
    ensures TimerSum(a, d) <= TimerSum(a, e)
  {
    if d < e { TimerSumMonotone(a, d, e - 1); }
  }

  lemma MergedNext(w: seq<Record>, w': seq<Record>, tw: seq<Timer>, tw': seq<Timer>,
                   a: seq<Staged>, n: nat, c: nat, o: nat, p: nat, q: nat)
    requires p < |w| && q < |tw| && n < |a| && c + |a| <= |w| && o + TimerSum(a, n + 1) <= |tw|
    requires Merged(w, w', tw, tw', a, n, c, o, p, q)
    ensures var oo := o + TimerSum(a, n);
            && oo + |a[n].timers| <= |tw'| == |tw|
            && Merged(w, w'[c + n := WithTimers(w'[c + n], a[n], Slot(q, oo, |tw|))],
                      tw, Overlay(tw', oo, Relabel(a[n].timers, Slot(p, c + n, |w|))), a, n + 1, c, o, p, q)
  {
    var oo := o + TimerSum(a, n);
    var w'' := w'[c + n := WithTimers(w'[c + n], a[n], Slot(q, oo, |tw|))];
    OverlayTwice(tw, o, Labels(a, n, c, p, |w|), Relabel(a[n].timers, Slot(p, c + n, |w|)));
    forall d | 0 <= d < n + 1
      ensures MergedAt(w, w'', a, d, c, o, q, |tw|)
    {
      assert d < n ==> MergedAt(w, w', a, d, c, o, q, |tw|);
    }
  }

  /** Mark a record with its slice of the timer ring. */
  method PlaceSlice(reqs: Pool<Record>, id: nat, s: Staged, start: nat, ghost x: nat)
    requires reqs.IsRing() && x < reqs.data.Length && id == Slot(reqs.inp, x, reqs.data.Length)
    modifies reqs.data
    ensures var w := Rotated(old(reqs.data[..]), reqs.inp);
            Rotated(reqs.data[..], reqs.inp) == w[x := WithTimers(w[x], s, start)]
  {
    ghost var d := reqs.data[..];
    RotatedAt(d, reqs.inp);
    reqs.data[id] := WithTimers(reqs.data[id], s, start);
    assert reqs.data[..] == d[id := WithTimers(d[id], s, start)];
    RotatedWrite(d, reqs.inp, x, WithTimers(d[id], s, start));
  }

  ghost predicate MergeState(reqs: Pool<Record>, tims: Pool<Timer>, w: seq<Record>, tw: seq<Timer>,
                             a: seq<Staged>, n: nat, c: nat, o: nat, q: nat)
    reads reqs, reqs.data, tims, tims.data
  {
    && reqs.IsRing() && reqs.data.Length == |w| && tims.data.Length == |tw| && q < |tw|
    && n <= |a| && c + |a| <= |w| && o + TimerSum(a, n) <= |tw|
    && Merged(w, Rotated(reqs.data[..], reqs.inp), tw, Rotated(tims.data[..], q), a, n, c, o, reqs.inp, q)
  }

  /** Lay out the timers of the next accepted request. */
  method MergeRequest(reqs: Pool<Record>, tims: Pool<Timer>, s: Staged, id: nat, start: nat,
                      ghost w: seq<Record>, ghost tw: seq<Timer>,
                      ghost a: seq<Staged>, ghost n: nat, ghost c: nat, ghost o: nat, ghost q: nat)
    requires MergeState(reqs, tims, w, tw, a, n, c, o, q) && reqs.data as object != tims.data
    requires n < |a| && s == a[n] && o + TimerSum(a, n + 1) <= |tw|
    requires id == Slot(reqs.inp, c + n, |w|) && start == Slot(q, o + TimerSum(a, n), |tw|)
    modifies reqs.data, tims.data
    ensures MergeState(reqs, tims, w, tw, a, n + 1, c, o, q)
  {
    ghost var w', tw', oo := Rotated(reqs.data[..], reqs.inp), Rotated(tims.data[..], q), o + TimerSum(a, n);
    MergedNext(w, w', tw, tw', a, n, c, o, reqs.inp, q);
    ghost var placed, stored := w'[c + n := WithTimers(w'[c + n], s, start)], Overlay(tw', oo, Relabel(s.timers, id));
    assert Merged(w, placed, tw, stored, a, n + 1, c, o, reqs.inp, q);
    PlaceSlice(reqs, id, s, start, c + n);
    StoreTimers(tims, start, s.timers, id, q, oo);
    assert Rotated(reqs.data[..], reqs.inp) == placed && Rotated(tims.data[..], q) == stored;
  }

  /** The requests of a job were packed from offset `c` on. */
  ghost predicate PlacedFrom(ids: seq<int>, job: seq<Staged>, c: nat, p: nat, size: nat)
    requires p < size && c + |job| <= size
  {
    && |ids| == |job|
    && forall i :: 0 <= i < |job| ==> ids[i] == SlotId(p, if job[i].copyOk then c + Succ(job, i) else -1, size)
  }

  /** The record write of one request: none if it lists no timers. */
  ghost function RecordWrite(w: seq<Record>, a: seq<Staged>, d: nat, c: nat, start: nat): (ws: seq<Jobs.Write<Record>>)
    requires d < |a| && c + |a| <= |w|
  {
    if a[d].listed > 0 then [Jobs.Write(c + d, WithTimers(w[c + d], a[d], start))] else []
  }

  /** The record writes of a merge job over the first `n` requests of `a`. */
  ghost function RecordWrites(w: seq<Record>, a: seq<Staged>, n: nat, c: nat, o: nat, q: nat, tsize: nat): (ws: seq<Jobs.Write<Record>>)
    requires n <= |a| && c + |a| <= |w| && q < tsize && o + TimerSum(a, n) <= tsize
  {
    if n == 0 then []
    else RecordWrites(w, a, n - 1, c, o, q, tsize) + RecordWrite(w, a, n - 1, c, Slot(q, o + TimerSum(a, n - 1), tsize))
  }

  lemma {:induction false} RecordWritesInside(w: seq<Record>, a: seq<Staged>, n: nat, c: nat, o: nat, q: nat, tsize: nat)
    requires n <= |a| && c + |a| <= |w| && q < tsize && o + TimerSum(a, n) <= tsize
    ensures forall i :: 0 <= i < |RecordWrites(w, a, n, c, o, q, tsize)| ==>
                          c <= RecordWrites(w, a, n, c, o, q, tsize)[i].at < c + n
  {
    if n > 0 { RecordWritesInside(w, a, n - 1, c, o, q, tsize); }
  }

  ghost predicate RecordsWritten(w: seq<Record>, ws: seq<Jobs.Write<Record>>, a: seq<Staged>, n: nat, c: nat, o: nat, q: nat, tsize: nat)
    requires n <= |a| && c + |a| <= |w|
  {
    Jobs.InRange(ws, |w|) && RecordsMerged(w, Jobs.Apply(w, ws), a, n, c, o, q, tsize)
  }

  lemma {:induction false} RecordEffect(w: seq<Record>, a: seq<Staged>, n: nat, c: nat, o: nat, q: nat, tsize: nat)
    requires n <= |a| && c + |a| <= |w| && q < tsize && o + TimerSum(a, n) <= tsize
    ensures RecordsWritten(w, RecordWrites(w, a, n, c, o, q, tsize), a, n, c, o, q, tsize)
  {
    if n > 0 {
      RecordEffect(w, a, n - 1, c, o, q, tsize);
      RecordEffectNext(w, RecordWrites(w, a, n - 1, c, o, q, tsize), a, n, c, o, q, tsize);
    }
  }

  lemma RecordEffectNext(w: seq<Record>, ws: seq<Jobs.Write<Record>>, a: seq<Staged>, n: nat, c: nat, o: nat, q: nat, tsize: nat)
    requires 0 < n <= |a| && c + |a| <= |w| && q < tsize && o + TimerSum(a, n) <= tsize
    requires RecordsWritten(w, ws, a, n - 1, c, o, q, tsize)
    ensures RecordsWritten(w, ws + RecordWrite(w, a, n - 1, c, Slot(q, o + TimerSum(a, n - 1), tsize)), a, n, c, o, q, tsize)
  {
    RecordsMergedNext(w, Jobs.Apply(w, ws), a, n, c, o, q, tsize);
    RecordWritten(w, ws, a, n - 1, c, Slot(q, o + TimerSum(a, n - 1), tsize));
  }

  /** Writing a request's record, or leaving it if the request lists no timers, gives it its slice. */
  lemma RecordWritten(w: seq<Record>, ws: seq<Jobs.Write<Record>>, a: seq<Staged>, d: nat, c: nat, start: nat)
    requires d < |a| && c + |a| <= |w| && Jobs.InRange(ws, |w|) && Jobs.Apply(w, ws)[c + d] == w[c + d]
    ensures Jobs.InRange(ws + RecordWrite(w, a, d, c, start), |w|)
    ensures Jobs.Apply(w, ws + RecordWrite(w, a, d, c, start))
            == Jobs.Apply(w, ws)[c + d := WithTimers(w[c + d], a[d], start)]
  {
    if a[d].listed > 0 {
      ApplyAppend(w, ws, Jobs.Write(c + d, WithTimers(w[c + d], a[d], start)));
    } else {
      assert ws + [] == ws;
    }
  }

  lemma RecordsMergedNext(w: seq<Record>, v: seq<Record>, a: seq<Staged>, n: nat, c: nat, o: nat, q: nat, tsize: nat)
    requires 0 < n <= |a| && c + |a| <= |w| && q < tsize && o + TimerSum(a, n) <= tsize
    requires RecordsMerged(w, v, a, n - 1, c, o, q, tsize)
    ensures v[c + n - 1] == w[c + n - 1]
    ensures RecordsMerged(w, v[c + n - 1 := WithTimers(w[c + n - 1], a[n - 1], Slot(q, o + TimerSum(a, n - 1), tsize))],
                          a, n, c, o, q, tsize)
  {
    var v' := v[c + n - 1 := WithTimers(w[c + n - 1], a[n - 1], Slot(q, o + TimerSum(a, n - 1), tsize))];
    forall d | 0 <= d < n ensures MergedAt(w, v', a, d, c, o, q, tsize) {
      assert d < n - 1 ==> MergedAt(w, v, a, d, c, o, q, tsize);
    }
  }

  /** What merging requests `a` does to both rings is to carry out their own writes. */
  lemma MergedIsWrites(w: seq<Record>, w': seq<Record>, tw: seq<Timer>, tw': seq<Timer>,
                       a: seq<Staged>, c: nat, o: nat, p: nat, q: nat)
    requires p < |w| && q < |tw| && c + |a| <= |w| && o + TimerSum(a, |a|) <= |tw|
    ensures Jobs.InRange(RecordWrites(w, a, |a|, c, o, q, |tw|), |w|)
    ensures Jobs.InRange(Jobs.SliceWrites(Labels(a, |a|, c, p, |w|), o), |tw|)
    ensures Merged(w, w', tw, tw', a, |a|, c, o, p, q)
            <==> && w' == Jobs.Apply(w, RecordWrites(w, a, |a|, c, o, q, |tw|))
                 && tw' == Jobs.Apply(tw, Jobs.SliceWrites(Labels(a, |a|, c, p, |w|), o))
  {
    RecordEffect(w, a, |a|, c, o, q, |tw|);
    var records := Jobs.Apply(w, RecordWrites(w, a, |a|, c, o, q, |tw|));
    Jobs.SliceEffect(tw, Labels(a, |a|, c, p, |w|), o);
    if RecordsMerged(w, w', a, |a|, c, o, q, |tw|) {
      SameRecords(w, w', records, a, c, o, q, |tw|);
    }
  }

  lemma SameRecords(w: seq<Record>, w1: seq<Record>, w2: seq<Record>, a: seq<Staged>, c: nat, o: nat, q: nat, tsize: nat)
    requires c + |a| <= |w| && RecordsMerged(w, w1, a, |a|, c, o, q, tsize) && RecordsMerged(w, w2, a, |a|, c, o, q, tsize)
    ensures w1 == w2
  {
    forall x | 0 <= x < |w| ensures w1[x] == w2[x] {
      if c <= x < c + |a| {
        assert MergedAt(w, w1, a, x - c, c, o, q, tsize) && MergedAt(w, w2, a, x - c, c, o, q, tsize);
      }
    }
  }

  /** One merge job: walk the job's requests, skip failed copies, and lay out the timers of
      the others one after another from the job's prefix. */
  method MergeJob(reqs: Pool<Record>, tims: Pool<Timer>, job: seq<Staged>, ids: seq<int>, prefix: nat,
                  ghost c: nat, ghost o: nat, ghost q: nat)
    requires reqs.IsRing() && q < tims.data.Length && reqs.data as object != tims.data
    requires c + |job| <= reqs.data.Length && PlacedFrom(ids, job, c, reqs.inp, reqs.data.Length)
    requires o + TimerSum(Accepted(job), |Accepted(job)|) <= tims.data.Length && prefix == q + o
    modifies reqs.data, tims.data
    ensures var a := Accepted(job);
            Merged(Rotated(old(reqs.data[..]), reqs.inp), Rotated(reqs.data[..], reqs.inp),
                   Rotated(old(tims.data[..]), q), Rotated(tims.data[..], q),
                   a, |a|, c, o, reqs.inp, q)
    ensures var a := Accepted(job);
            var w, tw := Rotated(old(reqs.data[..]), reqs.inp), Rotated(old(tims.data[..]), q);
            && Jobs.InRange(RecordWrites(w, a, |a|, c, o, q, |tw|), |w|)
            && Jobs.InRange(Jobs.SliceWrites(Labels(a, |a|, c, reqs.inp, |w|), o), |tw|)
            && Rotated(reqs.data[..], reqs.inp) == Jobs.Apply(w, RecordWrites(w, a, |a|, c, o, q, |tw|))
            && Rotated(tims.data[..], q) == Jobs.Apply(tw, Jobs.SliceWrites(Labels(a, |a|, c, reqs.inp, |w|), o))
  {
    ghost var w, tw := Rotated(reqs.data[..], reqs.inp), Rotated(tims.data[..], q);
    var cnt := 0;
    for i := 0 to |job|
      invariant MergedJobTo(reqs, tims, w, tw, job, i, cnt, c, o, q)
    {
      cnt := MergeTurnOf(reqs, tims, job, i, ids, prefix, cnt, w, tw, c, o, q);
    }
    MergedIsWrites(w, Rotated(reqs.data[..], reqs.inp), tw, Rotated(tims.data[..], q), Accepted(job), c, o, reqs.inp, q);
  }

  /** The first `i` requests of a job are merged; `cnt` timers were placed for them. */
  ghost predicate MergedJobTo(reqs: Pool<Record>, tims: Pool<Timer>, w: seq<Record>, tw: seq<Timer>,
                              job: seq<Staged>, i: nat, cnt: int, c: nat, o: nat, q: nat)
    requires i <= |job|
    reads reqs, reqs.data, tims, tims.data
  {
    Succ(job, i) <= |Accepted(job)| && cnt == TimerSum(Accepted(job), Succ(job, i))
    && MergeState(reqs, tims, w, tw, Accepted(job), Succ(job, i), c, o, q)
  }

  method MergeTurnOf(reqs: Pool<Record>, tims: Pool<Timer>, job: seq<Staged>, i: nat, ids: seq<int>, prefix: nat, cnt: int,
                     ghost w: seq<Record>, ghost tw: seq<Timer>, ghost c: nat, ghost o: nat, ghost q: nat) returns (cnt': int)
    requires i < |job| && MergedJobTo(reqs, tims, w, tw, job, i, cnt, c, o, q) && reqs.data as object != tims.data
    requires c + |job| <= |w| && PlacedFrom(ids, job, c, reqs.inp, |w|)
    requires o + TimerSum(Accepted(job), |Accepted(job)|) <= |tw| && prefix == q + o
    modifies reqs.data, tims.data
    ensures MergedJobTo(reqs, tims, w, tw, job, i + 1, cnt', c, o, q)
  {
    cnt' := cnt;
    if ids[i] != -1 {
      ghost var a, n := Accepted(job), Succ(job, i);
      AcceptedAt(job, i, |job|);
      TimerSumMonotone(a, n + 1, |a|);
      var size := tims.data.Length;
      var start := if prefix + cnt >= size then prefix + cnt - size else prefix + cnt;
      MergeRequest(reqs, tims, job[i], ids[i], start, w, tw, a, n, c, o, q);
      cnt' := cnt + |job[i].timers|;
    }
  }

  /** Timers the copy job counted for its merge job, over its first `n` requests. */
  function JobTimers(job: seq<Staged>, n: nat): (t: nat)
    requires n <= |job|
  {
    if n == 0 then 0 else JobTimers(job, n - 1) + if job[n - 1].copyOk then |job[n - 1].timers| else 0
  }

  lemma {:induction false} JobTimersCount(job: seq<Staged>, n: nat)
    requires n <= |job|
    ensures JobTimers(job, n) == TimerSum(AcceptedTo(job, n), Succ(job, n))
  {
    if n > 0 {
      JobTimersCount(job, n - 1);
      TimerSumPrefix(AcceptedTo(job, n - 1), AcceptedTo(job, n), Succ(job, n - 1));
    }
  }

  /** Consecutive merges add up. */
  lemma MergedConcat(w0: seq<Record>, w1: seq<Record>, w2: seq<Record>, t0: seq<Timer>, t1: seq<Timer>, t2: seq<Timer>,
                     a: seq<Staged>, b: seq<Staged>, p: nat, q: nat)
    requires p < |w0| && q < |t0| && |a| + |b| <= |w0|
    requires TimerSum(a, |a|) + TimerSum(b, |b|) <= |t0|
    requires Merged(w0, w1, t0, t1, a, |a|, 0, 0, p, q)
    requires Merged(w1, w2, t1, t2, b, |b|, |a|, TimerSum(a, |a|), p, q)
    ensures TimerSum(a + b, |a + b|) <= |t0|
    ensures Merged(w0, w2, t0, t2, a + b, |a + b|, 0, 0, p, q)
  {
    TimerSumConcat(a, b, |b|);
    forall d | 0 <= d < |a + b|
      ensures MergedAt(w0, w2, a + b, d, 0, 0, q, |t0|)
    {
      MergedConcatAt(w0, w1, w2, a, b, d, q, |t0|);
    }
    LabelsOverlay(t0, t1, t2, a, b, p, |w0|);
  }

  lemma LabelsOverlay(t0: seq<Timer>, t1: seq<Timer>, t2: seq<Timer>, a: seq<Staged>, b: seq<Staged>, p: nat, size: nat)
    requires p < size && |a| + |b| <= size && TimerSum(a, |a|) + TimerSum(b, |b|) <= |t0|
    requires t1 == Overlay(t0, 0, Labels(a, |a|, 0, p, size))
    requires t2 == Overlay(t1, TimerSum(a, |a|), Labels(b, |b|, |a|, p, size))
    ensures TimerSum(a + b, |a + b|) <= |t0|
    ensures t2 == Overlay(t0, 0, Labels(a + b, |a + b|, 0, p, size))
  {
    TimerSumConcat(a, b, |b|);
    LabelsConcat(a, b, |b|, 0, p, size);
    OverlayTwice(t0, 0, Labels(a, |a|, 0, p, size), Labels(b, |b|, |a|, p, size));
  }

  lemma MergedConcatAt(w0: seq<Record>, w1: seq<Record>, w2: seq<Record>, a: seq<Staged>, b: seq<Staged>,
                       d: nat, q: nat, tsize: nat)
    requires |w0| == |w1| == |w2| && d < |a| + |b| <= |w0|
    requires d < |a| ==> MergedAt(w0, w1, a, d, 0, 0, q, tsize) && w2[d] == w1[d]
    requires d >= |a| ==> MergedAt(w1, w2, b, d - |a|, |a|, TimerSum(a, |a|), q, tsize) && w1[d] == w0[d]
    ensures MergedAt(w0, w2, a + b, d, 0, 0, q, tsize)
  {
    if d < |a| {
      MergedInFirst(w0, w1, w2, a, a + b, d, q, tsize);
    } else {
      MergedInSecond(w0, w1, w2, a, b, d - |a|, q, tsize);
    }
  }

  lemma MergedInFirst(w0: seq<Record>, w1: seq<Record>, w2: seq<Record>, a: seq<Staged>, ab: seq<Staged>,
                      d: nat, q: nat, tsize: nat)
    requires |w0| == |w1| == |w2| && d < |a| && a <= ab && |ab| <= |w0|
    requires MergedAt(w0, w1, a, d, 0, 0, q, tsize) && w2[d] == w1[d]
    ensures MergedAt(w0, w2, ab, d, 0, 0, q, tsize)
  {
    TimerSumPrefix(a, ab, d);
    MergedElsewhere(w0, w1, w2, a, d, 0, 0, ab, d, 0, 0, q, tsize);
  }

  lemma MergedInSecond(w0: seq<Record>, w1: seq<Record>, w2: seq<Record>, a: seq<Staged>, b: seq<Staged>,
                       e: nat, q: nat, tsize: nat)
    requires |w0| == |w1| == |w2| && e < |b| && |a| + |b| <= |w0|
    requires MergedAt(w1, w2, b, e, |a|, TimerSum(a, |a|), q, tsize) && w1[|a| + e] == w0[|a| + e]
    ensures MergedAt(w0, w2, a + b, |a| + e, 0, 0, q, tsize)
  {
    TimerSumConcat(a, b, e);
    MergedElsewhere(w1, w2, w2, b, e, |a|, TimerSum(a, |a|), a + b, |a| + e, 0, 0, q, tsize);
    MergedFrom(w0, w1, w2, a + b, |a| + e, q, tsize);
  }

  /** The same request under another numbering. */
  lemma MergedElsewhere(w: seq<Record>, w1: seq<Record>, w2: seq<Record>, a: seq<Staged>, d: nat, c: nat, o: nat,
                        b: seq<Staged>, e: nat, c': nat, o': nat, q: nat, tsize: nat)
    requires d < |a| && c + |a| <= |w| == |w1| == |w2| && e < |b| && c' + |b| <= |w|
    requires MergedAt(w, w1, a, d, c, o, q, tsize) && w2[c + d] == w1[c + d]
    requires b[e] == a[d] && c' + e == c + d && o' + TimerSum(b, e) == o + TimerSum(a, d)
    ensures MergedAt(w, w2, b, e, c', o', q, tsize)
  {
  }

  lemma MergedFrom(w0: seq<Record>, w1: seq<Record>, w2: seq<Record>, a: seq<Staged>, d: nat, q: nat, tsize: nat)
    requires d < |a| <= |w0| == |w1| == |w2| && w1[d] == w0[d] && MergedAt(w1, w2, a, d, 0, 0, q, tsize)
    ensures MergedAt(w0, w2, a, d, 0, 0, q, tsize)
  {
  }
}
