/** Moving one batch of staged requests into the free part of the request ring: parallel
    copy jobs, each filling its own slice, then compaction over the gaps that failed
    copies leave behind. */
module Batch {
  import opened Ring
  import opened Time
  import opened Types
  import opened Pools
  import Jobs

  /** A request staged by a collector thread. `copyOk` says whether memory for its copy is
      available, `listed` is the number of timers it carries and `timers` those worth storing. */
  datatype Staged = Staged(time: Timeval, data: Payload, copyOk: bool, listed: nat, timers: seq<Timer>)

  /** Successful copies among the first `i` of a job. */
  function Succ(job: seq<Staged>, i: nat): (n: nat)
    requires i <= |job|
    ensures n <= i
  {
    if i == 0 then 0 else Succ(job, i - 1) + if job[i - 1].copyOk then 1 else 0
  }

  lemma {:induction false} SuccMonotone(job: seq<Staged>, a: nat, b: nat)
    requires a <= b <= |job|
    ensures Succ(job, a) <= Succ(job, b) <= Succ(job, a) + (b - a)
  {
    if a < b { SuccMonotone(job, a, b - 1); }
  }

  /** Every successful copy gets an offset of its own. */
  lemma SuccStrict(job: seq<Staged>, n: nat)
    requires n <= |job|
    ensures forall i :: 0 <= i < n && job[i].copyOk ==> Succ(job, i) < Succ(job, n)
  {
    forall i | 0 <= i < n && job[i].copyOk
      ensures Succ(job, i) < Succ(job, n)
    {
      SuccMonotone(job, i + 1, n);
    }
  }

  /** The requests among the first `n` that were copied, in order. */
  ghost function AcceptedTo(f: seq<Staged>, n: nat): (a: seq<Staged>)
    requires n <= |f|
    ensures |a| == Succ(f, n)
  {
    if n == 0 then [] else AcceptedTo(f, n - 1) + if f[n - 1].copyOk then [f[n - 1]] else []
  }

  ghost function Accepted(f: seq<Staged>): (a: seq<Staged>) {
    AcceptedTo(f, |f|)
  }

  /** A successful copy is the accepted request numbered by the successes before it. */
  lemma {:induction false} AcceptedAt(f: seq<Staged>, i: nat, n: nat)
    requires i < n <= |f| && f[i].copyOk
    ensures Succ(f, i) < Succ(f, n) && AcceptedTo(f, n)[Succ(f, i)] == f[i]
  {
    if i < n - 1 { AcceptedAt(f, i, n - 1); }
  }

  lemma {:induction false} AcceptedPrefix(f: seq<Staged>, g: seq<Staged>, n: nat)
    requires f <= g && n <= |f|
    ensures AcceptedTo(f, n) == AcceptedTo(g, n)
  {
    if n > 0 { AcceptedPrefix(f, g, n - 1); }
  }

  lemma {:induction false} AcceptedConcat(f: seq<Staged>, g: seq<Staged>, n: nat)
    requires n <= |g|
    ensures AcceptedTo(f + g, |f| + n) == AcceptedTo(f, |f|) + AcceptedTo(g, n)
  {
    if n == 0 {
      AcceptedPrefix(f, f + g, |f|);
    } else {
      AcceptedConcat(f, g, n - 1);
    }
  }

  lemma {:induction false} SuccPrefix(f: seq<Staged>, g: seq<Staged>, i: nat)
    requires f <= g && i <= |f|
    ensures Succ(f, i) == Succ(g, i)
  {
    if i > 0 { SuccPrefix(f, g, i - 1); }
  }

  /** What a copy leaves in a slot; a failed one leaves an inactive record without tags. */
  function Raw(s: Staged, counter: nat): Record {
    if s.copyOk then Record(s.time, counter, 0, 0, true, s.data)
    else Record(s.time, counter, 0, 0, false, s.data.(tags := []))
  }

  /** The ring rotated so that index 0 is slot `p`. */
  ghost function Rotated<T>(data: seq<T>, p: nat): (w: seq<T>)
    requires p < |data|
    ensures |w| == |data|
  {
    Window(data, p, |data|)
  }

  lemma RotatedAt<T>(data: seq<T>, p: nat)
    requires p < |data|
    ensures forall k :: 0 <= k < |data| ==> Rotated(data, p)[k] == data[Slot(p, k, |data|)]
  {
  }

  lemma RotatedWrite<T>(data: seq<T>, p: nat, o: nat, x: T)
    requires p < |data| && o < |data|
    ensures Rotated(data[Slot(p, o, |data|) := x], p) == Rotated(data, p)[o := x]
  {
    var data' := data[Slot(p, o, |data|) := x];
    RotatedAt(data, p);
    RotatedAt(data', p);
    forall k | 0 <= k < |data|
      ensures Rotated(data', p)[k] == Rotated(data, p)[o := x][k]
    {
      SlotInjective(p, k, o, |data|);
    }
  }

  /** The writes of one copy job: a failed copy does not advance, so the next request
      overwrites the slot it spoiled. */
  ghost function CopyWrites(job: seq<Staged>, start: nat, base: nat): (ws: seq<Jobs.Write<Record>>)
    ensures |ws| == |job|
  {
    seq(|job|, i requires 0 <= i < |job| =>
      Jobs.Write(start + Succ(job, i), Raw(job[i], base + start + i)))
  }

  /** Copy jobs over consecutive slices write disjoint slots, inside the free part. */
  lemma CopyWritesInSlice(job: seq<Staged>, start: nat, base: nat)
    ensures forall i :: 0 <= i < |job| ==> start <= CopyWrites(job, start, base)[i].at < start + |job|
  {
    forall i | 0 <= i < |job|
      ensures start <= CopyWrites(job, start, base)[i].at < start + |job|
    {
      SuccMonotone(job, i, |job|);
    }
  }

  lemma {:induction false} ApplyAppend<T>(d: seq<T>, ws: seq<Jobs.Write<T>>, w: Jobs.Write<T>)
    requires Jobs.InRange(ws, |d|) && w.at < |d|
    ensures Jobs.InRange(ws + [w], |d|)
    ensures Jobs.Apply(d, ws + [w]) == Jobs.Apply(d, ws)[w.at := w.value]
    decreases |ws|
  {
    if ws == [] {
      assert (ws + [w])[1..] == [];
    } else {
      assert (ws + [w])[1..] == ws[1..] + [w];
      ApplyAppend(d[ws[0].at := ws[0].value], ws[1..], w);
    }
  }

  lemma {:induction false} ApplyConcat<T>(d: seq<T>, ws: seq<Jobs.Write<T>>, ws': seq<Jobs.Write<T>>)
    requires Jobs.InRange(ws, |d|) && Jobs.InRange(ws', |d|)
    ensures Jobs.InRange(ws + ws', |d|)
    ensures Jobs.Apply(d, ws + ws') == Jobs.Apply(Jobs.Apply(d, ws), ws')
    decreases |ws|
  {
    if ws == [] {
      assert ws + ws' == ws';
    } else {
      assert (ws + ws')[1..] == ws[1..] + ws';
      ApplyConcat(d[ws[0].at := ws[0].value], ws[1..], ws');
    }
  }

  lemma ApplyNext<T>(d: seq<T>, ws: seq<Jobs.Write<T>>, i: nat)
    requires i < |ws| && Jobs.InRange(ws[..i], |d|) && ws[i].at < |d|
    ensures Jobs.InRange(ws[..i + 1], |d|)
    ensures Jobs.Apply(d, ws[..i + 1]) == Jobs.Apply(d, ws[..i])[ws[i].at := ws[i].value]
  {
    var before, after := ws[..i], ws[..i + 1];
    assert after == before + [ws[i]];
    ApplyAppend(d, before, ws[i]);
  }

  /** After `n` requests of a job its slice holds the successful ones packed in order, and
      nothing outside the slice has changed. */
  ghost predicate JobDone(w: seq<Record>, w': seq<Record>, job: seq<Staged>, start: nat, base: nat, n: nat)
    requires n <= |job|
  {
    && |w'| == |w|
    && (forall o :: 0 <= o < |w| && !(start <= o < start + n) ==> w'[o] == w[o])
    && (forall i :: 0 <= i < n && job[i].copyOk ==> HoldsCopy(w', job, start, base, i))
  }

  ghost predicate HoldsCopy(w: seq<Record>, job: seq<Staged>, start: nat, base: nat, i: nat)
    requires i < |job|
  {
    var o := start + Succ(job, i);
    o < |w| && w[o] == Raw(job[i], base + start + i)
  }

  lemma {:induction false} CopyEffect(w: seq<Record>, job: seq<Staged>, start: nat, base: nat, n: nat)
    requires n <= |job| && start + |job| <= |w|
    ensures Jobs.InRange(CopyWrites(job, start, base)[..n], |w|)
    ensures JobDone(w, Jobs.Apply(w, CopyWrites(job, start, base)[..n]), job, start, base, n)
  {
    if n > 0 {
      var ws := CopyWrites(job, start, base);
      CopyEffect(w, job, start, base, n - 1);
      SuccMonotone(job, n - 1, |job|);
      ApplyNext(w, ws, n - 1);
      var before, after := Jobs.Apply(w, ws[..n - 1]), Jobs.Apply(w, ws[..n]);
      SuccStrict(job, n - 1);
      forall i | 0 <= i < n && job[i].copyOk
        ensures HoldsCopy(after, job, start, base, i)
      {
        assert i < n - 1 ==> HoldsCopy(before, job, start, base, i);
      }
    }
  }

  ghost function IdAfterCopy(job: seq<Staged>, start: nat, i: nat): int
    requires i < |job|
  {
    if job[i].copyOk then start + Succ(job, i) else -1
  }

  function SlotId(p: nat, o: int, size: nat): (id: int)
    requires p < size && o <= size
  {
    if o < 0 then -1 else Slot(p, o, size)
  }

  /** The same writes, addressed by slot: offset 0 is slot `p`. */
  ghost function At<T>(ws: seq<Jobs.Write<T>>, p: nat, size: nat): (ss: seq<Jobs.Write<T>>)
    requires p < size && Jobs.InRange(ws, size)
    ensures |ss| == |ws| && Jobs.InRange(ss, size)
  {
    seq(|ws|, i requires 0 <= i < |ws| => Jobs.Write(Slot(p, ws[i].at, size), ws[i].value))
  }

  /** Writing by slot and then rotating is rotating and then writing by offset. */
  lemma {:induction false} RotatedApply<T>(d: seq<T>, p: nat, ws: seq<Jobs.Write<T>>)
    requires p < |d| && Jobs.InRange(ws, |d|)
    ensures Rotated(Jobs.Apply(d, At(ws, p, |d|)), p) == Jobs.Apply(Rotated(d, p), ws)
    decreases |ws|
  {
    if ws != [] {
      var ss := At(ws, p, |d|);
      assert ss[1..] == At(ws[1..], p, |d|);
      RotatedWrite(d, p, ws[0].at, ws[0].value);
      RotatedApply(d[ss[0].at := ss[0].value], p, ws[1..]);
    }
  }

  /** One copy job: `ids` is where each request went, or -1 for a failed copy. */
  method CopyJob(reqs: Pool<Record>, job: seq<Staged>, start: nat, base: nat) returns (ids: seq<int>)
    requires reqs.IsRing() && start + |job| < reqs.data.Length
    modifies reqs.data
    ensures |ids| == |job|
    ensures forall i :: 0 <= i < |job| ==>
      ids[i] == SlotId(reqs.inp, IdAfterCopy(job, start, i), reqs.data.Length)
    ensures Jobs.InRange(CopyWrites(job, start, base), reqs.data.Length)
    ensures reqs.data[..]
            == Jobs.Apply(old(reqs.data[..]), At(CopyWrites(job, start, base), reqs.inp, reqs.data.Length))
  {
    var size, p := reqs.data.Length, reqs.inp;
    CopyWritesInSlice(job, start, base);
    ghost var d := reqs.data[..];
    ghost var ws := At(CopyWrites(job, start, base), p, size);
    var slot := p + start;
    if slot >= size { slot := slot - size; }
    ids := [];
    for i := 0 to |job|
      invariant |ids| == i
      invariant slot == Slot(p, start + Succ(job, i), size)
      invariant forall k :: 0 <= k < i ==> ids[k] == SlotId(p, IdAfterCopy(job, start, k), size)
      invariant WrittenSoFar(d, reqs.data[..], ws, i)
    {
      CopyRecord(reqs, slot, Raw(job[i], base + start + i), d, ws, i);
      ids := ids + [if job[i].copyOk then slot else -1];
      if job[i].copyOk {
        slot := if slot == size - 1 then 0 else slot + 1;
      }
    }
    assert ws[..|job|] == ws;
  }

  ghost predicate WrittenSoFar<T>(d: seq<T>, now: seq<T>, ws: seq<Jobs.Write<T>>, i: nat) {
    i <= |ws| && Jobs.InRange(ws, |d|) && now == Jobs.Apply(d, ws[..i])
  }

  method CopyRecord(reqs: Pool<Record>, slot: nat, record: Record, ghost d: seq<Record>, ghost ws: seq<Jobs.Write<Record>>, ghost i: nat)
    requires i < |ws| && WrittenSoFar(d, reqs.data[..], ws, i) && ws[i] == Jobs.Write(slot, record)
    modifies reqs.data
    ensures WrittenSoFar(d, reqs.data[..], ws, i + 1)
  {
    ApplyNext(d, ws, i);
    ghost var now := reqs.data[..];
    reqs.data[slot] := record;
    assert reqs.data[..] == now[slot := record];
  }

  /** Truncate the staged requests, thread by thread, to the free slots. */
  ghost function Plan(tmp: seq<seq<Staged>>, room: nat): (jobs: seq<seq<Staged>>)
    ensures |jobs| == |tmp| && |Jobs.Concat(jobs)| <= room
  {
    if tmp == [] then []
    else
      var before := Plan(tmp[..|tmp| - 1], room);
      var staged := tmp[|tmp| - 1];
      var left := room - |Jobs.Concat(before)|;
      var job := if |staged| > left then staged[..left] else staged;
      ConcatSnoc(before, job);
      before + [job]
  }

  lemma {:induction false} ConcatSnoc<T>(ss: seq<seq<T>>, s: seq<T>)
    ensures Jobs.Concat(ss + [s]) == Jobs.Concat(ss) + s
  {
    if ss == [] {
      assert (ss + [s])[1..] == [];
    } else {
      assert (ss + [s])[1..] == ss[1..] + [s];
      ConcatSnoc(ss[1..], s);
    }
  }

  /** The plan takes the requests in order and stops when the ring is full. */
  lemma {:induction false} PlanTakesPrefix(tmp: seq<seq<Staged>>, room: nat)
    ensures var all := Jobs.Concat(tmp);
            Jobs.Concat(Plan(tmp, room)) == if |all| <= room then all else all[..room]
    ensures forall t :: 0 <= t < |tmp| ==> Plan(tmp, room)[t] <= tmp[t]
  {
    if tmp != [] {
      var n := |tmp| - 1;
      assert tmp == tmp[..n] + [tmp[n]];
      PlanTakesPrefix(tmp[..n], room);
      ConcatSnoc(tmp[..n], tmp[n]);
      var before := Plan(tmp[..n], room);
      ConcatSnoc(before, Plan(tmp, room)[n]);
    }
  }

  ghost function StartOf(jobs: seq<seq<Staged>>, t: nat): nat
    requires t <= |jobs|
  {
    |Jobs.Concat(jobs[..t])|
  }

  ghost function JobWrites(jobs: seq<seq<Staged>>, base: nat): (js: seq<seq<Jobs.Write<Record>>>)
    ensures |js| == |jobs|
  {
    seq(|jobs|, t requires 0 <= t < |jobs| => CopyWrites(jobs[t], StartOf(jobs, t), base))
  }

  lemma {:induction false} StartMonotone(jobs: seq<seq<Staged>>, t: nat, u: nat)
    requires t < u <= |jobs|
    ensures StartOf(jobs, t) + |jobs[t]| <= StartOf(jobs, u)
  {
    assert jobs[..u] == jobs[..u - 1] + [jobs[u - 1]];
    ConcatSnoc(jobs[..u - 1], jobs[u - 1]);
    if t < u - 1 { StartMonotone(jobs, t, u - 1); }
  }

  /** No slot is written by two copy jobs. */
  lemma CopyJobsDisjoint(jobs: seq<seq<Staged>>, base: nat)
    ensures Jobs.Disjoint(JobWrites(jobs, base))
  {
    var js := JobWrites(jobs, base);
    forall i, j, p | 0 <= i < |js| && 0 <= j < |js| && Jobs.Touches(js[i], p) && Jobs.Touches(js[j], p)
      ensures i == j
    {
      CopyWritesInSlice(jobs[i], StartOf(jobs, i), base);
      CopyWritesInSlice(jobs[j], StartOf(jobs, j), base);
      if i < j { StartMonotone(jobs, i, j); }
      if j < i { StartMonotone(jobs, j, i); }
    }
  }

  /** However the pool schedules the copy jobs, the ring ends up the same. */
  lemma CopyScheduleFree(w: seq<Record>, jobs: seq<seq<Staged>>, base: nat, ws: seq<Jobs.Write<Record>>)
    requires Jobs.Interleaves(ws, JobWrites(jobs, base)) && Jobs.InRange(ws, |w|)
    requires Jobs.InRange(Jobs.Concat(JobWrites(jobs, base)), |w|)
    ensures Jobs.Apply(w, ws) == Jobs.Apply(w, Jobs.Concat(JobWrites(jobs, base)))
  {
    CopyJobsDisjoint(jobs, base);
    Jobs.OneAfterAnother(JobWrites(jobs, base), 0);
    assert JobWrites(jobs, base)[0..] == JobWrites(jobs, base);
    Jobs.ScheduleDoesNotMatter(w, JobWrites(jobs, base), ws, Jobs.Concat(JobWrites(jobs, base)));
  }

  /** What the copy jobs leave in the free part `w` of the ring: request `y` of the batch,
      if its copy succeeded, is at offset `src[y]`, in order, with provisional counter
      `base + y`. Nothing beyond the batch is touched, so no live slot is. */
  ghost predicate Copied(w0: seq<Record>, w: seq<Record>, f: seq<Staged>, src: seq<int>, base: nat) {
    && |src| == |f| <= |w| == |w0|
    && (forall y :: 0 <= y < |f| ==> CopiedAt(w, f, src, base, y))
    && SrcInOrder(f, src)
    && (forall o :: |f| <= o < |w| ==> w[o] == w0[o])
  }

  ghost predicate CopiedAt(w: seq<Record>, f: seq<Staged>, src: seq<int>, base: nat, y: nat)
    requires y < |f| == |src| <= |w|
  {
    if f[y].copyOk then Succ(f, y) <= src[y] <= y && w[src[y]] == Raw(f[y], base + y)
    else src[y] == -1
  }

  ghost predicate SrcInOrder(f: seq<Staged>, src: seq<int>)
    requires |f| == |src|
  {
    forall y, z :: 0 <= y < z < |f| && f[y].copyOk && f[z].copyOk ==> src[y] < src[z]
  }

  ghost function SrcOf(job: seq<Staged>, start: nat): (src: seq<int>)
    ensures |src| == |job|
  {
    seq(|job|, i requires 0 <= i < |job| => IdAfterCopy(job, start, i))
  }

  lemma {:induction false} SuccConcat(f: seq<Staged>, g: seq<Staged>, i: nat)
    requires i <= |g|
    ensures Succ(f + g, |f| + i) == Succ(f, |f|) + Succ(g, i)
  {
    if i == 0 {
      SuccPrefix(f, f + g, |f|);
    } else {
      SuccConcat(f, g, i - 1);
    }
  }

  /** One more copy job extends what is copied. */
  lemma CopiedNext(w0: seq<Record>, w: seq<Record>, f: seq<Staged>, src: seq<int>, base: nat, job: seq<Staged>)
    requires Copied(w0, w, f, src, base) && |f| + |job| <= |w|
    ensures Jobs.InRange(CopyWrites(job, |f|, base), |w|)
    ensures Copied(w0, Jobs.Apply(w, CopyWrites(job, |f|, base)), f + job, src + SrcOf(job, |f|), base)
  {
    var ws := CopyWrites(job, |f|, base);
    assert ws[..|job|] == ws;
    CopyEffect(w, job, |f|, base, |job|);
    var w' := Jobs.Apply(w, ws);
    forall y | 0 <= y < |f + job|
      ensures CopiedAt(w', f + job, src + SrcOf(job, |f|), base, y)
    {
      if y < |f| {
        assert CopiedAt(w, f, src, base, y);
        SuccPrefix(f, f + job, y);
      } else {
        NewlyCopied(w, w', f, src, base, job, y - |f|);
      }
    }
    OrderNext(w, f, src, base, job);
  }

  lemma NewlyCopied(w: seq<Record>, w': seq<Record>, f: seq<Staged>, src: seq<int>, base: nat, job: seq<Staged>, i: nat)
    requires |src| == |f| && i < |job| && |f| + |job| <= |w'|
    requires JobDone(w, w', job, |f|, base, |job|)
    ensures CopiedAt(w', f + job, src + SrcOf(job, |f|), base, |f| + i)
  {
    SuccConcat(f, job, i);
    SuccMonotone(job, i, |job|);
    assert job[i].copyOk ==> HoldsCopy(w', job, |f|, base, i);
  }

  lemma OrderNext(w: seq<Record>, f: seq<Staged>, src: seq<int>, base: nat, job: seq<Staged>)
    requires |src| == |f| <= |w| && SrcInOrder(f, src)
    requires forall y :: 0 <= y < |f| ==> CopiedAt(w, f, src, base, y)
    ensures SrcInOrder(f + job, src + SrcOf(job, |f|))
  {
    var g, src' := f + job, src + SrcOf(job, |f|);
    forall y, z | 0 <= y < z < |g| && g[y].copyOk && g[z].copyOk
      ensures src'[y] < src'[z]
    {
      if |f| <= y {
        SuccMonotone(job, y + 1 - |f|, z - |f|);
      } else {
        assert CopiedAt(w, f, src, base, y);
      }
    }
  }
}
