/** Admission of a batch into the request ring: run the copy jobs, then close the gaps. */
module Admission {
  import opened Sequences
  import opened Ring
  import opened Types
  import opened Pools
  import opened Batch
  import Jobs

  /** The writes of all copy jobs, one job after another. */
  ghost function AllWrites(jobs: seq<seq<Staged>>, base: nat): seq<Jobs.Write<Record>> {
    Jobs.Concat(JobWrites(jobs, base))
  }

  lemma AllWritesNext(jobs: seq<seq<Staged>>, job: seq<Staged>, base: nat)
    ensures AllWrites(jobs + [job], base) == AllWrites(jobs, base) + CopyWrites(job, |Jobs.Concat(jobs)|, base)
  {
    var more, w := jobs + [job], CopyWrites(job, |Jobs.Concat(jobs)|, base);
    assert JobWrites(more, base) == JobWrites(jobs, base) + [w] by {
      forall t | 0 <= t < |more|
        ensures JobWrites(more, base)[t] == (JobWrites(jobs, base) + [w])[t]
      {
        assert more[..t] == jobs[..t];
      }
    }
    ConcatSnoc(JobWrites(jobs, base), w);
  }

  ghost function Free(reqs: Pool<Record>): (w: seq<Record>)
    requires reqs.IsRing()
    reads reqs, reqs.data
    ensures |w| == reqs.data.Length
  {
    Rotated(reqs.data[..], reqs.inp)
  }

  ghost predicate IdsMatch(ids: seq<int>, src: seq<int>, p: nat, size: nat)
    requires p < size
  {
    |ids| == |src| && forall y :: 0 <= y < |ids| ==> src[y] <= size && ids[y] == SlotId(p, src[y], size)
  }

  /** Where the batch stands after the jobs of the first `t` threads. */
  ghost predicate AfterJobs(w: seq<Record>, now: seq<Record>, tmp: seq<seq<Staged>>, t: nat, room: nat,
                            jobs: seq<seq<Staged>>, f: seq<Staged>, src: seq<int>, base: nat)
    requires t <= |tmp|
  {
    && jobs == Plan(tmp[..t], room) && f == Jobs.Concat(jobs)
    && Copied(w, now, f, src, base)
    && Jobs.InRange(AllWrites(jobs, base), |w|)
    && now == Jobs.Apply(w, AllWrites(jobs, base))
  }

  function JobOf(staged: seq<Staged>, left: nat): (job: seq<Staged>)
    ensures |job| <= left
  {
    if |staged| > left then staged[..left] else staged
  }

  lemma AfterJobsNext(w: seq<Record>, now: seq<Record>, tmp: seq<seq<Staged>>, t: nat, room: nat,
                      jobs: seq<seq<Staged>>, f: seq<Staged>, src: seq<int>, base: nat)
    requires t < |tmp| && room < |w| && AfterJobs(w, now, tmp, t, room, jobs, f, src, base)
    ensures |f| <= room
    ensures var job := JobOf(tmp[t], room - |f|);
            && Jobs.InRange(CopyWrites(job, |f|, base), |now|)
            && AfterJobs(w, Jobs.Apply(now, CopyWrites(job, |f|, base)), tmp, t + 1, room,
                         jobs + [job], f + job, src + SrcOf(job, |f|), base)
  {
    var job := JobOf(tmp[t], room - |f|);
    PlanNext(tmp, t, room, base, job);
    CopiedNext(w, now, f, src, base, job);
    ApplyConcat(w, AllWrites(jobs, base), CopyWrites(job, |f|, base));
  }

  /** All copy jobs of a batch, each on the slice that starts where the previous one ends. */
  method CopyAll(reqs: Pool<Record>, tmp: seq<seq<Staged>>, room: nat, base: nat)
    returns (jobs: seq<seq<Staged>>, f: seq<Staged>, ids: seq<int>, ghost src: seq<int>)
    requires reqs.IsRing() && room < reqs.data.Length
    modifies reqs.data
    ensures IdsMatch(ids, src, reqs.inp, reqs.data.Length)
    ensures AfterJobs(old(Free(reqs)), Free(reqs), tmp, |tmp|, room, jobs, f, src, base)
  {
    jobs, f, ids, src := [], [], [], [];
    ghost var w := Free(reqs);
    for t := 0 to |tmp|
      invariant IdsMatch(ids, src, reqs.inp, reqs.data.Length)
      invariant AfterJobs(w, Free(reqs), tmp, t, room, jobs, f, src, base)
    {
      AfterJobsNext(w, Free(reqs), tmp, t, room, jobs, f, src, base);
      var job := JobOf(tmp[t], room - |f|);
      var more := CopyOneJob(reqs, job, |f|, base);
      src := src + SrcOf(job, |f|);
      ids := ids + more;
      f := f + job;
      jobs := jobs + [job];
    }
  }

  lemma PlanNext(tmp: seq<seq<Staged>>, t: nat, room: nat, base: nat, job: seq<Staged>)
    requires t < |tmp|
    requires var left := room - |Jobs.Concat(Plan(tmp[..t], room))|;
             job == if |tmp[t]| > left then tmp[t][..left] else tmp[t]
    ensures Plan(tmp[..t + 1], room) == Plan(tmp[..t], room) + [job]
    ensures Jobs.Concat(Plan(tmp[..t + 1], room)) == Jobs.Concat(Plan(tmp[..t], room)) + job
    ensures AllWrites(Plan(tmp[..t + 1], room), base)
            == AllWrites(Plan(tmp[..t], room), base) + CopyWrites(job, |Jobs.Concat(Plan(tmp[..t], room))|, base)
  {
    assert tmp[..t + 1][..t] == tmp[..t];
    ConcatSnoc(Plan(tmp[..t], room), job);
    AllWritesNext(Plan(tmp[..t], room), job, base);
  }

  method CopyOneJob(reqs: Pool<Record>, job: seq<Staged>, start: nat, base: nat)
    returns (ids: seq<int>)
    requires reqs.IsRing() && start + |job| < reqs.data.Length
    modifies reqs.data
    ensures IdsMatch(ids, SrcOf(job, start), reqs.inp, reqs.data.Length)
    ensures Jobs.InRange(CopyWrites(job, start, base), reqs.data.Length)
    ensures Free(reqs) == Jobs.Apply(old(Free(reqs)), CopyWrites(job, start, base))
  {
    ghost var d := reqs.data[..];
    ids := CopyJob(reqs, job, start, base);
    RotatedApply(d, reqs.inp, CopyWrites(job, start, base));
    SuccMonotone(job, 0, |job|);
  }

  /** Swap the record at offset `o` into offset `c` and give it its final counter. */
  ghost function SwapIn(w: seq<Record>, c: nat, o: nat, counter: nat): (w': seq<Record>)
    requires c < |w| && o < |w|
    ensures |w'| == |w|
  {
    w[o := w[c]][c := w[o].(counter := counter)]
  }

  /** The accepted requests sit at consecutive offsets with consecutive counters. */
  ghost predicate Packed(w: seq<Record>, a: seq<Staged>, base: nat) {
    |a| <= |w| && forall d :: 0 <= d < |a| ==> w[d] == Raw(a[d], base + d)
  }

  /** Compaction after `y` requests: those are packed, the rest is where it was copied. */
  ghost predicate Compacting(w0: seq<Record>, w: seq<Record>, f: seq<Staged>, src: seq<int>, base: nat, y: nat)
    requires y <= |f|
  {
    && |src| == |f| <= |w| == |w0|
    && SrcInOrder(f, src)
    && Packed(w, AcceptedTo(f, y), base)
    && (forall z :: y <= z < |f| ==> CopiedAt(w, f, src, base, z))
    && (forall o :: |f| <= o < |w| ==> w[o] == w0[o])
  }

  /** Packing the next request disturbs neither the packed ones nor the ones still to come,
      because it only ever moves a request towards the front. */
  lemma CompactNext(w0: seq<Record>, w: seq<Record>, f: seq<Staged>, src: seq<int>, base: nat, y: nat)
    requires y < |f| && Compacting(w0, w, f, src, base, y)
    ensures !f[y].copyOk ==> src[y] == -1 && Compacting(w0, w, f, src, base, y + 1)
    ensures f[y].copyOk ==>
      && Succ(f, y) <= src[y] < |f|
      && Compacting(w0, SwapIn(w, Succ(f, y), src[y], base + Succ(f, y)), f, src, base, y + 1)
  {
    assert CopiedAt(w, f, src, base, y);
    if f[y].copyOk {
      var w' := SwapIn(w, Succ(f, y), src[y], base + Succ(f, y));
      forall z | y < z < |f|
        ensures CopiedAt(w', f, src, base, z)
      {
        assert CopiedAt(w, f, src, base, z);
      }
    }
  }

  ghost predicate IdsPacked(ids: seq<int>, f: seq<Staged>, y: nat, p: nat, size: nat)
    requires y <= |f| && y <= |ids| && p < size && |f| <= size
  {
    forall z :: 0 <= z < y ==> ids[z] == SlotId(p, if f[z].copyOk then Succ(f, z) else -1, size)
  }

  method Swap(reqs: Pool<Record>, from: nat, to: nat, counter: nat, ghost o: nat, ghost c: nat)
    requires reqs.IsRing() && c < reqs.data.Length && o < reqs.data.Length
    requires from == Slot(reqs.inp, o, reqs.data.Length) && to == Slot(reqs.inp, c, reqs.data.Length)
    modifies reqs.data
    ensures Free(reqs) == SwapIn(old(Free(reqs)), c, o, counter)
  {
    ghost var d := reqs.data[..];
    RotatedAt(d, reqs.inp);
    var source, target := reqs.data[from], reqs.data[to];
    if from != to {
      reqs.data[from] := target;
    }
    reqs.data[to] := source.(counter := counter);
    RotatedWrite(d, reqs.inp, o, target);
    RotatedWrite(d[from := target], reqs.inp, c, source.(counter := counter));
    assert reqs.data[..] == d[from := target][to := source.(counter := counter)];
  }

  /** Close the gaps failed copies left; requests in thread order, then staging order. */
  method Compact(reqs: Pool<Record>, f: seq<Staged>, ids: seq<int>, base: nat, ghost src: seq<int>, ghost w0: seq<Record>)
    returns (packed: seq<int>)
    requires reqs.IsRing() && |f| < reqs.data.Length
    requires IdsMatch(ids, src, reqs.inp, reqs.data.Length)
    requires Copied(w0, Free(reqs), f, src, base)
    modifies reqs.data
    ensures |packed| == |f| && IdsPacked(packed, f, |f|, reqs.inp, reqs.data.Length)
    ensures Packed(Free(reqs), Accepted(f), base)
    ensures forall o :: |f| <= o < reqs.data.Length ==> Free(reqs)[o] == w0[o]
    ensures Succ(f, |f|) == 0 ==> Free(reqs) == old(Free(reqs))
  {
    packed := [];
    var p := reqs.inp;
    var position, counter := p, 0;
    for y := 0 to |f|
      invariant |packed| == y && IdsPacked(packed, f, y, p, reqs.data.Length)
      invariant counter == Succ(f, y) && position == Slot(p, counter, reqs.data.Length)
      invariant Compacting(w0, Free(reqs), f, src, base, y)
      invariant Succ(f, y) == 0 ==> Free(reqs) == old(Free(reqs))
    {
      var id := CompactOne(reqs, f, ids[y], base, position, counter, src, w0, y);
      packed := packed + [id];
      if id != -1 {
        counter := counter + 1;
        position := if position + 1 == reqs.data.Length then 0 else position + 1;
      }
    }
  }

  /** The turn of request `y`: pack it behind the `counter` requests packed so far. */
  method CompactOne(reqs: Pool<Record>, f: seq<Staged>, from: int, base: nat, position: nat, counter: nat,
                    ghost src: seq<int>, ghost w0: seq<Record>, ghost y: nat) returns (id: int)
    requires reqs.IsRing() && y < |f| < reqs.data.Length && Compacting(w0, Free(reqs), f, src, base, y)
    requires src[y] <= reqs.data.Length && from == SlotId(reqs.inp, src[y], reqs.data.Length)
    requires counter == Succ(f, y) && position == Slot(reqs.inp, counter, reqs.data.Length)
    modifies reqs.data
    ensures Compacting(w0, Free(reqs), f, src, base, y + 1)
    ensures id == SlotId(reqs.inp, if f[y].copyOk then counter else -1, reqs.data.Length)
    ensures !f[y].copyOk ==> Free(reqs) == old(Free(reqs))
  {
    CompactNext(w0, Free(reqs), f, src, base, y);
    id := -1;
    if from != -1 {
      Swap(reqs, from, position, base + counter, src[y], counter);
      id := position;
    }
  }

  /** When every copy succeeded the requests already sit where compaction would put them. */
  lemma {:induction false} AllCopied(w: seq<Record>, f: seq<Staged>, src: seq<int>, base: nat, n: nat)
    requires |src| == |f| <= |w| && n <= |f| && Succ(f, n) == n
    requires forall y :: 0 <= y < n ==> CopiedAt(w, f, src, base, y)
    ensures Packed(w, AcceptedTo(f, n), base)
    ensures forall y :: 0 <= y < n ==> f[y].copyOk && Succ(f, y) == y == src[y]
  {
    if n > 0 {
      AllCopied(w, f, src, base, n - 1);
      assert CopiedAt(w, f, src, base, n - 1);
    }
  }

  // What a batch leaves in the slot at `in` when all of its copies fail.

  /** The first job that has anything to copy. */
  ghost function FirstJob(jobs: seq<seq<Staged>>): (job: seq<Staged>)
    ensures job != [] <==> Jobs.Concat(jobs) != []
  {
    if jobs == [] then [] else if jobs[0] != [] then jobs[0] else FirstJob(jobs[1..])
  }

  /** The last copy of a job that starts at `in`, with the counter it was given. */
  ghost function LastFailed(job: seq<Staged>, base: nat): Record
    requires job != []
  {
    Raw(job[|job| - 1], base + |job| - 1)
  }

  lemma {:induction false} FirstJobStays(jobs: seq<seq<Staged>>, job: seq<Staged>)
    ensures FirstJob(jobs + [job]) == if Jobs.Concat(jobs) != [] then FirstJob(jobs) else job
  {
    if jobs == [] {
      assert ([] + [job])[1..] == [];
    } else {
      assert (jobs + [job])[1..] == jobs[1..] + [job];
      FirstJobStays(jobs[1..], job);
    }
  }

  /** A job of which every copy fails keeps writing its first slot. */
  lemma {:induction false} FailedJobLeaves(w: seq<Record>, job: seq<Staged>, start: nat, base: nat, n: nat)
    requires n <= |job| && start + |job| <= |w| && Succ(job, |job|) == 0
    ensures Jobs.InRange(CopyWrites(job, start, base)[..n], |w|)
    ensures var w' := Jobs.Apply(w, CopyWrites(job, start, base)[..n]);
            w' == if n == 0 then w else w[start := Raw(job[n - 1], base + start + n - 1)]
  {
    if n > 0 {
      FailedJobLeaves(w, job, start, base, n - 1);
      SuccMonotone(job, n - 1, |job|);
      ApplyNext(w, CopyWrites(job, start, base), n - 1);
    }
  }

  /** The writes `ws` of the copies `f` stay inside the ring, and leave the last failed copy of
      the first job at `in`. */
  ghost predicate LeavesLast(w: seq<Record>, ws: seq<Jobs.Write<Record>>, f: seq<Staged>, first: seq<Staged>, base: nat) {
    && Jobs.InRange(ws, |w|)
    && (f != [] ==> |w| > 0 && first != [] && Jobs.Apply(w, ws)[0] == LastFailed(first, base))
  }

  lemma LeavesLastNext(w: seq<Record>, ws: seq<Jobs.Write<Record>>, f: seq<Staged>, first: seq<Staged>, job: seq<Staged>, base: nat)
    requires LeavesLast(w, ws, f, first, base) && Succ(job, |job|) == 0 && |f| + |job| <= |w|
    ensures LeavesLast(w, ws + CopyWrites(job, |f|, base), f + job, if f != [] then first else job, base)
  {
    if job == [] {
      NothingAppended(ws, CopyWrites(job, |f|, base));
      NothingAppended(f, job);
    } else {
      FailedJobAtZero(w, ws, job, |f|, base);
    }
  }

  lemma FailedJobAtZero(w: seq<Record>, before: seq<Jobs.Write<Record>>, job: seq<Staged>, start: nat, base: nat)
    requires Jobs.InRange(before, |w|) && job != [] && start + |job| <= |w| && Succ(job, |job|) == 0
    ensures var ws := before + CopyWrites(job, start, base);
            && Jobs.InRange(ws, |w|)
            && Jobs.Apply(w, ws)[0] == if start == 0 then Raw(job[|job| - 1], base + |job| - 1) else Jobs.Apply(w, before)[0]
  {
    var ws := CopyWrites(job, start, base);
    assert ws[..|job|] == ws;
    FailedJobLeaves(Jobs.Apply(w, before), job, start, base, |job|);
    ApplyConcat(w, before, ws);
  }

  lemma {:induction false} FailedCopiesLeave(w: seq<Record>, jobs: seq<seq<Staged>>, base: nat)
    requires |Jobs.Concat(jobs)| <= |w| && Succ(Jobs.Concat(jobs), |Jobs.Concat(jobs)|) == 0
    ensures LeavesLast(w, AllWrites(jobs, base), Jobs.Concat(jobs), FirstJob(jobs), base)
    decreases |jobs|
  {
    if jobs != [] {
      var n := |jobs| - 1;
      var before, job := jobs[..n], jobs[n];
      assert jobs == before + [job];
      ConcatSnoc(before, job);
      SuccConcat(Jobs.Concat(before), job, |job|);
      FailedCopiesLeave(w, before, base);
      LeavesLastNext(w, AllWrites(before, base), Jobs.Concat(before), FirstJob(before), job, base);
      AllWritesNext(before, job, base);
      FirstJobStays(before, job);
    }
  }
}
