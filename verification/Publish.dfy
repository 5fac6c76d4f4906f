/** All merge jobs of a batch, and what they establish about the two rings. */
module Publish {
  import opened Ring
  import opened Types
  import opened Pools
  import opened Batch
  import opened Merge
  import opened Admission
  import Jobs

  lemma {:induction false} ConcatPrefix<T>(ss: seq<seq<T>>, t: nat)
    requires t <= |ss|
    ensures Jobs.Concat(ss[..t]) <= Jobs.Concat(ss)
  {
    if t > 0 {
      assert ss[..t][1..] == ss[1..][..t - 1];
      ConcatPrefix(ss[1..], t - 1);
    }
  }

  /** Where the `t`-th job's requests and timers fall among those of the whole batch. */
  lemma JobShare(jobs: seq<seq<Staged>>, t: nat)
    requires t < |jobs|
    ensures var f, g, job := Jobs.Concat(jobs), Jobs.Concat(jobs[..t]), jobs[t];
            && Jobs.Concat(jobs[..t + 1]) == g + job && g + job <= f
            && Accepted(g + job) == Accepted(g) + Accepted(job)
            && TimerSum(Accepted(g), |Accepted(g)|) + TimerSum(Accepted(job), |Accepted(job)|)
               <= TimerSum(Accepted(f), |Accepted(f)|)
  {
    var f, g, job := Jobs.Concat(jobs), Jobs.Concat(jobs[..t]), jobs[t];
    assert jobs[..t + 1] == jobs[..t] + [job];
    ConcatSnoc(jobs[..t], job);
    ConcatPrefix(jobs, t + 1);
    TimerShare(f, g, job);
  }

  lemma TimerShare(f: seq<Staged>, g: seq<Staged>, job: seq<Staged>)
    requires g + job <= f
    ensures Accepted(g + job) == Accepted(g) + Accepted(job)
    ensures TimerSum(Accepted(g), |Accepted(g)|) + TimerSum(Accepted(job), |Accepted(job)|)
            <= TimerSum(Accepted(f), |Accepted(f)|)
  {
    AcceptedConcat(g, job, |job|);
    TimerSumConcat(Accepted(g), Accepted(job), |Accepted(job)|);
    PrefixTimers(g + job, f);
  }

  lemma PrefixTimers(g: seq<Staged>, f: seq<Staged>)
    requires g <= f
    ensures TimerSum(Accepted(g), |Accepted(g)|) <= TimerSum(Accepted(f), |Accepted(f)|)
  {
    var h := f[|g|..];
    assert f == g + h;
    AcceptedConcat(g, h, |h|);
    TimerSumConcat(Accepted(g), Accepted(h), |Accepted(h)|);
  }

  /** The packed slot numbers of one job's requests. */
  lemma JobIds(f: seq<Staged>, g: seq<Staged>, job: seq<Staged>, ids: seq<int>, p: nat, size: nat)
    requires g + job <= f && p < size && |f| <= size
    requires |ids| == |f| && IdsPacked(ids, f, |f|, p, size)
    ensures PlacedFrom(ids[|g|..|g| + |job|], job, Succ(g, |g|), p, size)
  {
    forall i | 0 <= i < |job|
      ensures ids[|g| + i] == SlotId(p, if job[i].copyOk then Succ(g, |g|) + Succ(job, i) else -1, size)
    {
      JobIdAt(f, g, job, ids, p, size, i);
    }
  }

  lemma JobIdAt(f: seq<Staged>, g: seq<Staged>, job: seq<Staged>, ids: seq<int>, p: nat, size: nat, i: nat)
    requires g + job <= f && p < size && |f| <= size && i < |job|
    requires |ids| == |f| && IdsPacked(ids, f, |f|, p, size)
    ensures ids[|g| + i] == SlotId(p, if job[i].copyOk then Succ(g, |g|) + Succ(job, i) else -1, size)
  {
    SuccInside(f, g, job, i);
  }

  lemma SuccInside(f: seq<Staged>, g: seq<Staged>, job: seq<Staged>, i: nat)
    requires g + job <= f && i < |job|
    ensures f[|g| + i] == job[i] && Succ(f, |g| + i) == Succ(g, |g|) + Succ(job, i)
  {
    assert f[|g| + i] == (g + job)[|g| + i];
    SuccConcat(g, job, i);
    SuccPrefix(g + job, f, |g| + i);
  }

  /** Every merge job, each on the prefix sum of the timers counted before it. */
  method MergeAll(reqs: Pool<Record>, tims: Pool<Timer>, jobs: seq<seq<Staged>>, ids: seq<int>, tin: nat)
    requires reqs.IsRing() && tin < tims.data.Length && reqs.data as object != tims.data
    requires var f := Jobs.Concat(jobs);
             && |ids| == |f| <= reqs.data.Length && IdsPacked(ids, f, |f|, reqs.inp, reqs.data.Length)
             && TimerSum(Accepted(f), |Accepted(f)|) <= tims.data.Length
    modifies reqs.data, tims.data
    ensures var a := Accepted(Jobs.Concat(jobs));
            && |a| <= reqs.data.Length
            && Merged(old(Rotated(reqs.data[..], reqs.inp)), Rotated(reqs.data[..], reqs.inp),
                      old(Rotated(tims.data[..], tin)), Rotated(tims.data[..], tin), a, |a|, 0, 0, reqs.inp, tin)
  {
    ghost var w, tw := Rotated(reqs.data[..], reqs.inp), Rotated(tims.data[..], tin);
    var y: nat, added: nat := 0, 0;
    for t := 0 to |jobs|
      invariant MergedSoFar(reqs, tims, w, tw, Jobs.Concat(jobs[..t]), y, added, tin)
    {
      var more := MergeTurn(reqs, tims, jobs, t, ids, tin, y, added, w, tw);
      y, added := y + |jobs[t]|, added + more;
    }
    assert jobs[..|jobs|] == jobs;
  }

  /** The turn of job `t`, after the jobs before it. */
  method MergeTurn(reqs: Pool<Record>, tims: Pool<Timer>, jobs: seq<seq<Staged>>, t: nat, ids: seq<int>, tin: nat,
                   y: nat, added: nat, ghost w: seq<Record>, ghost tw: seq<Timer>)
    returns (more: nat)
    requires t < |jobs| && reqs.data as object != tims.data
    requires MergedSoFar(reqs, tims, w, tw, Jobs.Concat(jobs[..t]), y, added, tin)
    requires var f := Jobs.Concat(jobs);
             && |ids| == |f| <= |w| && IdsPacked(ids, f, |f|, reqs.inp, |w|)
             && TimerSum(Accepted(f), |Accepted(f)|) <= |tw|
    modifies reqs.data, tims.data
    ensures MergedSoFar(reqs, tims, w, tw, Jobs.Concat(jobs[..t + 1]), y + |jobs[t]|, added + more, tin)
  {
    JobShare(jobs, t);
    ghost var f, g := Jobs.Concat(jobs), Jobs.Concat(jobs[..t]);
    JobIds(f, g, jobs[t], ids, reqs.inp, reqs.data.Length);
    more := MergeOne(reqs, tims, jobs[t], ids[y..y + |jobs[t]|], tin, added, w, tw, Accepted(g));
  }

  /** The requests `g` of the first jobs are merged; they own the next `added` timer slots. */
  ghost predicate MergedSoFar(reqs: Pool<Record>, tims: Pool<Timer>, w: seq<Record>, tw: seq<Timer>,
                              g: seq<Staged>, y: nat, added: nat, tin: nat)
    reads reqs, reqs.data, tims, tims.data
  {
    var a := Accepted(g);
    y == |g| && added == TimerSum(a, |a|) && MergeState(reqs, tims, w, tw, a, |a|, 0, 0, tin)
  }

  method MergeOne(reqs: Pool<Record>, tims: Pool<Timer>, job: seq<Staged>, ids: seq<int>, tin: nat,
                  added: nat, ghost w: seq<Record>, ghost tw: seq<Timer>, ghost a: seq<Staged>)
    returns (more: nat)
    requires reqs.data as object != tims.data
    requires MergeState(reqs, tims, w, tw, a, |a|, 0, 0, tin)
    requires |a| + |job| <= |w| && PlacedFrom(ids, job, |a|, reqs.inp, |w|)
    requires added == TimerSum(a, |a|) && added + TimerSum(Accepted(job), |Accepted(job)|) <= |tw|
    modifies reqs.data, tims.data
    ensures var a' := a + Accepted(job);
            && added + more == TimerSum(a', |a'|)
            && MergeState(reqs, tims, w, tw, a', |a'|, 0, 0, tin)
  {
    more := JobTimers(job, |job|);
    TimersWithJob(a, job);
    ghost var b := Accepted(job);
    ghost var w1, tw1 := Rotated(reqs.data[..], reqs.inp), Rotated(tims.data[..], tin);
    MergeJob(reqs, tims, job, ids, added + tin, |a|, added, tin);
    MergedConcat(w, w1, Rotated(reqs.data[..], reqs.inp), tw, tw1, Rotated(tims.data[..], tin), a, b, reqs.inp, tin);
  }

  lemma TimersWithJob(a: seq<Staged>, job: seq<Staged>)
    ensures var a' := a + Accepted(job); TimerSum(a', |a'|) == TimerSum(a, |a|) + JobTimers(job, |job|)
  {
    TimerSumConcat(a, Accepted(job), |Accepted(job)|);
    JobTimersCount(job, |job|);
  }
}
