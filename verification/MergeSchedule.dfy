/** The merge jobs run in parallel. Each writes its own requests' records and the part of the
    reserved timer slots that its prefix sum gives it, so the order of their writes does not
    matter. */
module MergeSchedule {
  import opened Ring
  import opened Types
  import opened Batch
  import opened Merge
  import opened Publish
  import Jobs

  /** Accepted requests of the jobs before job `t`: where the job's records begin. */
  ghost function Before(jobs: seq<seq<Staged>>, t: nat): seq<Staged>
    requires t <= |jobs|
  {
    Accepted(Jobs.Concat(jobs[..t]))
  }

  /** Timers of the jobs before job `t`: the job's prefix, relative to the reserved slots. */
  ghost function Prefix(jobs: seq<seq<Staged>>, t: nat): nat
    requires t <= |jobs|
  {
    TimerSum(Before(jobs, t), |Before(jobs, t)|)
  }

  ghost function Share(job: seq<Staged>): nat {
    TimerSum(Accepted(job), |Accepted(job)|)
  }

  lemma PrefixNext(jobs: seq<seq<Staged>>, t: nat)
    requires t < |jobs|
    ensures Before(jobs, t + 1) == Before(jobs, t) + Accepted(jobs[t])
    ensures Prefix(jobs, t + 1) == Prefix(jobs, t) + Share(jobs[t])
  {
    JobShare(jobs, t);
    var a, b := Before(jobs, t), Accepted(jobs[t]);
    TimerSumConcat(a, b, |b|);
  }

  lemma {:induction false} PrefixMonotone(jobs: seq<seq<Staged>>, t: nat, u: nat)
    requires t <= u <= |jobs|
    ensures |Before(jobs, t)| <= |Before(jobs, u)| && Prefix(jobs, t) <= Prefix(jobs, u)
  {
    if t < u {
      PrefixMonotone(jobs, t, u - 1);
      PrefixNext(jobs, u - 1);
    }
  }

  /** The batch fits into rings of these sizes. */
  ghost predicate Fits(jobs: seq<seq<Staged>>, size: nat, tsize: nat) {
    |Before(jobs, |jobs|)| <= size && Prefix(jobs, |jobs|) <= tsize
  }

  lemma JobFits(jobs: seq<seq<Staged>>, t: nat, size: nat, tsize: nat)
    requires t < |jobs| && Fits(jobs, size, tsize)
    ensures |Before(jobs, t)| + |Accepted(jobs[t])| <= size && Prefix(jobs, t) + Share(jobs[t]) <= tsize
  {
    PrefixNext(jobs, t);
    PrefixMonotone(jobs, t + 1, |jobs|);
  }

  /** The record writes of job `t`, on a ring `w` of records. */
  ghost function JobRecords(w: seq<Record>, jobs: seq<seq<Staged>>, t: nat, q: nat, tsize: nat): seq<Jobs.Write<Record>>
    requires t < |jobs| && q < tsize && Fits(jobs, |w|, tsize)
  {
    JobFits(jobs, t, |w|, tsize);
    var a := Accepted(jobs[t]);
    RecordWrites(w, a, |a|, |Before(jobs, t)|, Prefix(jobs, t), q, tsize)
  }

  /** The timer writes of job `t`: its own requests' timers from its prefix on. */
  ghost function JobTimersOf(jobs: seq<seq<Staged>>, t: nat, p: nat, size: nat, tsize: nat): seq<Jobs.Write<Timer>>
    requires t < |jobs| && p < size && Fits(jobs, size, tsize)
  {
    JobFits(jobs, t, size, tsize);
    var a := Accepted(jobs[t]);
    Jobs.SliceWrites(Labels(a, |a|, |Before(jobs, t)|, p, size), Prefix(jobs, t))
  }

  ghost function AllRecords(w: seq<Record>, jobs: seq<seq<Staged>>, n: nat, q: nat, tsize: nat): (js: seq<seq<Jobs.Write<Record>>>)
    requires n <= |jobs| && q < tsize && Fits(jobs, |w|, tsize)
    ensures |js| == n
  {
    if n == 0 then [] else AllRecords(w, jobs, n - 1, q, tsize) + [JobRecords(w, jobs, n - 1, q, tsize)]
  }

  ghost function AllTimers(jobs: seq<seq<Staged>>, n: nat, p: nat, size: nat, tsize: nat): (js: seq<seq<Jobs.Write<Timer>>>)
    requires n <= |jobs| && p < size && Fits(jobs, size, tsize)
    ensures |js| == n
  {
    if n == 0 then [] else AllTimers(jobs, n - 1, p, size, tsize) + [JobTimersOf(jobs, n - 1, p, size, tsize)]
  }

  lemma AllAt(w: seq<Record>, jobs: seq<seq<Staged>>, n: nat, p: nat, q: nat, tsize: nat, t: nat)
    requires t < n <= |jobs| && p < |w| && q < tsize && Fits(jobs, |w|, tsize)
    ensures AllRecords(w, jobs, n, q, tsize)[t] == JobRecords(w, jobs, t, q, tsize)
    ensures AllTimers(jobs, n, p, |w|, tsize)[t] == JobTimersOf(jobs, t, p, |w|, tsize)
  {
    RecordsAt(w, jobs, n, q, tsize, t);
    TimersAt(jobs, n, p, |w|, tsize, t);
  }

  lemma {:induction false} RecordsAt(w: seq<Record>, jobs: seq<seq<Staged>>, n: nat, q: nat, tsize: nat, t: nat)
    requires t < n <= |jobs| && q < tsize && Fits(jobs, |w|, tsize)
    ensures AllRecords(w, jobs, n, q, tsize)[t] == JobRecords(w, jobs, t, q, tsize)
  {
    if t < n - 1 { RecordsAt(w, jobs, n - 1, q, tsize, t); }
  }

  lemma {:induction false} TimersAt(jobs: seq<seq<Staged>>, n: nat, p: nat, size: nat, tsize: nat, t: nat)
    requires t < n <= |jobs| && p < size && Fits(jobs, size, tsize)
    ensures AllTimers(jobs, n, p, size, tsize)[t] == JobTimersOf(jobs, t, p, size, tsize)
  {
    if t < n - 1 { TimersAt(jobs, n - 1, p, size, tsize, t); }
  }

  // No slot is written by two jobs.

  lemma RecordsTouched(w: seq<Record>, jobs: seq<seq<Staged>>, t: nat, q: nat, tsize: nat, x: nat)
    requires t < |jobs| && q < tsize && Fits(jobs, |w|, tsize) && Jobs.Touches(JobRecords(w, jobs, t, q, tsize), x)
    ensures |Before(jobs, t)| <= x < |Before(jobs, t + 1)|
  {
    JobFits(jobs, t, |w|, tsize);
    PrefixNext(jobs, t);
    var a := Accepted(jobs[t]);
    RecordWritesInside(w, a, |a|, |Before(jobs, t)|, Prefix(jobs, t), q, tsize);
  }

  lemma TimersTouched(jobs: seq<seq<Staged>>, t: nat, p: nat, size: nat, tsize: nat, x: nat)
    requires t < |jobs| && p < size && Fits(jobs, size, tsize) && Jobs.Touches(JobTimersOf(jobs, t, p, size, tsize), x)
    ensures Prefix(jobs, t) <= x < Prefix(jobs, t + 1)
  {
    JobFits(jobs, t, size, tsize);
    PrefixNext(jobs, t);
    var a := Accepted(jobs[t]);
    Jobs.SliceTouches(Labels(a, |a|, |Before(jobs, t)|, p, size), Prefix(jobs, t), x);
  }

  lemma MergeJobsDisjoint(w: seq<Record>, jobs: seq<seq<Staged>>, p: nat, q: nat, tsize: nat)
    requires p < |w| && q < tsize && Fits(jobs, |w|, tsize)
    ensures Jobs.Disjoint(AllRecords(w, jobs, |jobs|, q, tsize))
    ensures Jobs.Disjoint(AllTimers(jobs, |jobs|, p, |w|, tsize))
  {
    RecordsDisjoint(w, jobs, p, q, tsize);
    TimersDisjoint(w, jobs, p, q, tsize);
  }

  lemma RecordsDisjoint(w: seq<Record>, jobs: seq<seq<Staged>>, p: nat, q: nat, tsize: nat)
    requires p < |w| && q < tsize && Fits(jobs, |w|, tsize)
    ensures Jobs.Disjoint(AllRecords(w, jobs, |jobs|, q, tsize))
  {
    var js := AllRecords(w, jobs, |jobs|, q, tsize);
    forall t, u, x | 0 <= t < |js| && 0 <= u < |js| && Jobs.Touches(js[t], x) && Jobs.Touches(js[u], x)
      ensures t == u
    {
      AllAt(w, jobs, |jobs|, p, q, tsize, t);
      AllAt(w, jobs, |jobs|, p, q, tsize, u);
      RecordsTouched(w, jobs, t, q, tsize, x);
      RecordsTouched(w, jobs, u, q, tsize, x);
      if t < u { PrefixMonotone(jobs, t + 1, u); }
      if u < t { PrefixMonotone(jobs, u + 1, t); }
    }
  }

  lemma TimersDisjoint(w: seq<Record>, jobs: seq<seq<Staged>>, p: nat, q: nat, tsize: nat)
    requires p < |w| && q < tsize && Fits(jobs, |w|, tsize)
    ensures Jobs.Disjoint(AllTimers(jobs, |jobs|, p, |w|, tsize))
  {
    var js := AllTimers(jobs, |jobs|, p, |w|, tsize);
    forall t, u, x | 0 <= t < |js| && 0 <= u < |js| && Jobs.Touches(js[t], x) && Jobs.Touches(js[u], x)
      ensures t == u
    {
      AllAt(w, jobs, |jobs|, p, q, tsize, t);
      AllAt(w, jobs, |jobs|, p, q, tsize, u);
      TimersTouched(jobs, t, p, |w|, tsize, x);
      TimersTouched(jobs, u, p, |w|, tsize, x);
      if t < u { PrefixMonotone(jobs, t + 1, u); }
      if u < t { PrefixMonotone(jobs, u + 1, t); }
    }
  }

  // One job after another.

  /** The rings after the writes `ws` and `ts`, which merge the first `n` jobs. */
  ghost predicate MergedBy(w: seq<Record>, tw: seq<Timer>, ws: seq<Jobs.Write<Record>>, ts: seq<Jobs.Write<Timer>>,
                           a: seq<Staged>, p: nat, q: nat)
  {
    && p < |w| && q < |tw| && |a| <= |w| && TimerSum(a, |a|) <= |tw|
    && Jobs.InRange(ws, |w|) && Jobs.InRange(ts, |tw|)
    && Merged(w, Jobs.Apply(w, ws), tw, Jobs.Apply(tw, ts), a, |a|, 0, 0, p, q)
  }

  /** Records past offset `c` are as they were, so a job's writes are the same whether the jobs
      before it have run or not. */
  lemma {:induction false} SameRecordWrites(w: seq<Record>, v: seq<Record>, a: seq<Staged>, n: nat, c: nat, o: nat, q: nat, tsize: nat)
    requires n <= |a| && c + |a| <= |w| == |v| && q < tsize && o + TimerSum(a, n) <= tsize
    requires forall x :: c <= x < |w| ==> v[x] == w[x]
    ensures RecordWrites(v, a, n, c, o, q, tsize) == RecordWrites(w, a, n, c, o, q, tsize)
  {
    if n > 0 { SameRecordWrites(w, v, a, n - 1, c, o, q, tsize); }
  }

  lemma NextJob(w: seq<Record>, tw: seq<Timer>, ws: seq<Jobs.Write<Record>>, ts: seq<Jobs.Write<Timer>>,
                jobs: seq<seq<Staged>>, t: nat, p: nat, q: nat)
    requires t < |jobs| && p < |w| && q < |tw| && Fits(jobs, |w|, |tw|)
    requires MergedBy(w, tw, ws, ts, Before(jobs, t), p, q)
    ensures MergedBy(w, tw, ws + JobRecords(w, jobs, t, q, |tw|), ts + JobTimersOf(jobs, t, p, |w|, |tw|),
                     Before(jobs, t + 1), p, q)
  {
    var a, b := Before(jobs, t), Accepted(jobs[t]);
    JobFits(jobs, t, |w|, |tw|);
    PrefixNext(jobs, t);
    var v, tv := Jobs.Apply(w, ws), Jobs.Apply(tw, ts);
    var mine, mineT := JobRecords(w, jobs, t, q, |tw|), JobTimersOf(jobs, t, p, |w|, |tw|);
    SameRecordWrites(w, v, b, |b|, |a|, Prefix(jobs, t), q, |tw|);
    RecordEffect(v, b, |b|, |a|, Prefix(jobs, t), q, |tw|);
    Jobs.SliceEffect(tv, Labels(b, |b|, |a|, p, |w|), Prefix(jobs, t));
    MergedIsWrites(v, Jobs.Apply(v, RecordWrites(v, b, |b|, |a|, Prefix(jobs, t), q, |tw|)), tv, Jobs.Apply(tv, mineT),
                   b, |a|, Prefix(jobs, t), p, q);
    ApplyConcat(w, ws, mine);
    ApplyConcat(tw, ts, mineT);
    MergedConcat(w, v, Jobs.Apply(v, mine), tw, tv, Jobs.Apply(tv, mineT), a, b, p, q);
  }

  lemma {:induction false} OneByOne(w: seq<Record>, tw: seq<Timer>, jobs: seq<seq<Staged>>, n: nat, p: nat, q: nat)
    requires n <= |jobs| && p < |w| && q < |tw| && Fits(jobs, |w|, |tw|)
    ensures MergedBy(w, tw, Jobs.Concat(AllRecords(w, jobs, n, q, |tw|)), Jobs.Concat(AllTimers(jobs, n, p, |w|, |tw|)),
                     Before(jobs, n), p, q)
  {
    if n == 0 {
      assert Overlay(tw, 0, []) == tw;
    } else {
      OneByOne(w, tw, jobs, n - 1, p, q);
      NextJob(w, tw, Jobs.Concat(AllRecords(w, jobs, n - 1, q, |tw|)), Jobs.Concat(AllTimers(jobs, n - 1, p, |w|, |tw|)),
              jobs, n - 1, p, q);
      ConcatSnoc(AllRecords(w, jobs, n - 1, q, |tw|), JobRecords(w, jobs, n - 1, q, |tw|));
      ConcatSnoc(AllTimers(jobs, n - 1, p, |w|, |tw|), JobTimersOf(jobs, n - 1, p, |w|, |tw|));
    }
  }

  /** Whatever way the merge jobs interleave, both rings end up as the merge of the whole batch:
      every request has the slice after its predecessors', the slices hold the requests' timers
      in request order, and no other slot changes. */
  lemma MergeScheduleFree(w: seq<Record>, tw: seq<Timer>, jobs: seq<seq<Staged>>, p: nat, q: nat,
                          ws: seq<Jobs.Write<Record>>, ts: seq<Jobs.Write<Timer>>)
    requires p < |w| && q < |tw| && Fits(jobs, |w|, |tw|)
    requires Jobs.Interleaves(ws, AllRecords(w, jobs, |jobs|, q, |tw|)) && Jobs.InRange(ws, |w|)
    requires Jobs.Interleaves(ts, AllTimers(jobs, |jobs|, p, |w|, |tw|)) && Jobs.InRange(ts, |tw|)
    ensures MergedBy(w, tw, ws, ts, Accepted(Jobs.Concat(jobs)), p, q)
  {
    var rs, us := AllRecords(w, jobs, |jobs|, q, |tw|), AllTimers(jobs, |jobs|, p, |w|, |tw|);
    OneByOne(w, tw, jobs, |jobs|, p, q);
    assert jobs[..|jobs|] == jobs && rs[0..] == rs && us[0..] == us;
    MergeJobsDisjoint(w, jobs, p, q, |tw|);
    Jobs.OneAfterAnother(rs, 0);
    Jobs.OneAfterAnother(us, 0);
    Jobs.ScheduleDoesNotMatter(w, rs, ws, Jobs.Concat(rs));
    Jobs.ScheduleDoesNotMatter(tw, us, ts, Jobs.Concat(us));
  }
}
