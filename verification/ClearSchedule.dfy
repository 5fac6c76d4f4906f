/** The clear jobs run in parallel, each on the timers of its own share of the expired requests. */
module ClearSchedule {
  import opened Types
  import opened Tiling
  import opened Batch
  import opened Expiry
  import Jobs

  ghost predicate Within(recs: seq<Record>, num: nat, w: seq<Timer>) {
    num <= |recs| && Off(recs, num) <= |w|
  }

  lemma ShareWithin(recs: seq<Record>, jobs: seq<(nat, nat)>, num: nat, t: nat, w: seq<Timer>)
    requires Covers(jobs, num) && t < |jobs| && Within(recs, num, w)
    ensures jobs[t].0 + jobs[t].1 <= num && Off(recs, jobs[t].0) <= Off(recs, jobs[t].0 + jobs[t].1) <= |w|
  {
    CoversPrefix(jobs, num, t);
    OffMonotone(recs, jobs[t].0, jobs[t].0 + jobs[t].1);
    OffMonotone(recs, jobs[t].0 + jobs[t].1, num);
  }

  /** The writes of clear job `t`, on a timer ring that held `w`. */
  ghost function ShareWrites(recs: seq<Record>, jobs: seq<(nat, nat)>, num: nat, t: nat, w: seq<Timer>): seq<Jobs.Write<Timer>>
    requires Covers(jobs, num) && t < |jobs| && Within(recs, num, w)
  {
    ShareWithin(recs, jobs, num, t, w);
    ClearWrites(w, Off(recs, jobs[t].0), Off(recs, jobs[t].0 + jobs[t].1))
  }

  ghost function AllClears(recs: seq<Record>, jobs: seq<(nat, nat)>, num: nat, w: seq<Timer>): (js: seq<seq<Jobs.Write<Timer>>>)
    requires Covers(jobs, num) && Within(recs, num, w)
    ensures |js| == |jobs|
  {
    if jobs == [] then []
    else
      var n := |jobs| - 1;
      CoversPrefix(jobs, num, n);
      ShareWithin(recs, jobs, num, n, w);
      AllClears(recs, jobs[..n], jobs[n].0, w) + [ShareWrites(recs, jobs, num, n, w)]
  }

  /** A slot written by some job belongs to the records before the end of the last share. */
  lemma {:induction false} ClearTouches(recs: seq<Record>, jobs: seq<(nat, nat)>, num: nat, w: seq<Timer>, t: nat, x: nat)
    requires Covers(jobs, num) && Within(recs, num, w) && t < |jobs| && Jobs.Touches(AllClears(recs, jobs, num, w)[t], x)
    ensures x < Off(recs, num)
  {
    var n := |jobs| - 1;
    CoversPrefix(jobs, num, n);
    ShareWithin(recs, jobs, num, n, w);
    if t < n {
      ClearTouches(recs, jobs[..n], jobs[n].0, w, t, x);
    } else {
      Jobs.SliceTouches(ClearedPart(w, Off(recs, jobs[n].0), Off(recs, num)), Off(recs, jobs[n].0), x);
    }
  }

  /** No timer is cleared by two jobs. */
  lemma {:induction false} ClearJobsDisjoint(recs: seq<Record>, jobs: seq<(nat, nat)>, num: nat, w: seq<Timer>)
    requires Covers(jobs, num) && Within(recs, num, w)
    ensures Jobs.Disjoint(AllClears(recs, jobs, num, w))
  {
    if jobs != [] {
      var n := |jobs| - 1;
      CoversPrefix(jobs, num, n);
      ShareWithin(recs, jobs, num, n, w);
      var js, rest := AllClears(recs, jobs, num, w), AllClears(recs, jobs[..n], jobs[n].0, w);
      ClearJobsDisjoint(recs, jobs[..n], jobs[n].0, w);
      forall x, t | Jobs.Touches(js[n], x) && 0 <= t < n
        ensures !Jobs.Touches(rest[t], x)
      {
        Jobs.SliceTouches(ClearedPart(w, Off(recs, jobs[n].0), Off(recs, num)), Off(recs, jobs[n].0), x);
        if Jobs.Touches(rest[t], x) { ClearTouches(recs, jobs[..n], jobs[n].0, w, t, x); }
      }
      AddedLast(rest, js[n]);
    }
  }

  lemma AddedLast<T>(js: seq<seq<Jobs.Write<T>>>, ws: seq<Jobs.Write<T>>)
    requires Jobs.Disjoint(js)
    requires forall x, t :: Jobs.Touches(ws, x) && 0 <= t < |js| ==> !Jobs.Touches(js[t], x)
    ensures Jobs.Disjoint(js + [ws])
  {
    var all := js + [ws];
    forall i, j, x | 0 <= i < |all| && 0 <= j < |all| && Jobs.Touches(all[i], x) && Jobs.Touches(all[j], x)
      ensures i == j
    {
      assert (i < |js| ==> Jobs.Touches(js[i], x)) && (j < |js| ==> Jobs.Touches(js[j], x));
    }
  }

  lemma {:induction false} ClearsOneByOne(recs: seq<Record>, jobs: seq<(nat, nat)>, num: nat, w: seq<Timer>)
    requires Covers(jobs, num) && Within(recs, num, w)
    ensures Jobs.InRange(Jobs.Concat(AllClears(recs, jobs, num, w)), |w|)
    ensures Jobs.Apply(w, Jobs.Concat(AllClears(recs, jobs, num, w))) == ClearRange(w, 0, Off(recs, num))
  {
    if jobs != [] {
      var n := |jobs| - 1;
      CoversPrefix(jobs, num, n);
      ShareWithin(recs, jobs, num, n, w);
      var rest, mine := AllClears(recs, jobs[..n], jobs[n].0, w), ShareWrites(recs, jobs, num, n, w);
      ClearsOneByOne(recs, jobs[..n], jobs[n].0, w);
      ConcatSnoc(rest, mine);
      ClearIsWrites(w, Jobs.Apply(w, Jobs.Concat(rest)), Off(recs, jobs[n].0), Off(recs, num));
      ApplyConcat(w, Jobs.Concat(rest), mine);
    }
  }

  /** However the clear jobs interleave, exactly the timers of the expired records are reset. */
  lemma ClearScheduleFree(recs: seq<Record>, jobs: seq<(nat, nat)>, num: nat, w: seq<Timer>, ws: seq<Jobs.Write<Timer>>)
    requires Covers(jobs, num) && Within(recs, num, w)
    requires Jobs.Interleaves(ws, AllClears(recs, jobs, num, w)) && Jobs.InRange(ws, |w|)
    ensures Jobs.Apply(w, ws) == ClearRange(w, 0, Off(recs, num))
  {
    var js := AllClears(recs, jobs, num, w);
    ClearsOneByOne(recs, jobs, num, w);
    ClearJobsDisjoint(recs, jobs, num, w);
    assert js[0..] == js;
    Jobs.OneAfterAnother(js, 0);
    Jobs.ScheduleDoesNotMatter(w, js, ws, Jobs.Concat(js));
  }
}
