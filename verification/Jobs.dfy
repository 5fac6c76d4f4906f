/** Parallel jobs that each write their own part of a shared buffer. */
module Jobs {

  datatype Write<T> = Write(at: nat, value: T)

  ghost predicate InRange<T>(ws: seq<Write<T>>, size: nat) {
    forall i :: 0 <= i < |ws| ==> ws[i].at < size
  }

  /** The buffer after the writes, in order. */
  ghost function Apply<T>(d: seq<T>, ws: seq<Write<T>>): (r: seq<T>)
    requires InRange(ws, |d|)
    ensures |r| == |d|
    decreases |ws|
  {
    if ws == [] then d else Apply(d[ws[0].at := ws[0].value], ws[1..])
  }

  /** `ws` is some order in which a scheduler can run the jobs, one write at a time. */
  ghost predicate Interleaves<T(!new)>(ws: seq<Write<T>>, jobs: seq<seq<Write<T>>>)
    decreases |ws|
  {
    if ws == [] then forall j :: 0 <= j < |jobs| ==> jobs[j] == []
    else exists j :: && 0 <= j < |jobs| && jobs[j] != [] && jobs[j][0] == ws[0]
                     && Interleaves(ws[1..], jobs[j := jobs[j][1..]])
  }

  ghost predicate Touches<T>(ws: seq<Write<T>>, p: nat) {
    exists i :: 0 <= i < |ws| && ws[i].at == p
  }

  /** No slot is written by two jobs. */
  ghost predicate Disjoint<T>(jobs: seq<seq<Write<T>>>) {
    forall i, j, p :: 0 <= i < |jobs| && 0 <= j < |jobs| && Touches(jobs[i], p) && Touches(jobs[j], p) ==> i == j
  }

  /** The values written to slot `p`, oldest first. */
  ghost function WrittenTo<T>(ws: seq<Write<T>>, p: nat): seq<T> {
    if ws == [] then []
    else (if ws[0].at == p then [ws[0].value] else []) + WrittenTo(ws[1..], p)
  }

  /** A slot ends up with the last value written to it. */
  lemma {:induction false} LastWriteWins<T>(d: seq<T>, ws: seq<Write<T>>, p: nat)
    requires InRange(ws, |d|) && p < |d|
    ensures var vs := WrittenTo(ws, p);
            Apply(d, ws)[p] == if vs == [] then d[p] else vs[|vs| - 1]
    decreases |ws|
  {
    if ws != [] {
      LastWriteWins(d[ws[0].at := ws[0].value], ws[1..], p);
    }
  }

  lemma {:induction false} Untouched<T>(ws: seq<Write<T>>, p: nat)
    requires !Touches(ws, p)
    ensures WrittenTo(ws, p) == []
  {
    if ws != [] {
      assert ws[0].at != p;
      assert forall i :: 0 <= i < |ws[1..]| ==> ws[1..][i] == ws[i + 1];
      Untouched(ws[1..], p);
    }
  }

  lemma TailDisjoint<T>(jobs: seq<seq<Write<T>>>, j: nat)
    requires j < |jobs| && jobs[j] != [] && Disjoint(jobs)
    ensures Disjoint(jobs[j := jobs[j][1..]])
    ensures forall p :: Touches(jobs[j][1..], p) ==> Touches(jobs[j], p)
  {
    var jobs' := jobs[j := jobs[j][1..]];
    forall p | Touches(jobs[j][1..], p)
      ensures Touches(jobs[j], p)
    {
      var i :| 0 <= i < |jobs[j][1..]| && jobs[j][1..][i].at == p;
      assert jobs[j][i + 1].at == p;
    }
    forall a, b, p | 0 <= a < |jobs'| && 0 <= b < |jobs'| && Touches(jobs'[a], p) && Touches(jobs'[b], p)
      ensures a == b
    {
      assert Touches(jobs[a], p) && Touches(jobs[b], p);
    }
  }

  /** Whatever the schedule, a slot sees the writes of the one job that owns it, in that
      job's order. */
  lemma {:induction false} OwnerWritesSlot<T(!new)>(ws: seq<Write<T>>, jobs: seq<seq<Write<T>>>, j: nat, p: nat)
    requires Interleaves(ws, jobs) && Disjoint(jobs) && j < |jobs|
    requires forall i :: 0 <= i < |jobs| && i != j ==> !Touches(jobs[i], p)
    ensures WrittenTo(ws, p) == WrittenTo(jobs[j], p)
    decreases |ws|
  {
    if ws != [] {
      var i :| && 0 <= i < |jobs| && jobs[i] != [] && jobs[i][0] == ws[0]
               && Interleaves(ws[1..], jobs[i := jobs[i][1..]]);
      TailDisjoint(jobs, i);
      OwnerWritesSlot(ws[1..], jobs[i := jobs[i][1..]], j, p);
    }
  }

  lemma {:induction false} NobodyWritesSlot<T(!new)>(ws: seq<Write<T>>, jobs: seq<seq<Write<T>>>, p: nat)
    requires Interleaves(ws, jobs)
    requires forall i :: 0 <= i < |jobs| ==> !Touches(jobs[i], p)
    ensures WrittenTo(ws, p) == []
    decreases |ws|
  {
    if ws != [] {
      var i :| && 0 <= i < |jobs| && jobs[i] != [] && jobs[i][0] == ws[0]
               && Interleaves(ws[1..], jobs[i := jobs[i][1..]]);
      var jobs' := jobs[i := jobs[i][1..]];
      forall a | 0 <= a < |jobs'|
        ensures !Touches(jobs'[a], p)
      {
        assert !Touches(jobs[a], p);
      }
      NobodyWritesSlot(ws[1..], jobs', p);
    }
  }

  /** Any two schedules of jobs with disjoint footprints leave the same buffer. */
  lemma ScheduleDoesNotMatter<T(!new)>(d: seq<T>, jobs: seq<seq<Write<T>>>, ws: seq<Write<T>>, ws': seq<Write<T>>)
    requires Disjoint(jobs) && Interleaves(ws, jobs) && Interleaves(ws', jobs)
    requires InRange(ws, |d|) && InRange(ws', |d|)
    ensures Apply(d, ws) == Apply(d, ws')
  {
    forall p | 0 <= p < |d|
      ensures Apply(d, ws)[p] == Apply(d, ws')[p]
    {
      LastWriteWins(d, ws, p);
      LastWriteWins(d, ws', p);
      SameWrites(jobs, ws, ws', p);
    }
  }

  lemma SameWrites<T(!new)>(jobs: seq<seq<Write<T>>>, ws: seq<Write<T>>, ws': seq<Write<T>>, p: nat)
    requires Disjoint(jobs) && Interleaves(ws, jobs) && Interleaves(ws', jobs)
    ensures WrittenTo(ws, p) == WrittenTo(ws', p)
  {
    if j :| 0 <= j < |jobs| && Touches(jobs[j], p) {
      OwnerWritesSlot(ws, jobs, j, p);
      OwnerWritesSlot(ws', jobs, j, p);
    } else {
      NobodyWritesSlot(ws, jobs, p);
      NobodyWritesSlot(ws', jobs, p);
    }
  }

  /** Writing `vals` to consecutive slots from `o` on. */
  ghost function SliceWrites<T>(vals: seq<T>, o: nat): (ws: seq<Write<T>>)
    ensures |ws| == |vals|
  {
    seq(|vals|, k requires 0 <= k < |vals| => Write(o + k, vals[k]))
  }

  lemma SliceTouches<T>(vals: seq<T>, o: nat, p: nat)
    requires Touches(SliceWrites(vals, o), p)
    ensures o <= p < o + |vals|
  {
  }

  /** The slots of a buffer after a slice was written over it. */
  lemma {:induction false} SliceEffect<T>(d: seq<T>, vals: seq<T>, o: nat)
    requires o + |vals| <= |d|
    ensures InRange(SliceWrites(vals, o), |d|)
    ensures Apply(d, SliceWrites(vals, o)) == d[..o] + vals + d[o + |vals|..]
    decreases |vals|
  {
    if vals != [] {
      var ws, d' := SliceWrites(vals, o), d[o := vals[0]];
      assert ws[1..] == SliceWrites(vals[1..], o + 1);
      SliceEffect(d', vals[1..], o + 1);
      assert d'[..o + 1] + vals[1..] + d'[o + |vals|..] == d[..o] + vals + d[o + |vals|..];
    }
  }

  ghost function Concat<T>(jobs: seq<seq<T>>): seq<T> {
    if jobs == [] then [] else jobs[0] + Concat(jobs[1..])
  }

  /** Running the jobs one after another is one of the schedules. */
  lemma {:induction false} OneAfterAnother<T(!new)>(jobs: seq<seq<Write<T>>>, done: nat)
    requires done <= |jobs| && forall j :: 0 <= j < done ==> jobs[j] == []
    ensures Interleaves(Concat(jobs[done..]), jobs)
    decreases |jobs| - done, if done < |jobs| then |jobs[done]| else 0
  {
    if done < |jobs| {
      assert jobs[done..][1..] == jobs[done + 1..];
      if jobs[done] == [] {
        OneAfterAnother(jobs, done + 1);
        assert Concat(jobs[done..]) == Concat(jobs[done + 1..]);
      } else {
        var jobs' := jobs[done := jobs[done][1..]];
        var ws := Concat(jobs[done..]);
        assert jobs'[done..][1..] == jobs[done + 1..];
        OneAfterAnother(jobs', done);
        assert ws[1..] == Concat(jobs'[done..]);
        assert jobs[done][0] == ws[0];
      }
    }
  }
}
