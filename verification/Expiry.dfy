/** Expiry of the oldest requests and the clearing of their timers. */
module Expiry {
  import opened Ring
  import opened Time
  import opened Types
  import opened Pools
  import opened Tiling
  import opened Batch
  import Jobs

  /** Length of the longest prefix of records older than the cutoff. */
  ghost function OldPrefix(recs: seq<Record>, from: Timeval): (m: nat)
    ensures m <= |recs|
    ensures forall k :: 0 <= k < m ==> Less(recs[k].time, from)
    ensures m < |recs| ==> !Less(recs[m].time, from)
  {
    if recs == [] || !Less(recs[0].time, from) then 0 else 1 + OldPrefix(recs[1..], from)
  }

  /** With nondecreasing times, expiry misses no old record. */
  lemma OldPrefixIsAllOld(recs: seq<Record>, from: Timeval)
    requires forall i, j :: 0 <= i < j < |recs| ==> !Less(recs[j].time, recs[i].time)
    ensures forall k :: 0 <= k < |recs| ==> (Less(recs[k].time, from) <==> k < OldPrefix(recs, from))
  {
    var m := OldPrefix(recs, from);
    forall k | m <= k < |recs|
      ensures !Less(recs[k].time, from)
    {
      if m < k { assert !Less(recs[k].time, recs[m].time); }
    }
  }

  /** The `out` cursor walks over old records and stops at the first young one. */
  method DeleteOld(reqs: Pool<Record>, from: Timeval) returns (num: nat, timers: nat)
    requires reqs.IsRing()
    modifies reqs, reqs.data
    ensures reqs.IsRing() && reqs.inp == old(reqs.inp) && reqs.data == old(reqs.data)
    ensures var recs := Window(old(reqs.data[..]), old(reqs.out), old(reqs.NumRecords()));
            && num == OldPrefix(recs, from) && timers == Off(recs, num)
            && reqs.out == Slot(old(reqs.out), num, reqs.data.Length)
            && reqs.data[..] == Deactivated(old(reqs.data[..]), old(reqs.out), num)
  {
    var size, inp, out0 := reqs.data.Length, reqs.inp, reqs.out;
    ghost var data := reqs.data[..];
    ghost var live := reqs.NumRecords();
    ghost var recs := Window(data, out0, live);
    num, timers := 0, 0;
    while reqs.out != inp
      invariant reqs.data.Length == size && reqs.inp == inp && reqs.data == old(reqs.data)
      invariant num <= live && reqs.out == Slot(out0, num, size)
      invariant timers == Off(recs, num)
      invariant forall k :: 0 <= k < num ==> Less(recs[k].time, from)
      invariant reqs.data[..] == Deactivated(data, out0, num)
      decreases live - num
    {
      var record := reqs.data[reqs.out];
      DeactivatedNext(data, out0, num);
      assert record == recs[num];
      if !Less(record.time, from) {
        break;
      }
      timers := timers + record.timersCnt;
      reqs.data[reqs.out] := record.(active := false);
      num := num + 1;
      reqs.out := if reqs.out + 1 == size then 0 else reqs.out + 1;
    }
  }

  /** Expired records stay in their slots, marked inactive. */
  ghost function Deactivated(data: seq<Record>, p: nat, n: nat): (d: seq<Record>)
    requires p < |data| && n <= |data|
    ensures |d| == |data|
  {
    if n == 0 then data
    else
      var before := Deactivated(data, p, n - 1);
      var s := Slot(p, n - 1, |data|);
      before[s := before[s].(active := false)]
  }

  lemma {:induction false} DeactivatedNext(data: seq<Record>, p: nat, n: nat)
    requires p < |data| && n < |data|
    ensures forall x :: n <= x < |data| ==>
      Deactivated(data, p, n)[Slot(p, x, |data|)] == data[Slot(p, x, |data|)]
  {
    if n > 0 {
      DeactivatedNext(data, p, n - 1);
      forall x | n <= x < |data|
        ensures Slot(p, x, |data|) != Slot(p, n - 1, |data|)
      {
        SlotInjective(p, x, n - 1, |data|);
      }
    }
  }

  /** A timer that shows nothing of what it measured. */
  ghost predicate Blank(t: Timer) {
    t.tags == [] && t.value == ZERO && t.hitCount == 0
  }

  function Cleared(t: Timer): Timer {
    t.(tags := [], value := ZERO, hitCount := 0)
  }

  ghost function ClearRange(w: seq<Timer>, lo: nat, hi: nat): (r: seq<Timer>)
    ensures |r| == |w|
  {
    seq(|w|, x requires 0 <= x < |w| => if lo <= x < hi then Cleared(w[x]) else w[x])
  }

  /** Where the slices of the first records start; all a clear job relies on. */
  ghost predicate StartsAt(recs: seq<Record>, n: nat, q: nat, size: nat)
    requires n <= |recs| && q < size
  {
    Off(recs, n) < size && forall k :: 0 <= k < n ==> StartAt(recs, k, q, size)
  }

  ghost predicate StartAt(recs: seq<Record>, k: nat, q: nat, size: nat)
    requires k < |recs| && q < size
  {
    recs[k].timersCnt > 0 ==> Off(recs, k) < size && recs[k].timersStart == Slot(q, Off(recs, k), size)
  }

  /** The timers at offsets `lo..hi`, cleared. */
  ghost function ClearedPart(w: seq<Timer>, lo: nat, hi: nat): (r: seq<Timer>)
    requires lo <= hi <= |w|
    ensures |r| == hi - lo
  {
    seq(hi - lo, k requires 0 <= k < hi - lo => Cleared(w[lo + k]))
  }

  /** The writes of a clear job whose requests own the timers at offsets `lo..hi`. */
  ghost function ClearWrites(w: seq<Timer>, lo: nat, hi: nat): seq<Jobs.Write<Timer>>
    requires lo <= hi <= |w|
  {
    Jobs.SliceWrites(ClearedPart(w, lo, hi), lo)
  }

  lemma ClearIsWrites(w: seq<Timer>, before: seq<Timer>, lo: nat, hi: nat)
    requires lo <= hi <= |w| && before == ClearRange(w, 0, lo)
    ensures Jobs.InRange(ClearWrites(w, lo, hi), |w|)
    ensures Jobs.Apply(before, ClearWrites(w, lo, hi)) == ClearRange(w, 0, hi)
  {
    Jobs.SliceEffect(before, ClearedPart(w, lo, hi), lo);
  }

  /** Tags held by the timers at offsets `lo..hi`. */
  ghost function TagCount(w: seq<Timer>, lo: nat, hi: nat): nat
    requires lo <= hi <= |w|
  {
    if lo == hi then 0 else TagCount(w, lo, hi - 1) + |w[hi - 1].tags|
  }

  /** The tags of these timers, one after another. */
  ghost function TagsIn(w: seq<Timer>, lo: nat, hi: nat): seq<(nat, string)>
    requires lo <= hi <= |w|
  {
    if lo == hi then [] else TagsIn(w, lo, hi - 1) + w[hi - 1].tags
  }

  lemma {:induction false} TagCountIsTags(w: seq<Timer>, lo: nat, hi: nat)
    requires lo <= hi <= |w|
    ensures TagCount(w, lo, hi) == |TagsIn(w, lo, hi)|
  {
    if lo < hi { TagCountIsTags(w, lo, hi - 1); }
  }

  lemma {:induction false} TagCountSplit(w: seq<Timer>, lo: nat, mid: nat, hi: nat)
    requires lo <= mid <= hi <= |w|
    ensures TagCount(w, lo, hi) == TagCount(w, lo, mid) + TagCount(w, mid, hi)
  {
    if mid < hi { TagCountSplit(w, lo, mid, hi - 1); }
  }

  method ClearTimer(tims: Pool<Timer>, slot: nat, ghost q: nat, ghost lo: nat, ghost x: nat, ghost w: seq<Timer>) returns (tags: nat)
    requires q < tims.data.Length == |w| && lo <= x < |w| && slot == Slot(q, x, |w|)
    requires Rotated(tims.data[..], q) == ClearRange(w, lo, x)
    modifies tims.data
    ensures Rotated(tims.data[..], q) == ClearRange(w, lo, x + 1) && tags == |w[x].tags|
  {
    ghost var d := tims.data[..];
    RotatedAt(d, q);
    tags := |tims.data[slot].tags|;
    tims.data[slot] := Cleared(tims.data[slot]);
    assert tims.data[..] == d[slot := Cleared(d[slot])];
    RotatedWrite(d, q, x, Cleared(d[slot]));
    assert Rotated(d, q)[x] == w[x];
  }

  /** One clear job: blank every timer of `count` expired records, the first of them the
      `k0`-th from `prev`. */
  method ClearJob(reqs: Pool<Record>, tims: Pool<Timer>, prev: nat, k0: nat, count: nat,
                  ghost recs: seq<Record>, ghost q: nat, ghost w: seq<Timer>) returns (tags: nat)
    requires prev < reqs.data.Length && |recs| < reqs.data.Length && q < tims.data.Length == |w|
    requires k0 + count <= |recs| && StartsAt(recs, k0 + count, q, |w|)
    requires recs == Window(reqs.data[..], prev, |recs|) && reqs.data as object != tims.data
    requires Rotated(tims.data[..], q) == ClearRange(w, 0, Off(recs, k0))
    modifies tims.data
    ensures ClearedTo(Rotated(tims.data[..], q), w, recs, k0, k0 + count, tags)
    ensures Jobs.InRange(ClearWrites(w, Off(recs, k0), Off(recs, k0 + count)), |w|)
    ensures Rotated(tims.data[..], q)
            == Jobs.Apply(old(Rotated(tims.data[..], q)), ClearWrites(w, Off(recs, k0), Off(recs, k0 + count)))
  {
    ghost var before := Rotated(tims.data[..], q);
    tags := ClearRecords(reqs, tims, prev, k0, k0 + count, recs, q, w);
    ClearIsWrites(w, before, Off(recs, k0), Off(recs, k0 + count));
  }

  /** The job's walk over the records `k0..end`. */
  method ClearRecords(reqs: Pool<Record>, tims: Pool<Timer>, prev: nat, k0: nat, end: nat,
                      ghost recs: seq<Record>, ghost q: nat, ghost w: seq<Timer>) returns (tags: nat)
    requires prev < reqs.data.Length && |recs| < reqs.data.Length && q < tims.data.Length == |w|
    requires k0 <= end <= |recs| && StartsAt(recs, end, q, |w|)
    requires recs == Window(reqs.data[..], prev, |recs|) && reqs.data as object != tims.data
    requires Rotated(tims.data[..], q) == ClearRange(w, 0, Off(recs, k0))
    modifies tims.data
    ensures ClearedTo(Rotated(tims.data[..], q), w, recs, k0, end, tags)
  {
    var rsize, k := reqs.data.Length, k0;
    tags := 0;
    OffMonotone(recs, k0, end);
    var slot := if prev + k0 >= rsize then prev + k0 - rsize else prev + k0;
    while k < end
      invariant k <= end && slot == Slot(prev, k, rsize) && recs == Window(reqs.data[..], prev, |recs|)
      invariant ClearedTo(Rotated(tims.data[..], q), w, recs, k0, k, tags)
    {
      tags := ClearNth(reqs, tims, slot, prev, k0, k, end, tags, recs, q, w);
      slot := if slot == rsize - 1 then 0 else slot + 1;
      k := k + 1;
    }
  }

  lemma JoinCleared(now: seq<Timer>, w: seq<Timer>, recs: seq<Record>, a: nat, b: nat, tags: nat, more: nat)
    requires a <= |recs| && Off(recs, a) <= |w| && tags == TagCount(w, 0, Off(recs, a))
    requires ClearedTo(now, w, recs, a, b, more)
    ensures ClearedTo(now, w, recs, 0, b, tags + more)
  {
    TagCountSplit(w, 0, Off(recs, a), Off(recs, b));
  }

  /** A clear job that began at record `k0` has come to record `k` and counted `tags` tags. */
  ghost predicate ClearedTo(now: seq<Timer>, w: seq<Timer>, recs: seq<Record>, k0: nat, k: nat, tags: nat) {
    && k0 <= k <= |recs| && Off(recs, k0) <= Off(recs, k) <= |w|
    && now == ClearRange(w, 0, Off(recs, k)) && tags == TagCount(w, Off(recs, k0), Off(recs, k))
  }

  method ClearNth(reqs: Pool<Record>, tims: Pool<Timer>, slot: nat, ghost prev: nat, ghost k0: nat, ghost k: nat, ghost n: nat,
                  tags: nat, ghost recs: seq<Record>, ghost q: nat, ghost w: seq<Timer>) returns (tags': nat)
    requires prev < reqs.data.Length && |recs| < reqs.data.Length && q < tims.data.Length == |w|
    requires k < n <= |recs| && StartsAt(recs, n, q, |w|) && slot == Slot(prev, k, reqs.data.Length)
    requires recs == Window(reqs.data[..], prev, |recs|) && reqs.data as object != tims.data
    requires ClearedTo(Rotated(tims.data[..], q), w, recs, k0, k, tags)
    modifies tims.data
    ensures ClearedTo(Rotated(tims.data[..], q), w, recs, k0, k + 1, tags')
  {
    var record := reqs.data[slot];
    assert record == recs[k];
    assert StartAt(recs, k, q, |w|);
    OffMonotone(recs, k + 1, n);
    var more := ClearRecord(tims, record, q, Off(recs, k), w);
    TagCountSplit(w, Off(recs, k0), Off(recs, k), Off(recs, k + 1));
    tags' := tags + more;
  }

  method ClearRecord(tims: Pool<Timer>, record: Record, ghost q: nat, ghost o: nat, ghost w: seq<Timer>) returns (tags: nat)
    requires q < tims.data.Length == |w| && o + record.timersCnt < |w|
    requires record.timersCnt > 0 ==> record.timersStart == Slot(q, o, |w|)
    requires Rotated(tims.data[..], q) == ClearRange(w, 0, o)
    modifies tims.data
    ensures Rotated(tims.data[..], q) == ClearRange(w, 0, o + record.timersCnt)
    ensures tags == TagCount(w, o, o + record.timersCnt)
  {
    var size := tims.data.Length;
    tags := 0;
    for j := 0 to record.timersCnt
      invariant Rotated(tims.data[..], q) == ClearRange(w, 0, o + j) && tags == TagCount(w, o, o + j)
    {
      var at := record.timersStart + j;
      SlotCompose(q, o, j, size);
      var more := ClearTimer(tims, if at >= size then at - size else at, q, 0, o + j, w);
      tags := tags + more;
    }
  }

  const THRESHOLD := 16

  /** Consecutive jobs, each given by its first record and its length, covering `num` records. */
  ghost predicate Covers(jobs: seq<(nat, nat)>, num: nat) {
    if jobs == [] then num == 0
    else
      var last := jobs[|jobs| - 1];
      last.0 + last.1 == num && Covers(jobs[..|jobs| - 1], last.0)
  }

  /** Jobs that cover a range without overlap: every record falls into exactly one. */
  lemma {:induction false} ExactlyOneJob(jobs: seq<(nat, nat)>, num: nat, k: nat)
    requires Covers(jobs, num) && k < num
    ensures exists i :: 0 <= i < |jobs| && jobs[i].0 <= k < jobs[i].0 + jobs[i].1
    ensures forall i, j :: (0 <= i < |jobs| && 0 <= j < |jobs|
                            && jobs[i].0 <= k < jobs[i].0 + jobs[i].1
                            && jobs[j].0 <= k < jobs[j].0 + jobs[j].1) ==> i == j
  {
    var n := |jobs| - 1;
    var last := jobs[n];
    forall i | 0 <= i < n
      ensures jobs[i].0 + jobs[i].1 <= last.0
    {
      CoversBound(jobs[..n], last.0, i);
    }
    if k < last.0 {
      ExactlyOneJob(jobs[..n], last.0, k);
      var i :| 0 <= i < n && jobs[..n][i].0 <= k < jobs[..n][i].0 + jobs[..n][i].1;
      assert jobs[i] == jobs[..n][i];
      forall i, j | 0 <= i < |jobs| && 0 <= j < |jobs|
        && jobs[i].0 <= k < jobs[i].0 + jobs[i].1 && jobs[j].0 <= k < jobs[j].0 + jobs[j].1
        ensures i == j
      {
        assert i < n && j < n;
        assert jobs[i] == jobs[..n][i] && jobs[j] == jobs[..n][j];
      }
    }
  }

  lemma {:induction false} CoversBound(jobs: seq<(nat, nat)>, num: nat, i: nat)
    requires Covers(jobs, num) && i < |jobs|
    ensures jobs[i].0 + jobs[i].1 <= num
  {
    var n := |jobs| - 1;
    if i < n {
      CoversBound(jobs[..n], jobs[n].0, i);
      assert jobs[i] == jobs[..n][i];
    }
  }

  lemma EqualShares(num: nat, threads: nat, i: nat)
    requires threads > 0 && i < threads
    ensures i * (num / threads) + num / threads <= num
  {
    var share := num / threads;
    assert num == threads * share + num % threads;
    MulMonotone(i + 1, threads, share);
  }

  lemma {:induction false} MulMonotone(a: nat, b: nat, c: nat)
    requires a <= b
    ensures a * c <= b * c
  {
    if a < b {
      MulMonotone(a, b - 1, c);
      assert b * c == (b - 1) * c + c;
    }
  }

  /** Equal shares do not use up the records before the last thread. */
  lemma SharesLeft(num: nat, threads: nat, i: nat)
    requires threads > 0 && i + 1 < threads && num >= threads * THRESHOLD
    ensures i * (num / threads) + num / threads == (i + 1) * (num / threads) < num
  {
    EqualShares(num, threads, i + 1);
    assert num / threads > 0;
  }

  /** Share the expired records out: one job when there are few, else equal shares with the
      remainder going to the last thread. */
  method ShareOut(num: nat, threads: nat) returns (jobs: seq<(nat, nat)>)
    requires num > 0 && threads > 0
    ensures Covers(jobs, num) && 0 < |jobs| <= threads
    ensures num < threads * THRESHOLD ==> jobs == [(0, num)]
    ensures num >= threads * THRESHOLD ==>
              |jobs| == threads && forall j :: 0 <= j < threads - 1 ==> jobs[j].1 == num / threads
  {
    var few := num < threads * THRESHOLD;
    var size := if few then num else num / threads;
    jobs := [];
    var accounted: nat, i: nat := 0, 0;
    while i < threads && accounted != num
      invariant i == |jobs| <= threads && Covers(jobs, accounted) && accounted <= num
      invariant accounted == num ==> 0 < i && (few ==> jobs == [(0, num)]) && (!few ==> i == threads)
      invariant accounted != num ==> i < threads && accounted == (if few then 0 else i * (num / threads)) && (few ==> i == 0)
      invariant !few ==> forall j :: 0 <= j < i && j < threads - 1 ==> jobs[j].1 == num / threads
      decreases threads - i
    {
      if !few && i < threads - 1 { SharesLeft(num, threads, i); }
      var share := if i == threads - 1 then num - accounted else size;
      jobs := Extend(jobs, accounted, share);
      accounted := accounted + share;
      i := i + 1;
    }
  }

  method Extend(jobs: seq<(nat, nat)>, at: nat, share: nat) returns (jobs': seq<(nat, nat)>)
    requires Covers(jobs, at)
    ensures jobs' == jobs + [(at, share)] && Covers(jobs', at + share)
  {
    jobs' := jobs + [(at, share)];
    assert jobs'[..|jobs|] == jobs;
  }

  /** All clear jobs: the slices of the first `num` records are blanked, nothing else. */
  method ClearAll(reqs: Pool<Record>, tims: Pool<Timer>, prev: nat, num: nat, threads: nat,
                  ghost recs: seq<Record>, ghost q: nat) returns (tags: nat)
    requires prev < reqs.data.Length && |recs| < reqs.data.Length && q < tims.data.Length
    requires 0 < num <= |recs| && threads > 0 && StartsAt(recs, num, q, tims.data.Length)
    requires recs == Window(reqs.data[..], prev, |recs|) && reqs.data as object != tims.data
    modifies tims.data
    ensures Rotated(tims.data[..], q) == ClearRange(old(Rotated(tims.data[..], q)), 0, Off(recs, num))
    ensures Off(recs, num) <= tims.data.Length && tags == TagCount(old(Rotated(tims.data[..], q)), 0, Off(recs, num))
    ensures forall x :: 0 <= x < Off(recs, num) ==> Blank(Rotated(tims.data[..], q)[x])
  {
    var jobs := ShareOut(num, threads);
    tags := ClearShares(reqs, tims, prev, num, jobs, recs, q);
  }

  /** The clear jobs, one after another. */
  method ClearShares(reqs: Pool<Record>, tims: Pool<Timer>, prev: nat, ghost num: nat, jobs: seq<(nat, nat)>,
                     ghost recs: seq<Record>, ghost q: nat) returns (tags: nat)
    requires prev < reqs.data.Length && |recs| < reqs.data.Length && q < tims.data.Length
    requires num <= |recs| && Covers(jobs, num) && StartsAt(recs, num, q, tims.data.Length)
    requires recs == Window(reqs.data[..], prev, |recs|) && reqs.data as object != tims.data
    modifies tims.data
    ensures ClearedTo(Rotated(tims.data[..], q), old(Rotated(tims.data[..], q)), recs, 0, num, tags)
  {
    tags := 0;
    ghost var w := Rotated(tims.data[..], q);
    var done: nat := 0;
    for i := 0 to |jobs|
      invariant Covers(jobs[..i], done) && done <= num
      invariant recs == Window(reqs.data[..], prev, |recs|)
      invariant ClearedTo(Rotated(tims.data[..], q), w, recs, 0, done, tags)
    {
      NextJob(jobs, num, i, done);
      tags := ClearShare(reqs, tims, prev, done, jobs[i].1, num, tags, recs, q, w);
      done := done + jobs[i].1;
    }
    assert jobs[..|jobs|] == jobs;
  }

  /** One clear job after the jobs before it, with its tags added to theirs. */
  method ClearShare(reqs: Pool<Record>, tims: Pool<Timer>, prev: nat, done: nat, count: nat, ghost num: nat, tags: nat,
                    ghost recs: seq<Record>, ghost q: nat, ghost w: seq<Timer>) returns (tags': nat)
    requires prev < reqs.data.Length && |recs| < reqs.data.Length && q < tims.data.Length == |w|
    requires done + count <= num <= |recs| && StartsAt(recs, num, q, |w|)
    requires recs == Window(reqs.data[..], prev, |recs|) && reqs.data as object != tims.data
    requires ClearedTo(Rotated(tims.data[..], q), w, recs, 0, done, tags)
    modifies tims.data
    ensures ClearedTo(Rotated(tims.data[..], q), w, recs, 0, done + count, tags')
  {
    StartsBelow(recs, done + count, num, q, |w|);
    var more := ClearJob(reqs, tims, prev, done, count, recs, q, w);
    JoinCleared(Rotated(tims.data[..], q), w, recs, done, done + count, tags, more);
    tags' := tags + more;
  }

  lemma StartsBelow(recs: seq<Record>, m: nat, n: nat, q: nat, size: nat)
    requires m <= n <= |recs| && q < size && StartsAt(recs, n, q, size)
    ensures StartsAt(recs, m, q, size)
  {
    OffMonotone(recs, m, n);
  }

  lemma {:induction false} CoversPrefix(jobs: seq<(nat, nat)>, num: nat, i: nat)
    requires Covers(jobs, num) && i < |jobs|
    ensures Covers(jobs[..i + 1], jobs[i].0 + jobs[i].1) && Covers(jobs[..i], jobs[i].0)
    ensures jobs[i].0 + jobs[i].1 <= num
  {
    var n := |jobs| - 1;
    if i == n {
      assert jobs[..i + 1] == jobs;
    } else {
      CoversPrefix(jobs[..n], jobs[n].0, i);
      assert jobs[..n][..i + 1] == jobs[..i + 1] && jobs[..n][..i] == jobs[..i];
    }
  }

  lemma CoversUnique(jobs: seq<(nat, nat)>, a: nat, b: nat)
    requires Covers(jobs, a) && Covers(jobs, b)
    ensures a == b
  {
  }

  lemma NextJob(jobs: seq<(nat, nat)>, num: nat, i: nat, done: nat)
    requires Covers(jobs, num) && i < |jobs| && Covers(jobs[..i], done)
    ensures jobs[i].0 == done && done + jobs[i].1 <= num && Covers(jobs[..i + 1], done + jobs[i].1)
  {
    CoversPrefix(jobs, num, i);
    CoversUnique(jobs[..i], done, jobs[i].0);
  }

  /** The rings after the first `m` requests expired and their timers were given back. */
  ghost predicate Shrunk(r: Rings, r': Rings, m: nat) {
    && Shape(r) && m <= r.live && Off(Live(r), m) <= Total(r)
    && |r'.reqs| == |r.reqs| && r'.rout == ReqSlot(r, m) && r'.live == r.live - m
    && |r'.tims| == |r.tims| && r'.tout == Slot(r.tout, Off(Live(r), m), |r.tims|)
    && (forall k :: m <= k < r.live ==> r'.reqs[ReqSlot(r, k)] == r.reqs[ReqSlot(r, k)])
    && (forall x :: Off(Live(r), m) <= x < Total(r) ==>
          r'.tims[Slot(r.tout, x, |r.tims|)] == r.tims[Slot(r.tout, x, |r.tims|)])
  }

  /** The survivors are where they were, counted from the new `out`. */
  lemma SurvivorAt(r: Rings, r': Rings, m: nat, i: nat)
    requires Shrunk(r, r', m) && i < r'.live
    ensures ReqSlot(r', i) == ReqSlot(r, m + i) && Live(r')[i] == Live(r)[m + i]
  {
    SlotCompose(r.rout, m, i, |r.reqs|);
    assert r'.reqs[ReqSlot(r, m + i)] == r.reqs[ReqSlot(r, m + i)];
  }

  lemma ShrunkOff(r: Rings, r': Rings, m: nat, i: nat)
    requires Shrunk(r, r', m) && i <= r'.live
    ensures Off(Live(r'), i) == Off(Live(r), m + i) - Off(Live(r), m)
  {
    forall j | 0 <= j < i
      ensures Live(r')[j] == Live(r)[m..][j]
    {
      SurvivorAt(r, r', m, j);
    }
    OffSame(Live(r'), Live(r)[m..], i);
    OffDrop(Live(r), m, i);
  }

  lemma SurvivorSlice(r: Rings, r': Rings, m: nat, o: nat, rec: Record)
    requires Shrunk(r, r', m) && Off(Live(r), m) <= o && o + rec.timersCnt <= Total(r)
    requires rec.timersCnt > 0 ==> rec.timersStart == Slot(r.tout, o, |r.tims|)
    ensures SliceOf(r'.tims, rec) == SliceOf(r.tims, rec)
  {
    forall j | 0 <= j < rec.timersCnt
      ensures SliceOf(r'.tims, rec)[j] == SliceOf(r.tims, rec)[j]
    {
      SlotCompose(r.tout, o, j, |r.tims|);
      assert r'.tims[Slot(r.tout, o + j, |r.tims|)] == r.tims[Slot(r.tout, o + j, |r.tims|)];
    }
  }

  lemma SurvivorPlaced(r: Rings, r': Rings, m: nat, i: nat)
    requires Tiled(r) && Shrunk(r, r', m) && i < r'.live && Shape(r')
    ensures Placed(r', i) && View(r')[i] == View(r)[m + i]
  {
    SurvivorAt(r, r', m, i);
    var k := m + i;
    assert Placed(r, k);
    if Live(r)[k].timersCnt > 0 {
      OffMonotone(Live(r), k + 1, r.live);
      OffMonotone(Live(r), m, k);
      var o := Off(Live(r), k);
      SurvivorSlice(r, r', m, o, Live(r)[k]);
      ShrunkOff(r, r', m, i);
      SlotCompose(r.tout, Off(Live(r), m), o - Off(Live(r), m), |r.tims|);
    }
  }

  /** Expiry drops exactly the expired requests from what readers see. */
  lemma ExpiryKeepsTiling(r: Rings, r': Rings, m: nat)
    requires Tiled(r) && Shrunk(r, r', m)
    ensures Tiled(r') && View(r') == View(r)[m..]
  {
    ShrunkOff(r, r', m, r'.live);
    assert Shape(r');
    forall i | 0 <= i < r'.live
      ensures Placed(r', i) && View(r')[i] == View(r)[m + i]
    {
      SurvivorPlaced(r, r', m, i);
    }
  }
}
