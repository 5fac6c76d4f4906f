/** Checking a decoded request before anything indexes its flattened arrays, and unpacking
    the timers of one that passed. */
module Validation {
  import opened Time
  import opened Types
  import opened Batch
  import Engine
  import BaseReport
  import Histogram
  import TagTotals

  const USHRT_MAX := 0xFFFF
  const INT_MAX := 0x7FFF_FFFF
  const UINT_MAX := 0xFFFF_FFFF

  /** The repeated fields of a decoded request. Timer `i` owns the next `tagCounts[i]` entries
      of the two flattened tag arrays; every tag name and value is a dictionary index. */
  datatype Request = Request(
    hits: seq<nat>, values: seq<real>, tagCounts: seq<nat>,
    flatNames: seq<nat>, flatValues: seq<nat>,
    ruUtime: seq<real>, ruStime: seq<real>,
    tagNames: seq<nat>, tagValues: seq<nat>,
    dictionary: seq<string>)

  datatype Error = NoError | TimerArrays | FlattenedTags | DictionaryIndex | RepresentationLimit

  /** Flattened tags owned by the first `i` timers. */
  ghost function TagSum(r: Request, i: nat): nat
    requires i <= |r.tagCounts|
  {
    if i == 0 then 0 else TagSum(r, i - 1) + r.tagCounts[i - 1]
  }

  lemma {:induction false} TagSumMonotone(r: Request, i: nat, j: nat)
    requires i <= j <= |r.tagCounts|
    ensures TagSum(r, i) <= TagSum(r, j)
  {
    if i < j { TagSumMonotone(r, i, j - 1); }
  }

  // What a usable request looks like, with no order of checking.

  ghost predicate Parallel(r: Request) {
    |r.hits| == |r.values| == |r.tagCounts| && |r.tagNames| == |r.tagValues|
  }

  ghost predicate Representable(r: Request, i: nat)
    requires Parallel(r) && i < |r.hits|
  {
    r.tagCounts[i] <= USHRT_MAX && r.hits[i] <= INT_MAX
  }

  ghost predicate InDictionary(xs: seq<nat>, r: Request) {
    forall i :: 0 <= i < |xs| ==> xs[i] < |r.dictionary|
  }

  ghost predicate WellFormed(r: Request) {
    && Parallel(r)
    && |r.hits| <= USHRT_MAX && |r.tagNames| <= UINT_MAX
    && (forall i :: 0 <= i < |r.hits| ==> Representable(r, i))
    && |r.flatNames| == |r.flatValues| == TagSum(r, |r.hits|)
    && InDictionary(r.flatNames, r) && InDictionary(r.flatValues, r)
    && InDictionary(r.tagNames, r) && InDictionary(r.tagValues, r)
    && (r.hits != [] ==> r.dictionary != [])
  }

  // Which of several faults is reported: headers first, then timers in order.

  ghost predicate Oversized(r: Request) {
    |r.hits| > USHRT_MAX || |r.tagNames| > UINT_MAX
  }

  ghost predicate NoDictionary(r: Request) {
    r.dictionary == [] && (r.hits != [] || r.tagNames != [])
  }

  ghost predicate Fits(r: Request, i: nat)
    requires Parallel(r) && i < |r.hits|
  {
    Representable(r, i) && TagSum(r, i + 1) <= |r.flatNames|
  }

  ghost predicate FirstBadTimer(r: Request, i: nat) {
    Parallel(r) && i < |r.hits| && !Fits(r, i) && forall j :: 0 <= j < i ==> Fits(r, j)
  }

  ghost predicate HeaderFine(r: Request) {
    Parallel(r) && !Oversized(r) && |r.flatNames| == |r.flatValues| && !NoDictionary(r)
  }

  ghost predicate LimitBroken(r: Request) {
    && Parallel(r)
    && (Oversized(r) || (HeaderFine(r) && exists i :: FirstBadTimer(r, i) && !Representable(r, i)))
  }

  ghost predicate TagsBroken(r: Request) {
    && Parallel(r) && !Oversized(r)
    && (|r.flatNames| != |r.flatValues|
        || (HeaderFine(r) && exists i :: FirstBadTimer(r, i) && Representable(r, i))
        || (HeaderFine(r) && (forall i :: 0 <= i < |r.hits| ==> Fits(r, i)) && TagSum(r, |r.hits|) != |r.flatNames|))
  }

  /** The verdict as a classification of the whole request. */
  ghost predicate Verdict(r: Request, e: Error) {
    && (e == NoError <==> WellFormed(r))
    && (e == TimerArrays <==> !Parallel(r))
    && (e == RepresentationLimit <==> LimitBroken(r))
    && (e == FlattenedTags <==> TagsBroken(r))
  }

  /** A request has at most one first bad timer, and with one it is not well formed. */
  lemma BadTimerSpoils(r: Request, i: nat)
    requires FirstBadTimer(r, i) && HeaderFine(r)
    ensures !WellFormed(r)
    ensures Representable(r, i) ==> TagsBroken(r) && !LimitBroken(r)
    ensures !Representable(r, i) ==> LimitBroken(r) && !TagsBroken(r)
  {
    TagSumMonotone(r, i + 1, |r.hits|);
    forall k: nat | k != i ensures !FirstBadTimer(r, k) {
      assert k < i ==> Fits(r, k);
    }
  }

  lemma GoodTimers(r: Request)
    requires HeaderFine(r) && forall i :: 0 <= i < |r.hits| ==> Fits(r, i)
    ensures !LimitBroken(r)
    ensures TagsBroken(r) <==> TagSum(r, |r.hits|) != |r.flatNames|
    ensures forall i :: 0 <= i < |r.hits| ==> Representable(r, i)
  {
    forall i: nat ensures !FirstBadTimer(r, i) {
      assert i < |r.hits| ==> Fits(r, i);
    }
    forall i | 0 <= i < |r.hits| ensures Representable(r, i) {
      assert Fits(r, i);
    }
  }

  /** The timer scan; `bad` is the fault it stops at. */
  method ScanTimers(r: Request) returns (bad: Error, total: nat)
    requires HeaderFine(r)
    ensures bad == NoError ==> total == TagSum(r, |r.hits|) <= |r.flatNames| && forall i :: 0 <= i < |r.hits| ==> Fits(r, i)
    ensures bad != NoError ==> exists i :: FirstBadTimer(r, i) && bad == if Representable(r, i) then FlattenedTags else RepresentationLimit
  {
    total := 0;
    for i := 0 to |r.hits|
      invariant total == TagSum(r, i) <= |r.flatNames|
      invariant forall j :: 0 <= j < i ==> Fits(r, j)
    {
      var tags := r.tagCounts[i];
      if tags > USHRT_MAX || r.hits[i] > INT_MAX {
        assert FirstBadTimer(r, i);
        return RepresentationLimit, total;
      }
      if tags > |r.flatNames| - total {
        assert FirstBadTimer(r, i);
        return FlattenedTags, total;
      }
      total := total + tags;
    }
    bad := NoError;
  }

  /** Do two parallel arrays hold nothing but dictionary indices? */
  method ScanIndices(names: seq<nat>, values: seq<nat>, r: Request) returns (ok: bool)
    requires |names| == |values|
    ensures ok <==> InDictionary(names, r) && InDictionary(values, r)
  {
    for i := 0 to |names|
      invariant forall j :: 0 <= j < i ==> names[j] < |r.dictionary| && values[j] < |r.dictionary|
    {
      if names[i] >= |r.dictionary| || values[i] >= |r.dictionary| {
        return false;
      }
    }
    ok := true;
  }

  method Validate(r: Request) returns (e: Error)
    ensures Verdict(r, e)
  {
    if |r.hits| != |r.values| || |r.hits| != |r.tagCounts| || |r.tagNames| != |r.tagValues| {
      return TimerArrays;
    }
    if |r.hits| > USHRT_MAX || |r.tagNames| > UINT_MAX {
      return RepresentationLimit;
    }
    if |r.flatNames| != |r.flatValues| {
      return FlattenedTags;
    }
    if |r.dictionary| == 0 && (|r.hits| != 0 || |r.tagNames| != 0) {
      NoDictionarySpoils(r);
      return DictionaryIndex;
    }
    var bad, total := ScanTimers(r);
    if bad != NoError {
      ghost var i :| FirstBadTimer(r, i) && bad == if Representable(r, i) then FlattenedTags else RepresentationLimit;
      BadTimerSpoils(r, i);
      return bad;
    }
    GoodTimers(r);
    if total != |r.flatNames| {
      return FlattenedTags;
    }
    var flat := ScanIndices(r.flatNames, r.flatValues, r);
    if !flat {
      return DictionaryIndex;
    }
    var tags := ScanIndices(r.tagNames, r.tagValues, r);
    if !tags {
      return DictionaryIndex;
    }
    e := NoError;
  }

  lemma NoDictionarySpoils(r: Request)
    requires Parallel(r) && NoDictionary(r)
    ensures !WellFormed(r)
  {
    assert r.tagNames != [] ==> r.tagNames[0] >= |r.dictionary|;
  }

  // Which timers are worth storing, and what they say.

  function Kept(r: Request, i: nat): bool
    requires i < |r.hits| && i < |r.tagCounts|
  {
    r.hits[i] != 0 && r.tagCounts[i] != 0
  }

  /** Timers worth storing among the first `n`. */
  ghost function Rank(r: Request, n: nat): (k: nat)
    requires n <= |r.hits| && n <= |r.tagCounts|
    ensures k <= n
  {
    if n == 0 then 0 else Rank(r, n - 1) + if Kept(r, n - 1) then 1 else 0
  }

  method StoredTimerCount(r: Request) returns (count: nat)
    requires |r.hits| == |r.tagCounts|
    ensures count == Rank(r, |r.hits|)
  {
    count := 0;
    for i := 0 to |r.hits|
      invariant count == Rank(r, i)
    {
      count := count + if r.hits[i] != 0 && r.tagCounts[i] != 0 then 1 else 0;
    }
  }

  /** In a well-formed request every slice of flattened tags, and every index found in one,
      stays in bounds. */
  lemma IndicesInBounds(r: Request, i: nat, j: nat)
    requires WellFormed(r) && i < |r.hits| && j < r.tagCounts[i]
    ensures TagSum(r, i) + j < |r.flatNames| == |r.flatValues|
    ensures r.flatNames[TagSum(r, i) + j] < |r.dictionary|
    ensures r.flatValues[TagSum(r, i) + j] < |r.dictionary|
  {
    TagSumMonotone(r, i + 1, |r.hits|);
  }

  /** Seconds as the engine keeps them; a duration out of range counts as none. */
  function Seconds(v: real): (t: Timeval)
    ensures Normal(t) && 0 <= Micros(t) <= INT_MAX * MILLION && 0 <= t.sec
    ensures 0.0 <= v <= INT_MAX as real ==>
              Micros(t) as real <= v * 1000000.0 < Micros(t) as real + 1.0
  {
    var x := if 0.0 <= v <= INT_MAX as real then v else 0.0;
    var whole := x.Floor;
    var u := (x - whole as real) * 1000000.0;
    Timeval(whole, u.Floor)
  }

  function Nth(xs: seq<real>, i: nat): real {
    if i < |xs| then xs[i] else 0.0
  }

  /** Tag `j` of timer `i`: the words of its name and its value. */
  ghost function TagOf(r: Request, i: nat, j: nat): (string, string)
    requires WellFormed(r) && i < |r.hits| && j < r.tagCounts[i]
  {
    IndicesInBounds(r, i, j);
    (r.dictionary[r.flatNames[TagSum(r, i) + j]], r.dictionary[r.flatValues[TagSum(r, i) + j]])
  }

  /** The first `j` tags of timer `i` whose names have a descriptor. */
  ghost function TagsOf(r: Request, i: nat, j: nat, ids: map<string, nat>): (ts: seq<(nat, string)>)
    requires WellFormed(r) && i < |r.hits| && j <= r.tagCounts[i]
    ensures |ts| <= j
  {
    if j == 0 then []
    else
      var (name, value) := TagOf(r, i, j - 1);
      TagsOf(r, i, j - 1, ids) + if name in ids then [(ids[name], value)] else []
  }

  /** Every name of the request has a descriptor: no tag allocation failed. */
  ghost predicate Described(r: Request, ids: map<string, nat>) {
    forall i :: 0 <= i < |r.dictionary| ==> r.dictionary[i] in ids
  }

  /** With all descriptors at hand a timer carries its own slice of tags, name by name. */
  lemma {:induction false} TagsComplete(r: Request, i: nat, j: nat, ids: map<string, nat>)
    requires WellFormed(r) && i < |r.hits| && j <= r.tagCounts[i] && Described(r, ids)
    ensures |TagsOf(r, i, j, ids)| == j
    ensures forall k :: 0 <= k < j ==> TagOf(r, i, k).0 in ids
                                       && TagsOf(r, i, j, ids)[k] == (ids[TagOf(r, i, k).0], TagOf(r, i, k).1)
  {
    if j > 0 {
      TagsComplete(r, i, j - 1, ids);
      IndicesInBounds(r, i, j - 1);
    }
  }

  /** What timer `i` is stored as; `full` are the timers whose tag arrays found no memory. */
  ghost function TimerOf(r: Request, i: nat, id: nat, ids: map<string, nat>, full: set<nat>): Timer
    requires WellFormed(r) && i < |r.hits|
  {
    Timer(id, if i in full then [] else TagsOf(r, i, r.tagCounts[i], ids),
          Seconds(r.values[i]), Seconds(Nth(r.ruUtime, i)), Seconds(Nth(r.ruStime, i)), r.hits[i])
  }

  /** `ts` holds exactly the timers worth storing among the first `n`, in order. */
  ghost predicate Unpacked(r: Request, n: nat, id: nat, ids: map<string, nat>, full: set<nat>, ts: seq<Timer>)
    requires WellFormed(r) && n <= |r.hits|
  {
    && |ts| == Rank(r, n)
    && forall i :: 0 <= i < n && Kept(r, i) ==> StoredAt(r, i, id, ids, full, ts)
  }

  ghost predicate StoredAt(r: Request, i: nat, id: nat, ids: map<string, nat>, full: set<nat>, ts: seq<Timer>)
    requires WellFormed(r) && i < |r.hits|
  {
    Rank(r, i) < |ts| && ts[Rank(r, i)] == TimerOf(r, i, id, ids, full)
  }

  /** Tags of the timers worth storing, among the first `n`. */
  ghost function TagsDue(r: Request, n: nat): nat
    requires n <= |r.hits| && n <= |r.tagCounts|
  {
    if n == 0 then 0 else TagsDue(r, n - 1) + if Kept(r, n - 1) then r.tagCounts[n - 1] else 0
  }

  ghost function TagsHeld(ts: seq<Timer>, n: nat): nat
    requires n <= |ts|
  {
    if n == 0 then 0 else TagsHeld(ts, n - 1) + |ts[n - 1].tags|
  }

  lemma {:induction false} TagsHeldPrefix(ts: seq<Timer>, us: seq<Timer>, n: nat)
    requires n <= |ts| && ts <= us
    ensures TagsHeld(ts, n) == TagsHeld(us, n)
  {
    if n > 0 { TagsHeldPrefix(ts, us, n - 1); }
  }

  /** Resolve the tags of timer `i`, whose slice begins at `start`. */
  method ResolveTags(r: Request, i: nat, start: nat, ids: map<string, nat>) returns (tags: seq<(nat, string)>, dropped: nat)
    requires WellFormed(r) && i < |r.hits| && start == TagSum(r, i)
    ensures tags == TagsOf(r, i, r.tagCounts[i], ids)
    ensures |tags| + dropped == r.tagCounts[i]
  {
    tags, dropped := [], 0;
    for j := 0 to r.tagCounts[i]
      invariant tags == TagsOf(r, i, j, ids) && |tags| + dropped == j
    {
      IndicesInBounds(r, i, j);
      var value, name := r.dictionary[r.flatValues[start + j]], r.dictionary[r.flatNames[start + j]];
      if name in ids {
        tags := tags + [(ids[name], value)];
      } else {
        dropped := dropped + 1;
      }
    }
  }

  /** Unpack the timers of a request in slot `id`. The tag cursor moves past skipped timers
      too, so each stored timer reads its own slice; a timer that could not get memory for
      its tags is stored without any; every tag due is stored or counted as dropped. */
  method AddTimers(r: Request, id: nat, ids: map<string, nat>, full: set<nat>)
    returns (ts: seq<Timer>, tagCount: nat, dropped: nat)
    requires WellFormed(r)
    ensures Unpacked(r, |r.hits|, id, ids, full, ts)
    ensures tagCount == TagsHeld(ts, |ts|) && tagCount + dropped == TagsDue(r, |r.hits|)
  {
    ts, tagCount, dropped := [], 0, 0;
    var tt := 0;
    for i := 0 to |r.hits|
      invariant tt == TagSum(r, i)
      invariant Unpacked(r, i, id, ids, full, ts)
      invariant tagCount == TagsHeld(ts, |ts|) && tagCount + dropped == TagsDue(r, i)
    {
      var start := tt;
      tt := tt + r.tagCounts[i];
      if r.hits[i] == 0 || r.tagCounts[i] == 0 {
        UnpackSkip(r, i, id, ids, full, ts);
        continue;
      }
      var tags, lost := [], r.tagCounts[i];
      if i !in full {
        tags, lost := ResolveTags(r, i, start, ids);
      }
      var timer := Timer(id, tags, Seconds(r.values[i]), Seconds(Nth(r.ruUtime, i)), Seconds(Nth(r.ruStime, i)), r.hits[i]);
      UnpackNext(r, i, id, ids, full, ts);
      TagsHeldPrefix(ts, ts + [timer], |ts|);
      ts, tagCount, dropped := ts + [timer], tagCount + |tags|, dropped + lost;
    }
  }

  lemma UnpackSkip(r: Request, i: nat, id: nat, ids: map<string, nat>, full: set<nat>, ts: seq<Timer>)
    requires WellFormed(r) && i < |r.hits| && !Kept(r, i) && Unpacked(r, i, id, ids, full, ts)
    ensures Unpacked(r, i + 1, id, ids, full, ts)
  {
  }

  lemma UnpackNext(r: Request, i: nat, id: nat, ids: map<string, nat>, full: set<nat>, ts: seq<Timer>)
    requires WellFormed(r) && i < |r.hits| && Kept(r, i) && Unpacked(r, i, id, ids, full, ts)
    ensures Unpacked(r, i + 1, id, ids, full, ts + [TimerOf(r, i, id, ids, full)])
  {
    var us := ts + [TimerOf(r, i, id, ids, full)];
    forall k | 0 <= k < i + 1 && Kept(r, k)
      ensures StoredAt(r, k, id, ids, full, us)
    {
      assert k < i ==> StoredAt(r, k, id, ids, full, ts);
    }
  }

  /** Every stored timer is one of the request's. */
  lemma {:induction false} RankOnto(r: Request, n: nat, k: nat) returns (i: nat)
    requires n <= |r.hits| && n <= |r.tagCounts| && k < Rank(r, n)
    ensures i < n && Kept(r, i) && Rank(r, i) == k
  {
    if Kept(r, n - 1) && k == Rank(r, n - 1) {
      i := n - 1;
    } else {
      i := RankOnto(r, n - 1, k);
    }
  }

  /** When no tag allocation fails, a validated request yields timers the window may admit:
      each is used, tagged, labelled with the request's slot, and carries times in range. */
  lemma ValidatedIsAdmissible(r: Request, s: Staged, id: nat, ids: map<string, nat>)
    requires WellFormed(r) && Described(r, ids)
    requires s.listed == |r.hits| && Unpacked(r, |r.hits|, id, ids, {}, s.timers)
    ensures Engine.GoodStaged(s)
    ensures forall k :: 0 <= k < |s.timers| ==> s.timers[k].requestId == id && TagTotals.GoodTimer(s.timers[k])
  {
    forall k | 0 <= k < |s.timers|
      ensures s.timers[k].hitCount > 0 && s.timers[k].tags != [] && s.timers[k].requestId == id
      ensures TagTotals.GoodTimer(s.timers[k])
    {
      var i := RankOnto(r, |r.hits|, k);
      assert StoredAt(r, i, id, ids, {}, s.timers);
      TagsComplete(r, i, r.tagCounts[i], ids);
      SecondsTracked(r.values[i]);
    }
  }

  /** A duration that is out of range counts as none, so every stored one has its bucket. */
  lemma SecondsTracked(v: real)
    ensures Histogram.Tracked(BaseReport.Seconds(Seconds(v)))
  {
    var t := Seconds(v);
    assert BaseReport.Seconds(t) == Micros(t) as real / 1000000.0;
  }
}
