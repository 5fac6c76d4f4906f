/** Runs in which a base report takes its start from a batch of which nothing was admitted, and
    goes wrong: one for each of the two ways in which that happens. */
module StaleStart {
  import opened Ring
  import opened Time
  import opened Types
  import opened Histogram
  import opened Pools
  import opened Batch
  import opened Commit
  import opened Append
  import opened Admission
  import opened Engine
  import opened BaseReport
  import opened Stamps
  import opened BaseReportObject
  import Jobs
  import Merge

  function Request(second: nat, data: Payload, copyOk: bool): Staged {
    Staged(Timeval(second, 0), data, copyOk, 0, [])
  }

  lemma OneJob(s: Staged, room: nat)
    requires room > 0
    ensures Jobs.Concat([[s]]) == [s] && Taken([s], room) == [s]
    ensures Accepted([s]) == (if s.copyOk then [s] else []) && Merge.JobTimers([s], 1) == if s.copyOk then |s.timers| else 0
  {
    assert [[s]][1..] == [];
    assert Accepted([s]) == AcceptedTo([s], 0) + if s.copyOk then [s] else [];
  }

  lemma OneEntry(s: Staged, stored: bool, p: nat, size: nat, base: nat)
    requires s.copyOk && p < size
    ensures Kept([s], stored) == [if stored then s else s.(listed := 0, timers := [])]
    ensures NewEntries(Kept([s], stored), p, size, base) == [NewEntry(Kept([s], stored)[0], p, base)]
  {
    OneJob(s, 1);
    var e := NewEntries(Kept([s], stored), p, size, base)[0];
    assert Slot(p, 0, size) == p;
  }

  ghost predicate HoldsIn(w: RawWindow, live: seq<Entry>, behind: Stamp, count: nat, size: nat)
    reads w, w.reqs, w.reqs.data, w.tims, w.tims.data
  {
    w.Valid() && w.Live() == live && w.Behind() == behind && w.counter == count && w.reqs.data.Length == size
  }

  ghost predicate Is(e: Entry, second: nat, counter: nat, data: Payload) {
    e.time == Timeval(second, 0) && e.counter == counter && e.data == data
  }

  /** A request without timers, admitted to a window with room for it. */
  method AdmitOne(w: RawWindow, second: nat, data: Payload,
                  ghost live: seq<Entry>, ghost behind: Stamp, ghost count: nat, ghost size: nat) returns (e: Entry, at: Stamp)
    requires HoldsIn(w, live, behind, count, size) && |live| + 1 < size
    modifies w, w.reqs, w.reqs.data, w.tims, w.tims.data
    ensures w.reqs.data == old(w.reqs.data) && (w.tims.data == old(w.tims.data) || fresh(w.tims.data))
    ensures HoldsIn(w, live + [e], behind, count + 1, size) && Is(e, second, count, data) && at == StampFrom(e)
  {
    var s := Request(second, data, true);
    OneJob(s, w.Room());
    ghost var p := w.reqs.inp;
    var admitted, stored;
    admitted, stored, at := w.Admit([[s]], true);
    OneEntry(s, stored, p, size, count);
    e := admitted[0];
  }

  /** The oldest request leaves; the others stay. */
  method ExpireOne(w: RawWindow, second: nat, ghost e: Entry, ghost rest: seq<Entry>,
                   ghost behind: Stamp, ghost count: nat, ghost size: nat) returns (expired: seq<Entry>)
    requires HoldsIn(w, [e] + rest, behind, count, size)
    requires Less(e.time, Timeval(second, 0)) && (rest != [] ==> !Less(rest[0].time, Timeval(second, 0)))
    modifies w.reqs, w.reqs.data, w.tims, w.tims.data
    ensures w.reqs.data == old(w.reqs.data) && w.tims.data == old(w.tims.data)
    ensures expired == [e] && HoldsIn(w, rest, StampFrom(e), count, size)
  {
    expired := w.Expire(Timeval(second, 0));
    Leaves(expired, w.Live(), e, rest, Timeval(second, 0));
  }

  lemma Leaves(expired: seq<Entry>, left: seq<Entry>, e: Entry, rest: seq<Entry>, from: Timeval)
    requires expired + left == [e] + rest && Less(e.time, from) && (rest != [] ==> !Less(rest[0].time, from))
    requires (forall k :: 0 <= k < |expired| ==> Less(expired[k].time, from)) && (left != [] ==> !Less(left[0].time, from))
    ensures expired == [e] && left == rest
  {
    var all := [e] + rest;
    assert forall k :: 0 <= k < |expired| ==> expired[k] == all[k];
    assert forall k :: |expired| <= k < |all| ==> left[k - |expired|] == all[k];
    assert all[0] == e && (rest != [] ==> all[1] == rest[0]);
    assert expired == all[..1] && left == all[1..];
  }

  method OneGone(data: Payload) returns (w: RawWindow)
    ensures fresh(w) && fresh(w.reqs) && fresh(w.reqs.data) && fresh(w.tims) && fresh(w.tims.data)
    ensures HoldsIn(w, [], Stamp(Timeval(1, 0), 0), 1, 3)
  {
    w := new RawWindow(3, 1, 1, 1);
    var a, at := AdmitOne(w, 1, data, [], Stamp(ZERO, 0), 0, 3);
    assert [] + [a] == [a] + [];
    var expired := ExpireOne(w, 2, a, [], Stamp(ZERO, 0), 1, 3);
  }

  /** A full ring of two requests, after a third has expired. */
  method FullRing(data: Payload) returns (w: RawWindow, b: Entry, c: Entry)
    ensures fresh(w) && fresh(w.reqs) && fresh(w.reqs.data) && fresh(w.tims) && fresh(w.tims.data)
    ensures HoldsIn(w, [b, c], Stamp(Timeval(1, 0), 0), 3, 3) && Is(b, 3, 1, data) && Is(c, 4, 2, data)
  {
    w := OneGone(data);
    ghost var behind := Stamp(Timeval(1, 0), 0);
    var at;
    b, at := AdmitOne(w, 3, data, [], behind, 1, 3);
    assert [] + [b] == [b];
    c, at := AdmitOne(w, 4, data, [b], behind, 2, 3);
    assert [b] + [c] == [b, c];
  }

  /** Nothing of a batch fits: what stands at `in` is what the slot before `out` holds. */
  method AdmitNone(w: RawWindow, second: nat, data: Payload,
                   ghost live: seq<Entry>, ghost behind: Stamp, ghost count: nat, ghost size: nat) returns (at: Stamp)
    requires HoldsIn(w, live, behind, count, size) && |live| + 1 == size
    modifies w, w.reqs, w.reqs.data, w.tims, w.tims.data
    ensures w.reqs.data == old(w.reqs.data) && (w.tims.data == old(w.tims.data) || fresh(w.tims.data))
    ensures HoldsIn(w, live, behind, count, size) && at == behind
  {
    var s := Request(second, data, true);
    OneJob(s, 1);
    var admitted, stored;
    admitted, stored, at := w.Admit([[s]], true);
    assert live + admitted == live;
  }

  ghost predicate Stands(r: Report, st: Stamp, s: State<string>)
    reads r
  {
    GoodScale(r.shape.sc) && r.spoiled && r.StampOf() == st && r.Aggregate() == s
  }

  /** A matching request arrives and is added. */
  method Arrive(w: RawWindow, report: Report, second: nat, data: Payload, ghost c: Entry,
                ghost behind: Stamp, ghost count: nat, ghost st: Stamp, ghost s: State<string>) returns (e: Entry)
    requires HoldsIn(w, [c], behind, count, 3) && Stands(report, st, s)
    requires GoodPayload(data) && report.cond(data) && c.counter < count && !Less(Timeval(second, 0), c.time) && c.time.sec > 0
    modifies w, w.reqs, w.reqs.data, w.tims, w.tims.data, report
    ensures w.reqs.data == old(w.reqs.data) && (w.tims.data == old(w.tims.data) || fresh(w.tims.data))
    ensures HoldsIn(w, [c] + [e], behind, count + 1, 3) && Is(e, second, count, data)
    ensures !Unstamped(st) ==> Stands(report, st, AddTo(report.shape, s, data))
  {
    var at;
    e, at := AdmitOne(w, second, data, [c], behind, count, 3);
    report.AddBatch([e], at, [c]);
    assert AddSelected(report.shape, s, report.cond, [e], 1)
        == AddTo(report.shape, AddSelected(report.shape, s, report.cond, [e], 0), data);
  }

  /** The oldest request leaves, and the report hears of it. */
  method Leave(w: RawWindow, report: Report, second: nat, ghost e: Entry, ghost rest: seq<Entry>,
               ghost behind: Stamp, ghost count: nat, ghost st: Stamp, ghost s: State<string>)
    requires HoldsIn(w, [e] + rest, behind, count, 3) && Stands(report, st, s) && GoodPayload(e.data)
    requires Less(e.time, Timeval(second, 0)) && (rest != [] ==> !Less(rest[0].time, Timeval(second, 0)))
    modifies w.reqs, w.reqs.data, w.tims, w.tims.data, report
    ensures w.reqs.data == old(w.reqs.data) && w.tims.data == old(w.tims.data)
    ensures HoldsIn(w, rest, StampFrom(e), count, 3) && Stands(report, st, DeleteOneFrom(report.shape, s, st, report.cond, e))
  {
    var expired := ExpireOne(w, second, e, rest, behind, count, 3);
    report.DeleteBatch(expired, rest);
    assert DeleteSelected(report.shape, s, st, report.cond, [e], 1)
        == DeleteOneFrom(report.shape, DeleteSelected(report.shape, s, st, report.cond, [e], 0), st, report.cond, e);
  }

  method DroppedBatch(data: Payload) returns (w: RawWindow, b: Entry, c: Entry, at: Stamp)
    ensures fresh(w) && fresh(w.reqs) && fresh(w.reqs.data) && fresh(w.tims) && fresh(w.tims.data)
    ensures HoldsIn(w, [b, c], at, 3, 3) && Is(b, 3, 1, data) && Is(c, 4, 2, data) && at == Stamp(Timeval(1, 0), 0)
  {
    w, b, c := FullRing(data);
    at := AdmitNone(w, 5, data, [b, c], Stamp(Timeval(1, 0), 0), 3, 3);
  }

  /** A report that was just created hears of a batch that was dropped entirely, and takes the
      start of the request that expired long ago. */
  method Misdated(shape: Layout<string>, cond: Payload -> bool, at: Stamp, ghost b: Entry, ghost c: Entry) returns (report: Report)
    requires GoodScale(shape.sc) && cond(b.data) && InOrder([b, c]) && !Unstamped(at) && !Before(at, b)
    ensures fresh(report) && report.shape == shape && report.cond == cond && Stands(report, at, Empty<string>())
  {
    report := new Report(shape, cond);
    assert [b, c] + [] == [b, c];
    report.AddBatch([], at, [b, c]);
    assert Counted(at, cond, [b, c][0]);
  }

  /** The full ring. The report adds one request, and loses it again when a request expires that
      it never added. */
  method FullRingLosesRequest(shape: Layout<string>, cond: Payload -> bool, data: Payload)
    returns (w: RawWindow, report: Report, live: Entry)
    requires GoodScale(shape.sc) && GoodPayload(data) && cond(data)
    ensures w.Valid() && w.Live() == [live] && !Before(report.StampOf(), live) && cond(live.data)
    ensures report.shape == shape && report.cond == cond && Counts(shape, report.Aggregate(), [])
    ensures !report.Represents(w.Live())
  {
    var b, c, at;
    w, b, c, at := DroppedBatch(data);
    report := Misdated(shape, cond, at, b, c);
    live := AddAndLose(w, report, data, b, c, at);
    Emptied(shape, cond, data, at, c, live);
  }

  method AddAndLose(w: RawWindow, report: Report, data: Payload, ghost b: Entry, ghost c: Entry, ghost at: Stamp) returns (live: Entry)
    requires HoldsIn(w, [b, c], at, 3, 3) && Is(b, 3, 1, data) && Is(c, 4, 2, data) && at == Stamp(Timeval(1, 0), 0)
    requires Stands(report, at, Empty<string>()) && GoodPayload(data) && report.cond(data)
    modifies w, w.reqs, w.reqs.data, w.tims, w.tims.data, report
    ensures HoldsIn(w, [live], StampFrom(c), 4, 3) && Is(live, 6, 3, data)
    ensures Stands(report, at, DeleteOneFrom(report.shape, AddTo(report.shape, Empty<string>(), data), at, report.cond, c))
  {
    ghost var s := Empty<string>();
    assert [b, c] == [b] + [c];
    Leave(w, report, 4, b, [c], at, 3, at, s);
    live := Arrive(w, report, 6, data, c, StampFrom(b), 3, at, s);
    Leave(w, report, 5, c, [live], StampFrom(b), 4, at, AddTo(report.shape, s, data));
  }

  lemma Emptied(shape: Layout<string>, cond: Payload -> bool, data: Payload, st: Stamp, c: Entry, live: Entry)
    requires GoodScale(shape.sc) && GoodPayload(data) && cond(data) && c.data == live.data == data
    requires !Unstamped(st) && !Before(st, c) && !Before(st, live)
    ensures var s := DeleteOneFrom(shape, AddTo(shape, Empty<string>(), data), st, cond, c);
            Counts(shape, s, []) && !Counts(shape, s, Payloads(Selected(st, cond, [live])))
  {
    EmptyCounts(shape);
    AddExtendsFold(shape, Empty<string>(), [], data);
    assert [] + [data] == [data] + [];
    RemoveShrinksFold(shape, AddTo(shape, Empty<string>(), data), [], data);
    var s := RemoveFrom(shape, AddTo(shape, Empty<string>(), data), data);
    SelectedOne(st, cond, live);
    if Counts(shape, s, Payloads([live])) { CountsDeterminesNumber(shape, s, [], Payloads([live])); }
  }

  /** Both copies of one job fail; the second stands at `in`, one counter ahead of the window. */
  method AdmitFailed(w: RawWindow, second: nat, data: Payload,
                     ghost live: seq<Entry>, ghost behind: Stamp, ghost count: nat, ghost size: nat) returns (at: Stamp)
    requires HoldsIn(w, live, behind, count, size) && |live| + 2 < size
    modifies w, w.reqs, w.reqs.data, w.tims, w.tims.data
    ensures w.reqs.data == old(w.reqs.data) && (w.tims.data == old(w.tims.data) || fresh(w.tims.data))
    ensures HoldsIn(w, live, behind, count, size) && at == Stamp(Timeval(second, 0), count + 1)
  {
    var s := Request(second, data, false);
    FailedPair(s, w.Room());
    var admitted, stored;
    admitted, stored, at := w.Admit([[s, s]], true);
    assert live + admitted == live;
  }

  lemma FailedPair(s: Staged, room: nat)
    requires room >= 2 && !s.copyOk
    ensures Jobs.Concat([[s, s]]) == [s, s] && Taken([s, s], room) == [s, s] && Accepted([s, s]) == []
    ensures FirstJob(Plan([[s, s]], room)) == [s, s]
  {
    assert [[s, s]][1..] == [] && [[s, s]][..0] == [];
    assert Plan([[s, s]], room) == Plan([[s, s]][..0], room) + [[s, s]];
    assert Accepted([s, s]) == AcceptedTo([s, s], 1) && AcceptedTo([s, s], 1) == AcceptedTo([s, s], 0);
  }

  /** Failed copies. A report takes its start from them and misses a request that comes at the
      same time: it adds the request and still counts it after it has expired. */
  method FailedCopiesKeepRequest(shape: Layout<string>, cond: Payload -> bool, data: Payload)
    returns (w: RawWindow, report: Report)
    requires GoodScale(shape.sc) && GoodPayload(data) && cond(data)
    ensures w.Valid() && w.Live() == []
    ensures report.shape == shape && report.cond == cond && Counts(shape, report.Aggregate(), [data])
    ensures !report.Represents(w.Live())
  {
    w := new RawWindow(4, 1, 1, 1);
    var at := AdmitFailed(w, 1, data, [], Stamp(ZERO, 0), 0, 4);
    report := StartAhead(shape, cond, at);
    AddAndKeep(w, report, data, at);
  }

  method AddAndKeep(w: RawWindow, report: Report, data: Payload, ghost at: Stamp)
    requires HoldsIn(w, [], Stamp(ZERO, 0), 0, 4) && at == Stamp(Timeval(1, 0), 1)
    requires report.StampOf() == at && report.Aggregate() == Empty<string>() && report.Sound([])
    requires GoodPayload(data) && report.cond(data)
    modifies w, w.reqs, w.reqs.data, w.tims, w.tims.data, report
    ensures w.Valid() && w.Live() == []
    ensures Counts(report.shape, report.Aggregate(), [data]) && !report.Represents([])
  {
    ghost var none := Stamp(ZERO, 0);
    var e, next := AdmitOne(w, 1, data, [], none, 0, 4);
    assert [] + [e] == [e] + [];
    AddEarly(report, e, at);
    var expired := ExpireOne(w, 2, e, [], none, 1, 4);
    report.DeleteBatch(expired, []);
    KeptForGood(report.shape, report.cond, data, at, e);
  }

  method StartAhead(shape: Layout<string>, cond: Payload -> bool, at: Stamp) returns (report: Report)
    requires GoodScale(shape.sc)
    ensures fresh(report) && report.shape == shape && report.cond == cond
    ensures report.StampOf() == at && report.Aggregate() == Empty<string>() && report.Sound([])
  {
    report := new Report(shape, cond);
    ghost var live: seq<Entry> := [];
    assert live + [] == live;
    report.AddBatch([], at, live);
  }

  method AddEarly(report: Report, e: Entry, ghost at: Stamp)
    requires report.StampOf() == at && report.Aggregate() == Empty<string>() && report.Sound([])
    requires GoodPayload(e.data) && report.cond(e.data) && e.time.sec > 0 && Before(at, e) && !Unstamped(at)
    modifies report
    ensures Stands(report, at, AddTo(report.shape, Empty<string>(), e.data))
  {
    report.AddBatch([e], StampFrom(e), []);
    ghost var s := Empty<string>();
    assert AddSelected(report.shape, s, report.cond, [e], 1)
        == AddTo(report.shape, AddSelected(report.shape, s, report.cond, [e], 0), e.data);
    assert !Counted(at, report.cond, [e][0]);
  }

  lemma KeptForGood(shape: Layout<string>, cond: Payload -> bool, data: Payload, st: Stamp, e: Entry)
    requires GoodScale(shape.sc) && GoodPayload(data) && Before(st, e)
    ensures var s := DeleteSelected(shape, AddTo(shape, Empty<string>(), data), st, cond, [e], 1);
            Counts(shape, s, [data]) && !Counts(shape, s, Payloads(Selected(st, cond, [])))
  {
    var s := AddTo(shape, Empty<string>(), data);
    EmptyCounts(shape);
    AddExtendsFold(shape, Empty<string>(), [], data);
    assert [] + [data] == [data];
    assert DeleteSelected(shape, s, st, cond, [e], 0) == s;
    if Counts(shape, s, []) { CountsDeterminesNumber(shape, s, [], [data]); }
    assert Payloads([]) == [];
  }
}
