/** Whole runs: any sequence of batches and expirations, driven through the rings and through
    reports of every shape. */
module Run {
  import opened Ring
  import opened Time
  import opened Types
  import opened Tiling
  import opened Histogram
  import opened Batch
  import opened Engine
  import opened Contents
  import opened BaseReport
  import opened Stamps
  import opened History
  import opened ReportJobs
  import opened Timeline
  import opened TagReportObject
  import Jobs

  /** Live requests sit in distinct slots. */
  lemma ViewSlotsDistinct(r: Rings)
    requires Shape(r)
    ensures DistinctSlots(View(r))
  {
    forall i, j | 0 <= i < j < r.live
      ensures SlotsDiffer(View(r), i, j)
    {
      SlotInjective(r.rout, i, j, |r.reqs|);
    }
  }

  lemma WindowSlots(window: RawWindow, c: Content)
    requires window.Holds(c)
    ensures DistinctSlots(c.live)
  {
    ViewSlotsDistinct(window.AsRings());
  }

  /** Admission of a batch of decoded requests that carry the time `time`. */
  method AdmitBatch(window: RawWindow, time: Timeval, tmp: seq<seq<Staged>>, memOk: bool, ghost c: Content, ghost size: nat, ghost grow: nat)
    returns (admitted: seq<Entry>, at: Stamp, ghost c': Content)
    requires window.Holds(c) && size == window.reqs.data.Length && grow == window.growTimers && c.inp < size && |c.live| < size
    requires AnyStaged(tmp) && BatchFits(Jobs.Concat(tmp), time)
    modifies window, window.reqs, window.reqs.data, window.tims, window.tims.data
    ensures window.reqs.data == old(window.reqs.data)
    ensures window.tims.data == old(window.tims.data) || fresh(window.tims.data)
    ensures c' == AfterBatch(c, size, grow, tmp, memOk) && window.Holds(c') && DistinctSlots(c'.live)
    ensures c'.live == c.live + admitted && c'.behind == c.behind && c'.counter == c.counter + |admitted|
    ensures admitted == Admitted(c, size, tmp, memOk) && at == Start(c, size, tmp, memOk)
    ensures BatchEntries(admitted, c.counter, time) && Offers(at, RoomIn(c, size) == 0, c.behind, admitted, c.counter, time)
  {
    FitsAreGood(Jobs.Concat(tmp), time);
    StagedIsConcat(tmp);
    BatchBrings(c, size, tmp, memOk, time);
    admitted, at, c' := AdmitTo(window, tmp, memOk, c);
    WindowSlots(window, c');
  }

  /** The raw window with the reports attached to it. */
  class Monitor {
    const window: RawWindow
    const reports: Reports

    /** The window shares no object with the reports. */
    ghost predicate Apart()
      reads window, window.reqs, window.tims
    {
      && window !in reports.repr && window.reqs !in reports.repr && window.reqs.data !in reports.repr
      && window.tims !in reports.repr && window.tims.data !in reports.repr
      && reports.base.repr <= reports.repr
    }

    ghost function Repr(): set<object>
      reads window, window.reqs, window.tims
    {
      {window, window.reqs, window.reqs.data, window.tims, window.tims.data} + reports.repr
    }

    /** The window is sound, nothing in it is later than `now`, and each report is the fold over
        the live requests it counts, a base report as long as no batch has spoiled it. */
    ghost predicate Valid(now: Timeval)
      reads window, window.reqs, window.reqs.data, window.tims, window.tims.data, reports.repr
    {
      && Apart() && window.Valid()
      && reports.Agree(window.Live(), window.Behind(), window.counter, now)
    }

    lemma UnspoiltAgree(now: Timeval)
      requires Valid(now)
      ensures forall i :: 0 <= i < |reports.base.all| && !reports.base.all[i].spoiled ==>
                reports.base.all[i].Represents(window.Live())
    {
      assert forall i :: 0 <= i < |reports.base.all| ==> BaseFits(reports.base.all[i], window.Live(), now);
    }

    /** Only the timer ring is ever reallocated. */
    twostate predicate SameRings()
      reads window, window.reqs, window.tims
    {
      && window.reqs.data == old(window.reqs.data)
      && (window.tims.data == old(window.tims.data) || fresh(window.tims.data))
    }

    /** The values of all this: `w`, in the fixed surroundings `u`. */
    ghost predicate Shows(u: Setup, w: World)
      reads window, window.reqs, window.reqs.data, window.tims, window.tims.data, reports.base.repr
    {
      && u == Setup(window.reqs.data.Length, window.growTimers, reports.base.Conds())
      && Formed(u, w) && window.Holds(w.window) && reports.base.Marked(w.starts, w.spoilt)
    }

    /** Reports may be attached to a window at any point of its life. */
    constructor (window: RawWindow, reports: Reports, ghost now: Timeval)
      requires {window, window.reqs, window.reqs.data, window.tims, window.tims.data} !! reports.repr
      requires window.Valid() && reports.Agree(window.Live(), window.Behind(), window.counter, now)
      ensures Valid(now) && this.window == window && this.reports == reports
    {
      this.window, this.reports := window, reports;
      new;
    }

    lemma ValidFrom(c: Content, now: Timeval)
      requires Apart() && window.Holds(c) && reports.Agree(c.live, c.behind, c.counter, now)
      ensures Valid(now)
    {
    }

    /** One batch, admitted and reported. */
    method OnArrive(time: Timeval, tmp: seq<seq<Staged>>, memOk: bool, ghost now: Timeval, ghost u: Setup, ghost w: World)
      requires Valid(now) && Shows(u, w) && EventFits(Arrive(time, tmp, memOk), now)
      modifies Repr()
      ensures Valid(time) && Shows(u, AfterEvent(u, w, Arrive(time, tmp, memOk)))
      ensures SameRings()
    {
      if AnyStaged(tmp) {
        reports.Opened(w.window.live, w.window.behind, w.window.counter, now);
        Arrival(time, tmp, memOk, now, u, w);
      } else {
        NothingArrives(now, time);
      }
    }

    lemma NothingArrives(now: Timeval, time: Timeval)
      requires Valid(now) && !Less(time, now) && time.sec > 0
      ensures Valid(time)
    {
      var live, behind, counter := window.Live(), window.Behind(), window.counter;
      assert live + [] == live;
      BatchIsLater(live, [], counter, now, time, Stamp(ZERO, 0));
      BehindAfterBatch(behind, live, [], counter, now, time);
      reports.TimePasses(live, counter, now, time);
    }

    /** A batch that staged something. */
    method Arrival(time: Timeval, tmp: seq<seq<Staged>>, memOk: bool, ghost now: Timeval, ghost u: Setup, ghost w: World)
      requires Apart() && Shows(u, w) && reports.Closed(w.window.live, w.window.behind, w.window.counter, now)
      requires EventFits(Arrive(time, tmp, memOk), now) && AnyStaged(tmp)
      modifies Repr()
      ensures Valid(time) && Shows(u, AfterEvent(u, w, Arrive(time, tmp, memOk))) && SameRings()
    {
      var admitted, at;
      ghost var c';
      admitted, at, c' := AdmitBatch(window, time, tmp, memOk, w.window, u.size, u.grow);
      ReportArrival(admitted, at, w.window, c', now, time, RoomIn(w.window, u.size) == 0, w.starts, w.spoilt);
    }

    method ReportArrival(es: seq<Entry>, at: Stamp, ghost c: Content, ghost c': Content, ghost now: Timeval, ghost time: Timeval,
                         ghost full: bool, ghost sts: seq<Stamp>, ghost sps: seq<bool>)
      requires Apart() && window.Holds(c') && reports.Closed(c.live, c.behind, c.counter, now)
      requires c'.live == c.live + es && c'.behind == c.behind && c'.counter == c.counter + |es|
      requires BatchEntries(es, c.counter, time) && DistinctSlots(c'.live) && !Less(time, now) && time.sec > 0
      requires reports.base.Marked(sts, sps) && Offers(at, full, c.behind, es, c.counter, time)
      modifies reports.repr
      ensures Valid(time) && window.Holds(c') && |sts| == |sps| == |reports.base.all|
      ensures reports.base.Marked(Restarted(sts, at), Respoilt(sts, sps, reports.base.Conds(), full, c.behind, c.live, es))
    {
      reports.Opened(c.live, c.behind, c.counter, now);
      BatchIsLater(c.live, es, c.counter, now, time, Stamp(ZERO, 0));
      BehindAfterBatch(c.behind, c.live, es, c.counter, now, time);
      reports.Hear(es, at, c.live, c.counter, now, time, full, c.behind, sts, sps);
      ValidFrom(c', time);
    }

    /** One expiry, carried out and reported. */
    method OnLapse(from: Timeval, ghost now: Timeval, ghost u: Setup, ghost w: World)
      requires Valid(now) && Shows(u, w)
      modifies Repr()
      ensures Valid(now) && window.reqs.data == old(window.reqs.data) && window.tims.data == old(window.tims.data)
      ensures Shows(u, AfterEvent(u, w, Lapse(from)))
    {
      reports.Opened(w.window.live, w.window.behind, w.window.counter, now);
      Lapsing(from, now, u, w);
    }

    method Lapsing(from: Timeval, ghost now: Timeval, ghost u: Setup, ghost w: World)
      requires Apart() && Shows(u, w) && reports.Closed(w.window.live, w.window.behind, w.window.counter, now)
      modifies Repr()
      ensures Valid(now) && window.reqs.data == old(window.reqs.data) && window.tims.data == old(window.tims.data)
      ensures Shows(u, AfterEvent(u, w, Lapse(from)))
    {
      ExpirySplits(w.window, from);
      Parting(from, now, w.window, Expired(w.window.live, from), AfterExpiry(w.window, from), w.starts, w.spoilt);
    }

    method Parting(from: Timeval, ghost now: Timeval, ghost c: Content, ghost gone: seq<Entry>, ghost c': Content,
                   ghost sts: seq<Stamp>, ghost sps: seq<bool>)
      requires Apart() && window.Holds(c) && reports.base.Marked(sts, sps) && Splits(c, from, gone, c')
      requires reports.Closed(c.live, c.behind, c.counter, now)
      modifies Repr()
      ensures Valid(now) && window.reqs.data == old(window.reqs.data) && window.tims.data == old(window.tims.data)
      ensures window.Holds(c') && reports.base.Marked(sts, sps)
    {
      var expired := ExpireFrom(window, from, c, gone, c');
      ReportLapse(expired, c.behind, c', now, sts, sps);
    }

    /** `es` are the requests that left, `c` is what stayed. */
    method ReportLapse(es: seq<Entry>, ghost behind: Stamp, ghost c: Content, ghost now: Timeval, ghost sts: seq<Stamp>, ghost sps: seq<bool>)
      requires Apart() && reports.base.Marked(sts, sps) && window.Holds(c) && c.behind == LastOf(es, behind)
      requires reports.Closed(es + c.live, behind, c.counter, now)
      modifies reports.repr
      ensures Valid(now) && window.Holds(c) && reports.base.Marked(sts, sps)
    {
      reports.Opened(es + c.live, behind, c.counter, now);
      ExpiryStaysOrderly(es, c.live, c.counter, now);
      History.BehindAfterExpiry(behind, es, c.live, c.counter, now);
      reports.Delete(es, c.live, c.counter, now, sts, sps);
      ValidFrom(c, now);
    }

    method Handle(ev: Event, ghost now: Timeval, ghost u: Setup, ghost w: World)
      requires Valid(now) && Shows(u, w) && EventFits(ev, now)
      modifies Repr()
      ensures Valid(Later(ev, now)) && Shows(u, AfterEvent(u, w, ev))
      ensures SameRings()
    {
      match ev {
        case Arrive(time, tmp, memOk) => OnArrive(time, tmp, memOk, now, u, w);
        case Lapse(from) => OnLapse(from, now, u, w);
      }
    }

    /** Nothing is later than the time of the last batch. */
    lemma TimelyNow(now: Timeval, u: Setup, w: World)
      requires Valid(now) && Shows(u, w)
      ensures Timely(w, now)
    {
      assert forall k :: 0 <= k < |w.window.live| ==> EntryFits(w.window.live[k], w.window.counter, now);
      assert forall i :: 0 <= i < |reports.base.all| ==> BaseFits(reports.base.all[i], w.window.live, now);
    }

    /** `Valid` and `Shows` as one closed fact. The loop over the events only carries it along, and
        the rank keeps the loop's proof from looking inside. */
    ghost predicate ClosedAt(now: Timeval, u: Setup, w: World, rank: nat)
      reads window, window.reqs, window.reqs.data, window.tims, window.tims.data, reports.repr, reports.base.repr
    {
      if rank > 0 then ClosedAt(now, u, w, rank - 1) else Valid(now) && Shows(u, w)
    }

    ghost predicate Closed(now: Timeval, u: Setup, w: World)
      reads window, window.reqs, window.reqs.data, window.tims, window.tims.data, reports.repr, reports.base.repr
    {
      ClosedAt(now, u, w, u.size + 5)
    }

    lemma {:induction false} OpenedAt(now: Timeval, u: Setup, w: World, rank: nat)
      ensures ClosedAt(now, u, w, rank) <==> Valid(now) && Shows(u, w)
    {
      if rank > 0 { OpenedAt(now, u, w, rank - 1); }
    }

    lemma Opened(now: Timeval, u: Setup, w: World)
      ensures Closed(now, u, w) <==> Valid(now) && Shows(u, w)
    {
      OpenedAt(now, u, w, u.size + 5);
    }

    method PlayAll(evs: seq<Event>, ghost now: Timeval, ghost u: Setup, ghost ws: seq<World>)
      requires Trace(u, ws, evs) && RunFits(evs, now) && Closed(now, u, ws[0])
      modifies Repr()
      ensures Closed(ClockAt(evs, now, |evs|), u, ws[|evs|]) && SameRings()
    {
      for i := 0 to |evs|
        invariant Closed(ClockAt(evs, now, i), u, ws[i]) && SameRings()
      {
        PlayOne(evs, i, now, u, ws);
      }
    }

    method PlayOne(evs: seq<Event>, i: nat, ghost now: Timeval, ghost u: Setup, ghost ws: seq<World>)
      requires Trace(u, ws, evs) && RunFits(evs, now) && i < |evs| && Closed(ClockAt(evs, now, i), u, ws[i])
      modifies Repr()
      ensures Closed(ClockAt(evs, now, i + 1), u, ws[i + 1]) && SameRings()
    {
      Opened(ClockAt(evs, now, i), u, ws[i]);
      HandleAt(evs, i, now, u, ws);
      Opened(ClockAt(evs, now, i + 1), u, ws[i + 1]);
    }

    method HandleAt(evs: seq<Event>, i: nat, ghost now: Timeval, ghost u: Setup, ghost ws: seq<World>)
      requires Trace(u, ws, evs) && RunFits(evs, now) && i < |evs| && Valid(ClockAt(evs, now, i)) && Shows(u, ws[i])
      modifies Repr()
      ensures Valid(ClockAt(evs, now, i + 1)) && Shows(u, ws[i + 1]) && SameRings()
    {
      assert Leads(u, ws, evs, i) && FitsAt(evs, now, i);
      Handle(evs[i], ClockAt(evs, now, i), u, ws[i]);
    }

    /** Any run: whatever batches arrive and whatever expires, the rings and the reports go through
        the worlds `ws` that the events lead to, one after another. At the end each report is the
        fold over the requests then live that it counts. For a base report this holds unless some
        event spoiled it; it holds if an admitted batch gave it its start, before the run or in it;
        and if batch times strictly increase, it holds unless a full ring misled it. */
    method Play(evs: seq<Event>, ghost now: Timeval, ghost u: Setup, ghost w: World) returns (ghost ws: seq<World>)
      requires Valid(now) && Shows(u, w) && RunFits(evs, now)
      modifies Repr()
      ensures Valid(ClockAt(evs, now, |evs|)) && SameRings()
      ensures Trace(u, ws, evs) && ws[0] == w && Shows(u, ws[|evs|])
      ensures forall i :: 0 <= i < |reports.base.all| && !w.spoilt[i] && NeverSpoilt(u, ws, evs, i) ==>
                reports.base.all[i].Represents(window.Live())
      ensures forall i :: 0 <= i < |reports.base.all| && EverSettled(ws, i) ==>
                reports.base.all[i].Represents(window.Live())
      ensures forall i :: 0 <= i < |reports.base.all| && Strict(evs, now) && !w.spoilt[i] && NeverDropped(u, ws, evs, i) ==>
                reports.base.all[i].Represents(window.Live())
    {
      ws := Foretold(u, w, evs);
      TimelyNow(now, u, w);
      Opened(now, u, w);
      PlayAll(evs, now, u, ws);
      Opened(ClockAt(evs, now, |evs|), u, ws[|evs|]);
      UnspoiltAgree(ClockAt(evs, now, |evs|));
      Verdicts(u, ws, evs, now);
    }
  }

  /** An empty window with new reports is where every run can begin. */
  method Begin(size: nat, timers: nat, threads: nat, grow: nat,
               shape: Layout<string>, cond: Payload -> bool, tagId: nat, name: string)
    returns (monitor: Monitor, ghost u: Setup, ghost w: World)
    requires size > 0 && timers > 0 && threads > 0 && grow > 0 && GoodScale(shape.sc)
    ensures monitor.Valid(ZERO) && monitor.Shows(u, w) && fresh(monitor.Repr())
    ensures u == Setup(size, grow, [cond]) && w == World(Content([], Stamp(ZERO, 0), 0, 0, timers), [Stamp(ZERO, 0)], [false])
  {
    var window := new RawWindow(size, timers, threads, grow);
    var reports := NewReports(shape, cond, tagId, name);
    monitor := new Monitor(window, reports, ZERO);
    u := Setup(size, grow, [cond]);
    w := World(Content([], Stamp(ZERO, 0), 0, 0, timers), [Stamp(ZERO, 0)], [false]);
  }
}
