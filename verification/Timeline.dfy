/** Whole runs as values: what any sequence of batches and expirations makes of the window and of
    the starts of the base reports. */
module Timeline {
  import opened Ring
  import opened Time
  import opened Types
  import opened Batch
  import opened Append
  import opened Admission
  import opened Engine
  import opened Contents
  import opened BaseReport
  import opened Stamps
  import opened History
  import TagTotals
  import Jobs

  datatype Event =
    | Arrive(time: Timeval, tmp: seq<seq<Staged>>, memOk: bool)
    | Lapse(from: Timeval)

  /** What decoding and staging guarantee: normalised times and timers worth storing. */
  ghost predicate Decoded(s: Staged) {
    && GoodStaged(s) && GoodPayload(s.data)
    && forall j :: 0 <= j < |s.timers| ==> TagTotals.GoodTimer(s.timers[j])
  }

  /** All requests of a batch carry the batch's time, and batch times never decrease. */
  ghost predicate EventFits(ev: Event, now: Timeval) {
    ev.Arrive? ==> !Less(ev.time, now) && ev.time.sec > 0 && BatchFits(Jobs.Concat(ev.tmp), ev.time)
  }

  ghost predicate BatchFits(f: seq<Staged>, time: Timeval) {
    forall y :: 0 <= y < |f| ==> Decoded(f[y]) && f[y].time == time
  }

  ghost function Later(ev: Event, now: Timeval): Timeval {
    if ev.Arrive? then ev.time else now
  }

  /** The time of the last batch among the first `n` events. */
  ghost function ClockAt(evs: seq<Event>, now: Timeval, n: nat): Timeval
    requires n <= |evs|
  {
    if n == 0 then now else Later(evs[n - 1], ClockAt(evs, now, n - 1))
  }

  ghost predicate RunFits(evs: seq<Event>, now: Timeval) {
    forall k :: 0 <= k < |evs| ==> FitsAt(evs, now, k)
  }

  ghost predicate FitsAt(evs: seq<Event>, now: Timeval, k: nat)
    requires k < |evs|
  {
    EventFits(evs[k], ClockAt(evs, now, k))
  }

  /** Batch times strictly increase. */
  ghost predicate Strict(evs: seq<Event>, now: Timeval) {
    forall k :: 0 <= k < |evs| && evs[k].Arrive? ==> Less(ClockAt(evs, now, k), evs[k].time)
  }

  /** Did any collector stage a request? A batch without one is not reported at all. */
  predicate AnyStaged(tmp: seq<seq<Staged>>) {
    exists t :: 0 <= t < |tmp| && tmp[t] != []
  }

  lemma {:induction false} StagedIsConcat(tmp: seq<seq<Staged>>)
    ensures AnyStaged(tmp) <==> Jobs.Concat(tmp) != []
  {
    if tmp != [] {
      StagedIsConcat(tmp[1..]);
      assert forall t :: 0 <= t < |tmp[1..]| ==> tmp[1..][t] == tmp[t + 1];
      assert AnyStaged(tmp) <==> tmp[0] != [] || AnyStaged(tmp[1..]) by {
        if t :| 0 <= t < |tmp| && tmp[t] != [] {
          assert t > 0 ==> tmp[1..][t - 1] == tmp[t];
        }
        if t :| 0 <= t < |tmp[1..]| && tmp[1..][t] != [] {
          assert tmp[t + 1] == tmp[1..][t];
        }
      }
    }
  }

  // The run.

  /** What never changes: slots of the request ring, growth of the timer ring, and the conditions
      of the base reports. */
  datatype Setup = Setup(size: nat, grow: nat, conds: seq<Payload -> bool>)

  /** The window, and for each base report its start and whether some batch has spoiled it. */
  datatype World = World(window: Content, starts: seq<Stamp>, spoilt: seq<bool>)

  ghost predicate Formed(u: Setup, w: World) {
    w.window.inp < u.size && |w.window.live| < u.size && |w.starts| == |w.spoilt| == |u.conds|
  }

  ghost function AfterEvent(u: Setup, w: World, ev: Event): (w': World)
    requires Formed(u, w)
    ensures Formed(u, w')
  {
    match ev
    case Arrive(_, tmp, memOk) =>
      if !AnyStaged(tmp) then w
      else
        var c := w.window;
        var es, at := Admitted(c, u.size, tmp, memOk), Start(c, u.size, tmp, memOk);
        World(AfterBatch(c, u.size, u.grow, tmp, memOk), Restarted(w.starts, at),
              Respoilt(w.starts, w.spoilt, u.conds, RoomIn(c, u.size) == 0, c.behind, c.live, es))
    case Lapse(from) => w.(window := AfterExpiry(w.window, from))
  }

  /** `ws` are the worlds before, between and after the events. */
  ghost predicate Trace(u: Setup, ws: seq<World>, evs: seq<Event>) {
    && |ws| == |evs| + 1 && (forall k :: 0 <= k < |ws| ==> Formed(u, ws[k]))
    && forall k :: 0 <= k < |evs| ==> Leads(u, ws, evs, k)
  }

  ghost predicate Leads(u: Setup, ws: seq<World>, evs: seq<Event>, k: nat)
    requires k < |evs| && |ws| == |evs| + 1
  {
    Formed(u, ws[k]) && ws[k + 1] == AfterEvent(u, ws[k], evs[k])
  }

  /** Every run has its worlds. */
  lemma Foretold(u: Setup, w: World, evs: seq<Event>) returns (ws: seq<World>)
    requires Formed(u, w)
    ensures Trace(u, ws, evs) && ws[0] == w
  {
    ws := [w];
    for n := 0 to |evs|
      invariant |ws| == n + 1 && ws[0] == w
      invariant forall k :: 0 <= k <= n ==> Formed(u, ws[k])
      invariant forall k :: 0 <= k < n ==> ws[k + 1] == AfterEvent(u, ws[k], evs[k])
    {
      ws := ws + [AfterEvent(u, ws[n], evs[n])];
    }
  }

  // What a batch of decoded requests brings.

  lemma {:induction false} AcceptedDecoded(f: seq<Staged>, n: nat, time: Timeval)
    requires n <= |f| && BatchFits(f, time)
    ensures forall d :: 0 <= d < Succ(f, n) ==> Decoded(AcceptedTo(f, n)[d]) && AcceptedTo(f, n)[d].time == time
  {
    if n > 0 { AcceptedDecoded(f, n - 1, time); }
  }

  lemma AdmittedEntries(f: seq<Staged>, stored: bool, p: nat, size: nat, counter: nat, time: Timeval)
    requires p < size && |Kept(f, stored)| <= size && BatchFits(f, time)
    ensures BatchEntries(NewEntries(Kept(f, stored), p, size, counter), counter, time)
  {
    AcceptedDecoded(f, |f|, time);
    var a := Kept(f, stored);
    var es := NewEntries(a, p, size, counter);
    forall d | 0 <= d < |es|
      ensures BatchEntry(es[d], counter + d, time)
    {
      assert Decoded(Accepted(f)[d]);
      forall j | 0 <= j < |es[d].timers|
        ensures TagTotals.GoodTimer(es[d].timers[j])
      {
        assert TagTotals.GoodTimer(a[d].timers[j]);
        assert forall g :: TagTotals.Of(es[d].timers[j], g) == TagTotals.Of(a[d].timers[j], g);
      }
    }
  }

  lemma {:induction false} FirstJobLeads(jobs: seq<seq<Staged>>)
    ensures FirstJob(jobs) <= Jobs.Concat(jobs)
  {
    if jobs != [] && jobs[0] == [] {
      FirstJobLeads(jobs[1..]);
      assert Jobs.Concat(jobs) == Jobs.Concat(jobs[1..]);
    }
  }

  /** A failed copy carries the batch's time and a counter that is still to be given out. */
  lemma FailedCopyOffers(jobs: seq<seq<Staged>>, f: seq<Staged>, base: nat, time: Timeval)
    requires f == Jobs.Concat(jobs) && FirstJob(jobs) != [] && forall y :: 0 <= y < |f| ==> f[y].time == time
    ensures var at := StampOf(LastFailed(FirstJob(jobs), base)); at.start == time && at.startId >= base
  {
    FirstJobLeads(jobs);
    var job := FirstJob(jobs);
    assert job[|job| - 1] == f[|job| - 1];
  }

  lemma FitsAreGood(f: seq<Staged>, time: Timeval)
    requires BatchFits(f, time)
    ensures GoodBatch(f)
  {
    forall y | 0 <= y < |f| ensures GoodStaged(f[y]) {
      assert Decoded(f[y]);
    }
  }

  /** The admitted requests carry the batch's time and the next counters; what stands at `in` is
      what the reports expect there. */
  lemma BatchBrings(c: Content, size: nat, tmp: seq<seq<Staged>>, memOk: bool, time: Timeval)
    requires c.inp < size && |c.live| < size && AnyStaged(tmp) && BatchFits(Jobs.Concat(tmp), time)
    ensures var es := Admitted(c, size, tmp, memOk);
            && BatchEntries(es, c.counter, time)
            && Offers(Start(c, size, tmp, memOk), RoomIn(c, size) == 0, c.behind, es, c.counter, time)
  {
    var room, f := RoomIn(c, size), Offer(c, size, tmp);
    AdmittedEntries(f, Stores(c, f, memOk), c.inp, size, c.counter, time);
    StagedIsConcat(tmp);
    PlanTakesPrefix(tmp, room);
    if room > 0 {
      FailedCopyOffers(Plan(tmp, room), f, c.counter, time);
    }
  }

  // Which reports a run spoils.

  /** The event makes report `i` draw its start wrong. */
  ghost predicate SpoiltAt(u: Setup, w: World, ev: Event, i: nat)
    requires Formed(u, w) && i < |u.conds|
  {
    && ev.Arrive? && AnyStaged(ev.tmp)
    && Spoils(w.starts[i], u.conds[i], RoomIn(w.window, u.size) == 0, w.window.behind, w.window.live,
              Admitted(w.window, u.size, ev.tmp, ev.memOk))
  }

  lemma SpoiltStep(u: Setup, w: World, ev: Event, i: nat)
    requires Formed(u, w) && i < |u.conds|
    ensures AfterEvent(u, w, ev).spoilt[i] <==> w.spoilt[i] || SpoiltAt(u, w, ev, i)
  {
  }

  /** A report is spoiled at the end exactly if it was at the start or some event spoiled it. */
  lemma {:induction false} SpoiltExactly(u: Setup, ws: seq<World>, evs: seq<Event>, n: nat, i: nat)
    requires Trace(u, ws, evs) && n <= |evs| && i < |u.conds|
    ensures ws[n].spoilt[i] <==> ws[0].spoilt[i] || exists j :: 0 <= j < n && SpoiltAt(u, ws[j], evs[j], i)
  {
    if n > 0 {
      SpoiltExactly(u, ws, evs, n - 1, i);
      assert Leads(u, ws, evs, n - 1);
      SpoiltStep(u, ws[n - 1], evs[n - 1], i);
    }
  }

  /** A start not ahead of the counter, on a report that no batch has spoiled. */
  ghost predicate Settled(w: World, i: nat)
    requires i < |w.starts| == |w.spoilt|
  {
    !w.spoilt[i] && !Unstamped(w.starts[i]) && w.starts[i].startId <= w.window.counter
  }

  /** A batch of which something was admitted settles a report that had no start. */
  lemma AdmissionSettles(u: Setup, w: World, ev: Event, now: Timeval, i: nat)
    requires Formed(u, w) && i < |u.conds| && EventFits(ev, now) && ev.Arrive?
    requires Admitted(w.window, u.size, ev.tmp, ev.memOk) != [] && Unstamped(w.starts[i]) && !w.spoilt[i]
    ensures Settled(AfterEvent(u, w, ev), i)
  {
    StagedIsConcat(ev.tmp);
    BatchBrings(w.window, u.size, ev.tmp, ev.memOk, ev.time);
    var es := Admitted(w.window, u.size, ev.tmp, ev.memOk);
    assert BatchEntry(es[0], w.window.counter + 0, ev.time);
  }

  lemma SettledStep(u: Setup, w: World, ev: Event, now: Timeval, i: nat)
    requires Formed(u, w) && i < |u.conds| && EventFits(ev, now) && Settled(w, i)
    ensures Settled(AfterEvent(u, w, ev), i)
  {
    if ev.Arrive? && AnyStaged(ev.tmp) {
      BatchBrings(w.window, u.size, ev.tmp, ev.memOk, ev.time);
      GoodStartStaysGood(w.starts[i], u.conds[i], RoomIn(w.window, u.size) == 0, w.window.behind, w.window.live,
                         Admitted(w.window, u.size, ev.tmp, ev.memOk), w.window.counter, ev.time);
    }
  }

  /** Once settled, a report stays so for the rest of any run. */
  lemma {:induction false} SettledStays(u: Setup, ws: seq<World>, evs: seq<Event>, now: Timeval, j: nat, n: nat, i: nat)
    requires Trace(u, ws, evs) && RunFits(evs, now) && j <= n <= |evs| && i < |u.conds|
    requires Settled(ws[j], i)
    ensures Settled(ws[n], i)
  {
    if j < n {
      SettledStays(u, ws, evs, now, j, n - 1, i);
      assert Leads(u, ws, evs, n - 1);
      assert FitsAt(evs, now, n - 1);
      SettledStep(u, ws[n - 1], evs[n - 1], ClockAt(evs, now, n - 1), i);
    }
  }

  // Strictly increasing batch times.

  /** Nothing in the world is later than `now`. */
  ghost predicate Timely(w: World, now: Timeval) {
    && (forall k :: 0 <= k < |w.window.live| ==> !Less(now, w.window.live[k].time))
    && StartFits(w.window.behind, now)
    && (forall i :: 0 <= i < |w.starts| ==> StartFits(w.starts[i], now))
  }

  lemma TimelyBatch(u: Setup, w: World, ev: Event, now: Timeval)
    requires Formed(u, w) && Timely(w, now) && EventFits(ev, now) && ev.Arrive? && AnyStaged(ev.tmp)
    ensures Timely(AfterEvent(u, w, ev), ev.time)
  {
    var c, w' := w.window, AfterEvent(u, w, ev);
    var es, at := Admitted(c, u.size, ev.tmp, ev.memOk), Start(c, u.size, ev.tmp, ev.memOk);
    BatchBrings(c, u.size, ev.tmp, ev.memOk, ev.time);
    forall k | 0 <= k < |c.live + es| ensures !Less(ev.time, (c.live + es)[k].time) {
      if k < |c.live| {
        LessTransitive(c.live[k].time, now, ev.time);
      } else {
        assert BatchEntry(es[k - |c.live|], c.counter + (k - |c.live|), ev.time);
      }
    }
    if !Unstamped(c.behind) { LessTransitive(c.behind.start, now, ev.time); }
    assert es != [] ==> BatchEntry(es[0], c.counter + 0, ev.time);
    forall i | 0 <= i < |w.starts| ensures StartFits(w'.starts[i], ev.time) {
      if !Unstamped(w.starts[i]) { LessTransitive(w.starts[i].start, now, ev.time); }
    }
  }

  lemma TimelyExpiry(w: World, from: Timeval, now: Timeval)
    requires Timely(w, now)
    ensures Timely(w.(window := AfterExpiry(w.window, from)), now)
  {
    ExpirySplits(w.window, from);
    SplitIsTimely(w.window.live, Expired(w.window.live, from), AfterExpiry(w.window, from).live, now);
  }

  lemma SplitIsTimely(live: seq<Entry>, gone: seq<Entry>, rest: seq<Entry>, now: Timeval)
    requires live == gone + rest && forall k :: 0 <= k < |live| ==> !Less(now, live[k].time)
    ensures forall k :: 0 <= k < |rest| ==> !Less(now, rest[k].time)
    ensures gone != [] ==> !Less(now, gone[|gone| - 1].time)
  {
    assert forall k :: 0 <= k < |rest| ==> rest[k] == live[|gone| + k];
    assert gone != [] ==> gone[|gone| - 1] == live[|gone| - 1];
  }

  lemma TimelyStep(u: Setup, w: World, ev: Event, now: Timeval)
    requires Formed(u, w) && Timely(w, now) && EventFits(ev, now)
    ensures Timely(AfterEvent(u, w, ev), Later(ev, now))
  {
    match ev {
      case Lapse(from) =>
        TimelyExpiry(w, from, now);
      case Arrive(time, tmp, _) =>
        if AnyStaged(tmp) {
          TimelyBatch(u, w, ev, now);
        } else {
          TimePasses(w, now, time);
        }
    }
  }

  lemma TimePasses(w: World, now: Timeval, time: Timeval)
    requires Timely(w, now) && !Less(time, now)
    ensures Timely(w, time)
  {
    forall t: Timeval | !Less(now, t) ensures !Less(time, t) {
      LessTransitive(t, now, time);
    }
  }

  lemma {:induction false} TimelyAt(u: Setup, ws: seq<World>, evs: seq<Event>, now: Timeval, n: nat)
    requires Trace(u, ws, evs) && Timely(ws[0], now) && RunFits(evs, now) && n <= |evs|
    ensures Timely(ws[n], ClockAt(evs, now, n))
  {
    if n > 0 {
      TimelyAt(u, ws, evs, now, n - 1);
      assert Leads(u, ws, evs, n - 1);
      assert FitsAt(evs, now, n - 1);
      TimelyStep(u, ws[n - 1], evs[n - 1], ClockAt(evs, now, n - 1));
    }
  }

  /** A full ring drops a batch while report `i` has no start, a request has expired before, and
      some live request matches. */
  ghost predicate DroppedAt(u: Setup, w: World, ev: Event, i: nat)
    requires Formed(u, w) && i < |u.conds|
  {
    && ev.Arrive? && AnyStaged(ev.tmp) && RoomIn(w.window, u.size) == 0
    && Unstamped(w.starts[i]) && !Unstamped(w.window.behind)
    && exists k :: 0 <= k < |w.window.live| && u.conds[i](w.window.live[k].data)
  }

  lemma OnlyDropsSpoil(u: Setup, w: World, ev: Event, now: Timeval, i: nat)
    requires Formed(u, w) && Timely(w, now) && EventFits(ev, now) && i < |u.conds|
    requires ev.Arrive? ==> Less(now, ev.time)
    ensures SpoiltAt(u, w, ev, i) <==> DroppedAt(u, w, ev, i)
  {
    if ev.Arrive? && AnyStaged(ev.tmp) {
      var es := Admitted(w.window, u.size, ev.tmp, ev.memOk);
      BatchBrings(w.window, u.size, ev.tmp, ev.memOk, ev.time);
      StrictTimesSpoilNothing(w.starts[i], u.conds[i], RoomIn(w.window, u.size) == 0, w.window.behind, w.window.live,
                              es, w.window.counter, now, ev.time);
    }
  }

  /** With strictly increasing batch times a report is spoiled exactly if a full ring dropped a
      batch before the report had a start, and the slot before `out` misled it. */
  lemma OnlyFullRingsSpoil(u: Setup, ws: seq<World>, evs: seq<Event>, now: Timeval, n: nat, i: nat)
    requires Trace(u, ws, evs) && Timely(ws[0], now) && RunFits(evs, now) && Strict(evs, now) && n <= |evs| && i < |u.conds|
    ensures ws[n].spoilt[i] <==> ws[0].spoilt[i] || exists j :: 0 <= j < n && DroppedAt(u, ws[j], evs[j], i)
  {
    SpoiltExactly(u, ws, evs, n, i);
    forall j | 0 <= j < n
      ensures SpoiltAt(u, ws[j], evs[j], i) <==> DroppedAt(u, ws[j], evs[j], i)
    {
      TimelyAt(u, ws, evs, now, j);
      assert FitsAt(evs, now, j);
      OnlyDropsSpoil(u, ws[j], evs[j], ClockAt(evs, now, j), i);
    }
  }

  // What that says about the reports at the end of a run.

  ghost predicate NeverSpoilt(u: Setup, ws: seq<World>, evs: seq<Event>, i: nat)
    requires Trace(u, ws, evs) && i < |u.conds|
  {
    forall j :: 0 <= j < |evs| ==> !SpoiltAt(u, ws[j], evs[j], i)
  }

  ghost predicate NeverDropped(u: Setup, ws: seq<World>, evs: seq<Event>, i: nat)
    requires Trace(u, ws, evs) && i < |u.conds|
  {
    forall j :: 0 <= j < |evs| ==> !DroppedAt(u, ws[j], evs[j], i)
  }

  ghost predicate EverSettled(ws: seq<World>, i: nat) {
    exists j :: 0 <= j < |ws| && i < |ws[j].starts| == |ws[j].spoilt| && Settled(ws[j], i)
  }

  lemma Verdicts(u: Setup, ws: seq<World>, evs: seq<Event>, now: Timeval)
    requires Trace(u, ws, evs) && Timely(ws[0], now) && RunFits(evs, now)
    ensures forall i :: 0 <= i < |u.conds| ==> (ws[|evs|].spoilt[i] <==> ws[0].spoilt[i] || !NeverSpoilt(u, ws, evs, i))
    ensures forall i :: 0 <= i < |u.conds| && EverSettled(ws, i) ==> !ws[|evs|].spoilt[i]
    ensures Strict(evs, now) ==>
              forall i :: 0 <= i < |u.conds| ==> (ws[|evs|].spoilt[i] <==> ws[0].spoilt[i] || !NeverDropped(u, ws, evs, i))
  {
    var n := |evs|;
    forall i | 0 <= i < |u.conds|
      ensures ws[n].spoilt[i] <==> ws[0].spoilt[i] || !NeverSpoilt(u, ws, evs, i)
      ensures EverSettled(ws, i) ==> !ws[n].spoilt[i]
      ensures Strict(evs, now) ==> (ws[n].spoilt[i] <==> ws[0].spoilt[i] || !NeverDropped(u, ws, evs, i))
    {
      SpoiltExactly(u, ws, evs, n, i);
      if j :| 0 <= j < |ws| && i < |ws[j].starts| == |ws[j].spoilt| && Settled(ws[j], i) {
        SettledStays(u, ws, evs, now, j, n, i);
      }
      if Strict(evs, now) { OnlyFullRingsSpoil(u, ws, evs, now, n, i); }
    }
  }

  // What is live at the end.

  /** The requests that an event admits, and those that it lets go. */
  ghost function Coming(u: Setup, w: World, ev: Event): seq<Entry>
    requires Formed(u, w)
  {
    match ev
    case Arrive(_, tmp, memOk) => Admitted(w.window, u.size, tmp, memOk)
    case Lapse(_) => []
  }

  ghost function Going(w: World, ev: Event): seq<Entry> {
    if ev.Lapse? then Expired(w.window.live, ev.from) else []
  }

  lemma NothingLostInEvent(u: Setup, w: World, ev: Event)
    requires Formed(u, w)
    ensures Balanced(w, AfterEvent(u, w, ev), Going(w, ev), Coming(u, w, ev))
  {
    match ev {
      case Arrive(_, tmp, _) => StagedIsConcat(tmp);
      case Lapse(from) =>
        ExpirySplits(w.window, from);
    }
  }

  ghost function Arrivals(u: Setup, ws: seq<World>, evs: seq<Event>): (ss: seq<seq<Entry>>)
    requires Trace(u, ws, evs)
    ensures |ss| == |evs|
  {
    seq(|evs|, k requires 0 <= k < |evs| => Coming(u, ws[k], evs[k]))
  }

  ghost function Departures(ws: seq<World>, evs: seq<Event>): (ss: seq<seq<Entry>>)
    requires |ws| == |evs| + 1
    ensures |ss| == |evs|
  {
    seq(|evs|, k requires 0 <= k < |evs| => Going(ws[k], evs[k]))
  }

  /** The first `n` of some sequences, end to end. */
  ghost function Flat<T>(ss: seq<seq<T>>, n: nat): seq<T>
    requires n <= |ss|
  {
    if n == 0 then [] else Flat(ss, n - 1) + ss[n - 1]
  }

  /** First in, first out, and nothing in between: what left and what is live are what was live
      and what came. */
  lemma NothingLost(u: Setup, ws: seq<World>, evs: seq<Event>, n: nat)
    requires Trace(u, ws, evs) && n <= |evs|
    ensures Balanced(ws[0], ws[n], Flat(Departures(ws, evs), n), Flat(Arrivals(u, ws, evs), n))
  {
    var goings, comings := Departures(ws, evs), Arrivals(u, ws, evs);
    forall k | 0 <= k < n ensures Balanced(ws[k], ws[k + 1], goings[k], comings[k]) {
      NothingLostAt(u, ws, evs, k);
    }
    QueueLaw(ws, goings, comings, n);
  }

  lemma {:induction false} QueueLaw(ws: seq<World>, goings: seq<seq<Entry>>, comings: seq<seq<Entry>>, n: nat)
    requires n < |ws| && n <= |goings| && n <= |comings|
    requires forall k :: 0 <= k < n ==> Balanced(ws[k], ws[k + 1], goings[k], comings[k])
    ensures Balanced(ws[0], ws[n], Flat(goings, n), Flat(comings, n))
  {
    if n > 0 {
      QueueLaw(ws, goings, comings, n - 1);
      BalancedNext(ws[0], ws[n - 1], ws[n], Flat(goings, n - 1), Flat(comings, n - 1), goings[n - 1], comings[n - 1]);
    }
  }

  lemma NothingLostAt(u: Setup, ws: seq<World>, evs: seq<Event>, k: nat)
    requires Trace(u, ws, evs) && k < |evs|
    ensures Balanced(ws[k], ws[k + 1], Going(ws[k], evs[k]), Coming(u, ws[k], evs[k]))
  {
    assert Leads(u, ws, evs, k);
    NothingLostInEvent(u, ws[k], evs[k]);
  }

  ghost predicate Balanced(w: World, v: World, gone: seq<Entry>, came: seq<Entry>) {
    gone + v.window.live == w.window.live + came && v.window.counter == w.window.counter + |came|
  }

  lemma BalancedNext(w: World, v: World, v': World, gone: seq<Entry>, came: seq<Entry>, going: seq<Entry>, coming: seq<Entry>)
    requires Balanced(w, v, gone, came) && Balanced(v, v', going, coming)
    ensures Balanced(w, v', gone + going, came + coming)
  {
    var mid, last, first := v.window.live, v'.window.live, w.window.live;
    assert (gone + going) + last == gone + (going + last) == (gone + mid) + coming;
    assert (first + came) + coming == first + (came + coming);
  }
}
