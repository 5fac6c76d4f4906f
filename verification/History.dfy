/** The order in which requests come and go, and what it says about the starts of reports. */
module History {
  import opened Time
  import opened Types
  import opened BaseReport
  import opened Stamps
  import opened BaseReportObject
  import opened TagReportObject

  /** The window's history so far: order, and nothing ahead of the clock or the counter. */
  ghost predicate Orderly(live: seq<Entry>, counter: nat, now: Timeval) {
    && InOrder(live) && DistinctSlots(live)
    && forall i :: 0 <= i < |live| ==> EntryFits(live[i], counter, now)
  }

  ghost predicate EntryFits(e: Entry, counter: nat, now: Timeval) {
    e.counter < counter && !Less(now, e.time) && GoodPayload(e.data) && GoodTimers(e)
  }

  ghost predicate StampFits(st: Stamp, counter: nat, now: Timeval) {
    !Unstamped(st) ==> !Less(now, st.start) && st.startId < counter
  }

  lemma LessTransitive(a: Timeval, b: Timeval, c: Timeval)
    requires !Less(b, a) && !Less(c, b)
    ensures !Less(c, a)
  {
  }

  /** The entries of a batch, whatever survived of it. */
  ghost predicate BatchEntries(es: seq<Entry>, counter: nat, time: Timeval) {
    forall d :: 0 <= d < |es| ==> BatchEntry(es[d], counter + d, time)
  }

  ghost predicate BatchEntry(e: Entry, counter: nat, time: Timeval) {
    e.time == time && e.counter == counter && GoodPayload(e.data) && GoodTimers(e)
  }

  /** Appending a batch keeps the history orderly and is ahead of every report's start. */
  lemma BatchIsLater(live: seq<Entry>, es: seq<Entry>, counter: nat, now: Timeval, time: Timeval, st: Stamp)
    requires Orderly(live, counter, now) && BatchEntries(es, counter, time) && DistinctSlots(live + es)
    requires !Less(time, now) && time.sec > 0 && StampFits(st, counter, now)
    ensures Orderly(live + es, counter + |es|, time) && AllAbove(st, es)
    ensures GoodEntries(es) && AllGoodTimers(es)
    ensures StampFits(st, counter + |es|, time)
    ensures es != [] ==> StampFits(Stamped(st, StampFrom(es[0])), counter + |es|, time)
  {
    var all := live + es;
    assert forall d :: 0 <= d < |es| ==> BatchEntry(es[d], counter + d, time);
    forall i | 0 <= i < |all|
      ensures EntryFits(all[i], counter + |es|, time) && all[i].time.sec > 0
    {
      if i < |live| {
        assert EntryFits(live[i], counter, now);
        LessTransitive(live[i].time, now, time);
      } else {
        assert BatchEntry(es[i - |live|], counter + (i - |live|), time);
      }
    }
    forall i, j | 0 <= i < j < |all|
      ensures Ordered(all, i, j)
    {
      if j < |live| {
        assert Ordered(live, i, j);
      } else {
        assert BatchEntry(es[j - |live|], counter + (j - |live|), time);
        if i < |live| {
          assert EntryFits(live[i], counter, now);
          LessTransitive(live[i].time, now, time);
        } else {
          assert BatchEntry(es[i - |live|], counter + (i - |live|), time);
        }
      }
    }
    if !Unstamped(st) { LessTransitive(st.start, now, time); }
  }

  lemma ExpiryStaysOrderly(expired: seq<Entry>, live: seq<Entry>, counter: nat, now: Timeval)
    requires Orderly(expired + live, counter, now)
    ensures Orderly(live, counter, now) && GoodEntries(expired) && AllGoodTimers(expired)
  {
    var all, n := expired + live, |expired|;
    assert forall i :: 0 <= i < |live| ==> live[i] == all[n + i];
    assert forall i :: 0 <= i < n ==> expired[i] == all[i] && EntryFits(all[i], counter, now);
    forall i, j | 0 <= i < j < |live| ensures Ordered(live, i, j) && SlotsDiffer(live, i, j) {
      assert Ordered(all, n + i, n + j) && SlotsDiffer(all, n + i, n + j);
    }
  }

  /** Requests `es` that a batch with time `time` appends to the live ones. */
  ghost predicate Appends(live: seq<Entry>, es: seq<Entry>, counter: nat, before: Timeval, time: Timeval) {
    && Orderly(live, counter, before) && BatchEntries(es, counter, time) && DistinctSlots(live + es)
    && !Less(time, before) && time.sec > 0
  }

  // The slot before `out`.

  /** It holds nothing yet, or a request that came before all live ones. */
  ghost predicate BehindFits(st: Stamp, live: seq<Entry>, counter: nat, now: Timeval) {
    Unstamped(st) || (Precedes(st, live) && st.startId < counter && !Less(now, st.start))
  }

  lemma BehindAfterBatch(st: Stamp, live: seq<Entry>, es: seq<Entry>, counter: nat, before: Timeval, time: Timeval)
    requires BehindFits(st, live, counter, before) && Appends(live, es, counter, before, time)
    ensures BehindFits(st, live + es, counter + |es|, time)
  {
    if !Unstamped(st) {
      LessTransitive(st.start, before, time);
      forall i | 0 <= i < |live + es|
        ensures !Less((live + es)[i].time, st.start) && st.startId < (live + es)[i].counter
      {
        if i >= |live| { assert BatchEntry(es[i - |live|], counter + (i - |live|), time); }
      }
    }
  }

  lemma BehindAfterExpiry(st: Stamp, expired: seq<Entry>, live: seq<Entry>, counter: nat, now: Timeval)
    requires Orderly(expired + live, counter, now) && BehindFits(st, expired + live, counter, now)
    ensures expired == [] ==> BehindFits(st, live, counter, now)
    ensures expired != [] ==> BehindFits(StampFrom(expired[|expired| - 1]), live, counter, now)
  {
    var all := expired + live;
    assert forall i :: 0 <= i < |live| ==> live[i] == all[|expired| + i];
    if expired == [] {
      assert all == live;
    } else {
      assert all[|expired| - 1] == expired[|expired| - 1];
      assert EntryFits(all[|expired| - 1], counter, now);
      forall i | 0 <= i < |live|
        ensures !Less(live[i].time, all[|expired| - 1].time) && all[|expired| - 1].counter < live[i].counter
      {
        assert Ordered(all, |expired| - 1, |expired| + i);
      }
    }
  }

  // Which batches draw a report's start wrong.

  ghost predicate StartFits(st: Stamp, now: Timeval) {
    !Unstamped(st) ==> !Less(now, st.start)
  }

  /** A batch of which nothing was admitted spoils a new report if the ring is full, a request has
      expired before, and some live request matches. A batch that was admitted spoils a report if
      one of its matching requests comes at the very time of the report's start with a smaller
      counter; that takes a start drawn from several failed copies. */
  ghost predicate Spoils(st: Stamp, cond: Payload -> bool, full: bool, behind: Stamp, live: seq<Entry>, es: seq<Entry>) {
    if es == [] then
      full && Unstamped(st) && !Unstamped(behind) && exists i :: 0 <= i < |live| && cond(live[i].data)
    else
      !Unstamped(st) && exists i :: 0 <= i < |es| && cond(es[i].data) && es[i].time == st.start && es[i].counter < st.startId
  }

  /** The starts of some reports after a batch, and which of them are spoiled then. */
  ghost function Restarted(sts: seq<Stamp>, at: Stamp): (r: seq<Stamp>)
    ensures |r| == |sts|
  {
    seq(|sts|, i requires 0 <= i < |sts| => Stamped(sts[i], at))
  }

  ghost function Respoilt(sts: seq<Stamp>, sps: seq<bool>, conds: seq<Payload -> bool>, full: bool, behind: Stamp,
                          live: seq<Entry>, es: seq<Entry>): (r: seq<bool>)
    requires |sts| == |sps| == |conds|
    ensures |r| == |sps|
  {
    seq(|sps|, i requires 0 <= i < |sps| => sps[i] || Spoils(sts[i], conds[i], full, behind, live, es))
  }

  /** What the slot at `in` offers as a start: the first admitted request; or, if there is none,
      what the slot before `out` holds in a full ring, and a failed copy otherwise. */
  ghost predicate Offers(at: Stamp, full: bool, behind: Stamp, es: seq<Entry>, counter: nat, time: Timeval) {
    if es != [] then at == StampFrom(es[0])
    else if full then at == behind
    else at.start == time && at.startId >= counter
  }

  /** The start a report takes is right exactly if the batch does not spoil the report. */
  lemma EmptyBatchStampExact(st: Stamp, at: Stamp, cond: Payload -> bool, live: seq<Entry>, es: seq<Entry>,
                             counter: nat, before: Timeval, time: Timeval, full: bool, behind: Stamp)
    requires Appends(live, es, counter, before, time) && BehindFits(behind, live, counter, before) && StartFits(st, before)
    requires Offers(at, full, behind, es, counter, time)
    ensures LineRight(st, at, cond, live, es) <==> !Spoils(st, cond, full, behind, live, es)
  {
    if es == [] {
      if Unstamped(st) {
        if full {
          FullRingStartExact(st, at, cond, live);
        } else {
          LiveIsEarlier(live, counter, before, time);
          FailedBatchStartExact(st, time, counter, at.startId - counter + 1, cond, live);
        }
      }
    } else if Unstamped(st) {
      BatchIsLater(live, es, counter, before, time, st);
      NewStartIsRight(st, cond, live, es);
    } else {
      OldStartExact(st, at, cond, live, es, counter, before, time);
    }
  }

  lemma LiveIsEarlier(live: seq<Entry>, counter: nat, before: Timeval, time: Timeval)
    requires Orderly(live, counter, before) && !Less(time, before)
    ensures forall i :: 0 <= i < |live| ==> !Less(time, live[i].time) && live[i].counter < counter
  {
    forall i | 0 <= i < |live| ensures !Less(time, live[i].time) && live[i].counter < counter {
      assert EntryFits(live[i], counter, before);
      LessTransitive(live[i].time, before, time);
    }
  }

  lemma NewStartIsRight(st: Stamp, cond: Payload -> bool, live: seq<Entry>, es: seq<Entry>)
    requires Unstamped(st) && es != [] && InOrder(live + es)
    ensures LineRight(st, StampFrom(es[0]), cond, live, es)
  {
    var at := StampFrom(es[0]);
    StampDrawsTheLine(st, cond, live, es);
    NoneSelected(st, cond, live);
    LineFromSlot(at, cond, live);
  }

  lemma OldStartExact(st: Stamp, at: Stamp, cond: Payload -> bool, live: seq<Entry>, es: seq<Entry>,
                      counter: nat, before: Timeval, time: Timeval)
    requires !Unstamped(st) && es != [] && BatchEntries(es, counter, time) && StartFits(st, before) && !Less(time, before)
    ensures LineRight(st, at, cond, live, es)
            <==> !(exists i :: 0 <= i < |es| && cond(es[i].data) && es[i].time == st.start && es[i].counter < st.startId)
  {
    LessTransitive(st.start, before, time);
    forall i | 0 <= i < |es|
      ensures Before(st, es[i]) <==> es[i].time == st.start && es[i].counter < st.startId
    {
      assert BatchEntry(es[i], counter + i, time);
    }
  }

  /** When batch times strictly increase, only a batch dropped by a full ring spoils a report. */
  lemma StrictTimesSpoilNothing(st: Stamp, cond: Payload -> bool, full: bool, behind: Stamp, live: seq<Entry>, es: seq<Entry>,
                                counter: nat, before: Timeval, time: Timeval)
    requires StartFits(st, before) && Less(before, time) && BatchEntries(es, counter, time)
    ensures Spoils(st, cond, full, behind, live, es) ==> es == [] && full
  {
    assert forall i :: 0 <= i < |es| ==> BatchEntry(es[i], counter + i, time);
    if es != [] && !Unstamped(st) { LessIrreflexive(st.start, before, time); }
  }

  lemma LessIrreflexive(a: Timeval, b: Timeval, c: Timeval)
    requires !Less(b, a) && Less(b, c)
    ensures a != c
  {
  }

  lemma OfferFits(at: Stamp, full: bool, behind: Stamp, live: seq<Entry>, es: seq<Entry>, counter: nat, before: Timeval, time: Timeval)
    requires Offers(at, full, behind, es, counter, time) && BehindFits(behind, live, counter, before)
    requires BatchEntries(es, counter, time) && !Less(time, before)
    ensures StartFits(at, time)
  {
    if es != [] {
      assert BatchEntry(es[0], counter + 0, time);
    } else if full && !Unstamped(behind) {
      LessTransitive(behind.start, before, time);
    }
  }

  /** A start not ahead of the counter, as every admitted batch gives, is never spoiled later. */
  lemma GoodStartStaysGood(st: Stamp, cond: Payload -> bool, full: bool, behind: Stamp, live: seq<Entry>, es: seq<Entry>,
                           counter: nat, time: Timeval)
    requires !Unstamped(st) && st.startId <= counter && BatchEntries(es, counter, time)
    ensures !Spoils(st, cond, full, behind, live, es)
  {
    assert forall i :: 0 <= i < |es| ==> BatchEntry(es[i], counter + i, time);
  }
}
