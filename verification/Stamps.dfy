/** Which live requests a report counts: those admitted since the report was stamped, as far
    as they meet its conditions. */
module Stamps {
  import opened Time
  import opened Types

  /** A report's start: time and counter of the first request it was given. Zero seconds
      means not stamped yet. */
  datatype Stamp = Stamp(start: Timeval, startId: nat)

  predicate Unstamped(st: Stamp) {
    st.start.sec == 0
  }

  /** The delete check: was the request admitted before the report started? */
  predicate Before(st: Stamp, e: Entry) {
    Less(e.time, st.start) || (e.time == st.start && st.startId > e.counter)
  }

  ghost predicate Counted(st: Stamp, cond: Payload -> bool, e: Entry) {
    !Unstamped(st) && !Before(st, e) && cond(e.data)
  }

  /** The counted ones among live requests, oldest first. */
  ghost function Selected(st: Stamp, cond: Payload -> bool, live: seq<Entry>): seq<Entry> {
    if live == [] then []
    else (if Counted(st, cond, live[0]) then [live[0]] else []) + Selected(st, cond, live[1..])
  }

  lemma {:induction false} SelectedConcat(st: Stamp, cond: Payload -> bool, a: seq<Entry>, b: seq<Entry>)
    ensures Selected(st, cond, a + b) == Selected(st, cond, a) + Selected(st, cond, b)
  {
    if a == [] {
      assert a + b == b;
    } else {
      assert (a + b)[1..] == a[1..] + b;
      SelectedConcat(st, cond, a[1..], b);
    }
  }

  lemma SelectedOne(st: Stamp, cond: Payload -> bool, e: Entry)
    ensures Selected(st, cond, [e]) == if Counted(st, cond, e) then [e] else []
  {
    assert [e][1..] == [];
  }

  lemma {:induction false} NoneSelected(st: Stamp, cond: Payload -> bool, live: seq<Entry>)
    requires forall i :: 0 <= i < |live| ==> !Counted(st, cond, live[i])
    ensures Selected(st, cond, live) == []
  {
    if live != [] {
      assert forall i :: 0 <= i < |live[1..]| ==> live[1..][i] == live[i + 1];
      NoneSelected(st, cond, live[1..]);
    }
  }

  /** Requests in admission order: times never decrease, counters strictly increase, and the
      clock never shows second zero. */
  ghost predicate InOrder(live: seq<Entry>) {
    && (forall i :: 0 <= i < |live| ==> live[i].time.sec > 0)
    && (forall i, j :: 0 <= i < j < |live| ==> Ordered(live, i, j))
  }

  ghost predicate Ordered(live: seq<Entry>, i: nat, j: nat)
    requires i < |live| && j < |live|
  {
    !Less(live[j].time, live[i].time) && live[i].counter < live[j].counter
  }

  /** The stamp is not ahead of any request still to come. */
  ghost predicate StampBelow(st: Stamp, e: Entry) {
    !Unstamped(st) ==> !Less(e.time, st.start) && st.startId <= e.counter
  }

  ghost predicate AllAbove(st: Stamp, es: seq<Entry>) {
    forall i :: 0 <= i < |es| ==> StampBelow(st, es[i])
  }

  function StampFrom(e: Entry): Stamp {
    Stamp(e.time, e.counter)
  }

  /** A report that has no start yet takes the one it is offered. */
  function Stamped(st: Stamp, at: Stamp): Stamp {
    if Unstamped(st) then at else st
  }

  /** Stamping from the batch itself draws the line exactly between the requests already live
      and the batch: the report keeps counting what it counted, and will count the batch. */
  lemma StampDrawsTheLine(st: Stamp, cond: Payload -> bool, live: seq<Entry>, es: seq<Entry>)
    requires es != [] && InOrder(live + es) && AllAbove(st, es)
    ensures var st' := Stamped(st, StampFrom(es[0]));
            && !Unstamped(st') && AllAbove(st', es)
            && Selected(st', cond, live) == Selected(st, cond, live)
            && (forall i :: 0 <= i < |es| ==> !Before(st', es[i]))
  {
    var all := live + es;
    var st' := Stamped(st, StampFrom(es[0]));
    assert all[|live|] == es[0];
    forall i | 0 <= i < |es|
      ensures StampBelow(st', es[i]) && !Before(st', es[i])
    {
      assert es[i] == all[|live| + i];
      assert i > 0 ==> Ordered(all, |live|, |live| + i);
      assert StampBelow(st, es[i]);
    }
    if Unstamped(st) {
      forall i | 0 <= i < |live|
        ensures !Counted(st', cond, live[i]) && !Counted(st, cond, live[i])
      {
        assert all[i] == live[i];
        assert Ordered(all, i, |live|);
        LessTotal(live[i].time, es[0].time);
      }
      NoneSelected(st, cond, live);
      NoneSelected(st', cond, live);
    }
  }

  lemma LessTotal(a: Timeval, b: Timeval)
    ensures Less(a, b) || Less(b, a) || a == b
  {
  }

  // When is a start, taken from whatever it was offered, the right one?

  /** The requests a report adds: all that meet its conditions. */
  ghost function Matching(cond: Payload -> bool, es: seq<Entry>): seq<Entry> {
    if es == [] then [] else (if cond(es[0].data) then [es[0]] else []) + Matching(cond, es[1..])
  }

  lemma {:induction false} MatchingNext(cond: Payload -> bool, es: seq<Entry>, e: Entry)
    ensures Matching(cond, es + [e]) == Matching(cond, es) + if cond(e.data) then [e] else []
  {
    if es == [] {
      assert (es + [e])[1..] == [];
    } else {
      assert (es + [e])[1..] == es[1..] + [e];
      MatchingNext(cond, es[1..], e);
    }
  }

  /** After the batch `es` the start from `at` counts what the report has added: none of the
      requests that were live before the report had a start, and every matching one of the batch. */
  ghost predicate LineRight(st: Stamp, at: Stamp, cond: Payload -> bool, live: seq<Entry>, es: seq<Entry>) {
    && (Unstamped(st) ==> forall i :: 0 <= i < |live| ==> !Counted(Stamped(st, at), cond, live[i]))
    && (forall i :: 0 <= i < |es| && cond(es[i].data) ==> Counted(Stamped(st, at), cond, es[i]))
  }

  lemma {:induction false} AllSelected(st: Stamp, cond: Payload -> bool, es: seq<Entry>)
    requires forall i :: 0 <= i < |es| && cond(es[i].data) ==> Counted(st, cond, es[i])
    ensures Selected(st, cond, es) == Matching(cond, es)
  {
    if es != [] {
      assert forall i :: 0 <= i < |es[1..]| ==> es[1..][i] == es[i + 1];
      AllSelected(st, cond, es[1..]);
    }
  }

  lemma {:induction false} SelectedIsMatching(st: Stamp, cond: Payload -> bool, es: seq<Entry>)
    ensures |Selected(st, cond, es)| <= |Matching(cond, es)|
    ensures (exists i :: 0 <= i < |es| && cond(es[i].data) && !Counted(st, cond, es[i])) ==>
              |Selected(st, cond, es)| < |Matching(cond, es)|
  {
    if es != [] {
      SelectedIsMatching(st, cond, es[1..]);
      if i :| 0 <= i < |es| && cond(es[i].data) && !Counted(st, cond, es[i]) {
        assert i > 0 ==> es[1..][i - 1] == es[i];
      }
    }
  }

  lemma {:induction false} SomeSelected(st: Stamp, cond: Payload -> bool, live: seq<Entry>, i: nat)
    requires i < |live| && Counted(st, cond, live[i])
    ensures Selected(st, cond, live) != []
  {
    if i > 0 { SomeSelected(st, cond, live[1..], i - 1); }
  }

  /** A right line makes what is counted equal to what was added; a wrong one makes the two
      differ in number. A nonempty batch offers its own first request. */
  lemma LineExact(st: Stamp, at: Stamp, cond: Payload -> bool, live: seq<Entry>, es: seq<Entry>)
    requires InOrder(live + es) && (es != [] && Unstamped(st) ==> at == StampFrom(es[0]))
    ensures var counted := Selected(Stamped(st, at), cond, live + es);
            var added := Selected(st, cond, live) + Matching(cond, es);
            && (LineRight(st, at, cond, live, es) ==> counted == added)
            && (!LineRight(st, at, cond, live, es) ==> |counted| != |added|)
  {
    var st' := Stamped(st, at);
    SelectedConcat(st', cond, live, es);
    if Unstamped(st) {
      NoneSelected(st, cond, live);
      if es == [] {
        LineFromSlot(st', cond, live);
      } else {
        StampDrawsTheLine(st, cond, live, es);
        assert LineRight(st, at, cond, live, es) by {
          forall i | 0 <= i < |live| ensures !Counted(st', cond, live[i]) {
            if Counted(st', cond, live[i]) { SomeSelected(st', cond, live, i); }
          }
        }
        AllSelected(st', cond, es);
      }
    } else {
      SelectedIsMatching(st, cond, es);
      if LineRight(st, at, cond, live, es) { AllSelected(st, cond, es); }
    }
  }

  lemma LineFromSlot(st: Stamp, cond: Payload -> bool, live: seq<Entry>)
    ensures (forall i :: 0 <= i < |live| ==> !Counted(st, cond, live[i])) <==> Selected(st, cond, live) == []
  {
    if forall i :: 0 <= i < |live| ==> !Counted(st, cond, live[i]) {
      NoneSelected(st, cond, live);
    } else {
      var i :| 0 <= i < |live| && Counted(st, cond, live[i]);
      SomeSelected(st, cond, live, i);
    }
  }

  // The slot at `in` after a batch of which nothing was admitted.

  /** Not later than any live request and ahead of none of their counters. */
  ghost predicate Precedes(st: Stamp, live: seq<Entry>) {
    forall i :: 0 <= i < |live| ==> !Less(live[i].time, st.start) && st.startId < live[i].counter
  }

  /** A full ring: the slot at `in` holds nothing yet, or the last request that expired. A report
      that takes its start from there is right exactly if no live request matches: otherwise it
      will subtract requests that it never added. */
  lemma FullRingStartExact(st: Stamp, at: Stamp, cond: Payload -> bool, live: seq<Entry>)
    requires Unstamped(st) && (Unstamped(at) || Precedes(at, live))
    ensures LineRight(st, at, cond, live, []) <==> Unstamped(at) || forall i :: 0 <= i < |live| ==> !cond(live[i].data)
  {
    if !Unstamped(at) {
      forall i | 0 <= i < |live| ensures Counted(at, cond, live[i]) <==> cond(live[i].data) {
        LessTotal(live[i].time, at.start);
      }
    }
  }

  /** All copies failed: the slot at `in` holds the last copy of the first job, which had `n`
      requests, with the batch's time and counter `base + n - 1`. The start counts no live
      request. It misses exactly those later requests that come at the very same time among the
      next `n - 1` counters: the report adds them and never subtracts them. */
  lemma FailedBatchStartExact(st: Stamp, time: Timeval, base: nat, n: nat, cond: Payload -> bool, live: seq<Entry>)
    requires Unstamped(st) && time.sec > 0 && n > 0
    requires forall i :: 0 <= i < |live| ==> !Less(time, live[i].time) && live[i].counter < base
    ensures var at := Stamp(time, base + n - 1);
            && LineRight(st, at, cond, live, [])
            && (forall e: Entry :: !Less(e.time, time) ==> (Before(at, e) <==> e.time == time && e.counter < base + n - 1))
  {
    var at := Stamp(time, base + n - 1);
    forall i | 0 <= i < |live| ensures Before(at, live[i]) {
      LessTotal(live[i].time, time);
    }
  }
}
