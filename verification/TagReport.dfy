/** Tag reports: groups of timers by tag value, with requests counted once per group. The
    once-per-request test remembers ring slot numbers, which are reused; it is sound because
    requests expire in the order they came. */
module TagReport {
  import opened Time
  import opened Types
  import opened Histogram
  import opened TagTotals

  /** A timer that falls into group `key`. */
  datatype Touch<K> = Touch(key: K, timer: Timer)

  /** A request as a tag report sees it: its ring slot and its matching timers. */
  datatype Req<K> = Req(slot: nat, touches: seq<Touch<K>>)

  datatype Group = Group(reqCount: int, totals: Totals, prevAdd: int, prevDel: int)

  // ---- What the report functions do with one timer ----

  function AddTouch<K(==)>(sc: Scale, m: map<K, Group>, slot: nat, t: Touch<K>): map<K, Group>
    requires GoodScale(sc)
  {
    if t.key !in m then
      m[t.key := Group(1, FirstTotals(sc, t.timer), slot, -1)]
    else
      var g := m[t.key];
      var g1 := g.(totals := g.totals.Add(sc, t.timer));
      m[t.key := if slot != g.prevAdd then g1.(reqCount := g.reqCount + 1, prevAdd := slot) else g1]
  }

  function TakeTouch<K(==)>(sc: Scale, m: map<K, Group>, slot: nat, t: Touch<K>): map<K, Group>
    requires GoodScale(sc)
  {
    if t.key !in m then m
    else
      var g := m[t.key];
      var g1 := if slot != g.prevDel then g.(reqCount := g.reqCount - 1, prevDel := slot) else g;
      if g1.reqCount == 0 then m - {t.key}
      else m[t.key := g1.(totals := g1.totals.Take(sc, t.timer))]
  }

  function AddTouches<K(==)>(sc: Scale, m: map<K, Group>, slot: nat, ts: seq<Touch<K>>): map<K, Group>
    requires GoodScale(sc)
  {
    if ts == [] then m else AddTouch(sc, AddTouches(sc, m, slot, ts[..|ts| - 1]), slot, ts[|ts| - 1])
  }

  function TakeTouches<K(==)>(sc: Scale, m: map<K, Group>, slot: nat, ts: seq<Touch<K>>): map<K, Group>
    requires GoodScale(sc)
  {
    if ts == [] then m else TakeTouch(sc, TakeTouches(sc, m, slot, ts[..|ts| - 1]), slot, ts[|ts| - 1])
  }

  // ---- The reference: what the live requests say about group k ----

  ghost function TimersFor<K>(ts: seq<Touch<K>>, k: K): seq<Timer> {
    if ts == [] then [] else (if ts[0].key == k then [ts[0].timer] else []) + TimersFor(ts[1..], k)
  }

  /** What the live requests say about one group: how many of them have a timer in it, those
      timers in order, and the slots of the newest and the oldest of these requests. */
  datatype Ref = Ref(num: nat, timers: seq<Timer>, last: int, first: int)

  const NOBODY := Ref(0, [], -1, -1)

  /** An older request in front. */
  ghost function Older(slot: nat, ts: seq<Timer>, r: Ref): Ref {
    if ts == [] then r
    else Ref(r.num + 1, ts + r.timers, if r.num > 0 then r.last else slot, slot)
  }

  /** A newer request behind. */
  ghost function Newer(r: Ref, slot: nat, ts: seq<Timer>): Ref {
    if ts == [] then r
    else Ref(r.num + 1, r.timers + ts, slot, if r.num > 0 then r.first else slot)
  }

  ghost function RefOf<K>(live: seq<Req<K>>, k: K): Ref {
    if live == [] then NOBODY else Older(live[0].slot, TimersFor(live[0].touches, k), RefOf(live[1..], k))
  }

  /** Group `g` totals the timers and counts the requests. It remembers the slot of the
      newest request, and any but the slot of the oldest. */
  ghost predicate GroupIs(sc: Scale, g: Group, r: Ref)
    requires GoodScale(sc)
  {
    g.reqCount == r.num && TotalsAre(sc, g.totals, r.timers) && g.prevAdd == r.last && g.prevDel != r.first
  }

  ghost predicate KeyIs<K>(sc: Scale, m: map<K, Group>, r: Ref, k: K)
    requires GoodScale(sc)
  {
    if r.num == 0 then k !in m else k in m && GroupIs(sc, m[k], r)
  }

  /** The report is the fold over the live requests. */
  ghost predicate Represents<K(!new)>(sc: Scale, m: map<K, Group>, live: seq<Req<K>>)
    requires GoodScale(sc)
  {
    forall k :: KeyIs(sc, m, RefOf(live, k), k)
  }

  ghost predicate GoodTouches<K>(ts: seq<Touch<K>>) {
    forall i :: 0 <= i < |ts| ==> GoodTimer(ts[i].timer)
  }

  // ---- Appending a request ----

  lemma {:induction false} TimersForConcat<K>(a: seq<Touch<K>>, b: seq<Touch<K>>, k: K)
    ensures TimersFor(a + b, k) == TimersFor(a, k) + TimersFor(b, k)
  {
    if a == [] {
      assert a + b == b;
    } else {
      var ab, head := a + b, if a[0].key == k then [a[0].timer] else [];
      assert ab[0] == a[0] && ab[1..] == a[1..] + b;
      TimersForConcat(a[1..], b, k);
      assert head + (TimersFor(a[1..], k) + TimersFor(b, k)) == (head + TimersFor(a[1..], k)) + TimersFor(b, k);
    }
  }

  lemma TimersForOne<K>(t: Touch<K>, k: K)
    ensures TimersFor([t], k) == if t.key == k then [t.timer] else []
  {
    assert [t][1..] == [];
  }

  lemma {:induction false} RefNewest<K>(live: seq<Req<K>>, r: Req<K>, k: K)
    ensures RefOf(live + [r], k) == Newer(RefOf(live, k), r.slot, TimersFor(r.touches, k))
  {
    if live == [] {
      assert (live + [r])[1..] == [];
    } else {
      assert (live + [r])[1..] == live[1..] + [r];
      RefNewest(live[1..], r, k);
      RefSane(live[1..], k);
      NewerOlder(live[0].slot, TimersFor(live[0].touches, k), RefOf(live[1..], k), r.slot, TimersFor(r.touches, k));
    }
  }

  lemma NewerOlder(s: nat, ts: seq<Timer>, r: Ref, s': nat, ts': seq<Timer>)
    requires r.num == 0 ==> r == NOBODY
    ensures Older(s, ts, Newer(r, s', ts')) == Newer(Older(s, ts, r), s', ts')
  {
    assert ts + (r.timers + ts') == (ts + r.timers) + ts';
  }

  ghost predicate FreshSlot<K>(live: seq<Req<K>>, slot: nat) {
    forall i :: 0 <= i < |live| ==> live[i].slot != slot
  }

  /** The remembered slots are slots of live requests. */
  lemma {:induction false} RefSane<K>(live: seq<Req<K>>, k: K)
    ensures var r := RefOf(live, k);
            if r.num == 0 then r == NOBODY
            else forall slot: nat :: FreshSlot(live, slot) ==> slot != r.last && slot != r.first
  {
    if live != [] {
      RefSane(live[1..], k);
      forall slot: nat | FreshSlot(live, slot)
        ensures live[0].slot != slot && FreshSlot(live[1..], slot)
      {
        assert forall i :: 0 <= i < |live[1..]| ==> live[1..][i] == live[i + 1];
      }
    }
  }

  /** One more timer of the newest request: the group counts the request on its first timer
      only. The remembered slot belongs to a request that is still live, so it cannot be the
      newest request's slot unless it is that request. */
  lemma TouchAdded<K>(sc: Scale, m: map<K, Group>, r: Ref, slot: nat, mine: seq<Timer>, t: Touch<K>)
    requires GoodScale(sc) && GoodTimer(t.timer) && (r.num == 0 ==> r == NOBODY) && (r.num > 0 ==> r.last != slot)
    requires KeyIs(sc, m, Newer(r, slot, mine), t.key)
    ensures KeyIs(sc, AddTouch(sc, m, slot, t), Newer(r, slot, mine + [t.timer]), t.key)
  {
    var all := Newer(r, slot, mine).timers;
    assert Newer(r, slot, mine + [t.timer]).timers == all + [t.timer];
    if t.key !in m {
      TotalsFirst(sc, t.timer);
      assert all + [t.timer] == [t.timer];
    } else {
      TotalsAdd(sc, m[t.key].totals, all, t.timer);
    }
  }

  lemma OtherKeyAdded<K>(sc: Scale, m: map<K, Group>, slot: nat, t: Touch<K>, r: Ref, k: K)
    requires GoodScale(sc) && k != t.key && KeyIs(sc, m, r, k)
    ensures KeyIs(sc, AddTouch(sc, m, slot, t), r, k)
  {
  }

  /** Admission: adding a request's timers one by one extends the fold by that request. */
  lemma {:induction false} AddExtendsFold<K(!new)>(sc: Scale, m: map<K, Group>, live: seq<Req<K>>, slot: nat, ts: seq<Touch<K>>)
    requires GoodScale(sc) && Represents(sc, m, live) && FreshSlot(live, slot) && GoodTouches(ts)
    ensures Represents(sc, AddTouches(sc, m, slot, ts), live + [Req(slot, ts)])
    decreases |ts|
  {
    if ts == [] {
      forall k
        ensures KeyIs(sc, m, RefOf(live + [Req(slot, [])], k), k)
      {
        assert KeyIs(sc, m, RefOf(live, k), k);
        RefNewest(live, Req(slot, []), k);
      }
    } else {
      var n := |ts| - 1;
      AddExtendsFold(sc, m, live, slot, ts[..n]);
      var m1 := AddTouches(sc, m, slot, ts[..n]);
      forall k
        ensures KeyIs(sc, AddTouches(sc, m, slot, ts), RefOf(live + [Req(slot, ts)], k), k)
      {
        AddKeepsKey(sc, m1, live, slot, ts, k);
      }
    }
  }

  lemma AddKeepsKey<K(!new)>(sc: Scale, m: map<K, Group>, live: seq<Req<K>>, slot: nat, ts: seq<Touch<K>>, k: K)
    requires GoodScale(sc) && FreshSlot(live, slot) && GoodTouches(ts) && ts != []
    requires KeyIs(sc, m, RefOf(live + [Req(slot, ts[..|ts| - 1])], k), k)
    ensures KeyIs(sc, AddTouch(sc, m, slot, ts[|ts| - 1]), RefOf(live + [Req(slot, ts)], k), k)
  {
    var n := |ts| - 1;
    var r, mine := RefOf(live, k), TimersFor(ts[..n], k);
    assert ts == ts[..n] + [ts[n]];
    TimersForConcat(ts[..n], [ts[n]], k);
    TimersForOne(ts[n], k);
    RefNewest(live, Req(slot, ts[..n]), k);
    RefNewest(live, Req(slot, ts), k);
    RefSane(live, k);
    if ts[n].key == k {
      TouchAdded(sc, m, r, slot, mine, ts[n]);
    } else {
      assert mine + [] == mine;
      OtherKeyAdded(sc, m, slot, ts[n], Newer(r, slot, mine), k);
    }
  }

  /** Group `k` while its oldest request, in `slot` with timers `mine`, is being taken out:
      `done` of these timers are already subtracted. From the first one on the request is no
      longer counted, and the group is gone if nobody else has a timer in it. */
  ghost predicate Draining<K>(sc: Scale, m: map<K, Group>, slot: nat, mine: seq<Timer>, done: nat, r: Ref, k: K)
    requires GoodScale(sc) && done <= |mine|
  {
    if done == 0 then KeyIs(sc, m, Older(slot, mine, r), k)
    else if r.num == 0 then k !in m
    else
      && k in m
      && m[k].reqCount == r.num && TotalsAre(sc, m[k].totals, mine[done..] + r.timers)
      && m[k].prevAdd == r.last && m[k].prevDel == slot
  }

  lemma TouchTaken<K>(sc: Scale, m: map<K, Group>, slot: nat, mine: seq<Timer>, done: nat, r: Ref, t: Touch<K>)
    requires GoodScale(sc) && GoodTimer(t.timer) && done < |mine| && mine[done] == t.timer
    requires Draining(sc, m, slot, mine, done, r, t.key)
    ensures Draining(sc, TakeTouch(sc, m, slot, t), slot, mine, done + 1, r, t.key)
  {
    if r.num > 0 {
      var rest := mine[done + 1..] + r.timers;
      assert mine[done..] + r.timers == [t.timer] + rest;
      assert done == 0 ==> mine + r.timers == [t.timer] + rest;
      TotalsTake(sc, m[t.key].totals, rest, t.timer);
    }
  }

  lemma OtherKeyTaken<K>(sc: Scale, m: map<K, Group>, slot: nat, t: Touch<K>, mine: seq<Timer>, done: nat, r: Ref, k: K)
    requires GoodScale(sc) && done <= |mine| && k != t.key && Draining(sc, m, slot, mine, done, r, k)
    ensures Draining(sc, TakeTouch(sc, m, slot, t), slot, mine, done, r, k)
  {
  }

  lemma {:induction false} DrainKey<K(!new)>(sc: Scale, m: map<K, Group>, rest: seq<Req<K>>, slot: nat, ts: seq<Touch<K>>, i: nat, k: K)
    requires GoodScale(sc) && GoodTouches(ts) && i <= |ts|
    requires KeyIs(sc, m, RefOf([Req(slot, ts)] + rest, k), k)
    ensures var mine := TimersFor(ts, k);
            var done := |TimersFor(ts[..i], k)|;
            && done <= |mine|
            && Draining(sc, TakeTouches(sc, m, slot, ts[..i]), slot, mine, done, RefOf(rest, k), k)
  {
    var mine, r := TimersFor(ts, k), RefOf(rest, k);
    assert ts == ts[..i] + ts[i..];
    TimersForConcat(ts[..i], ts[i..], k);
    if i == 0 {
      assert ([Req(slot, ts)] + rest)[1..] == rest;
    } else {
      DrainKey(sc, m, rest, slot, ts, i - 1, k);
      var t := ts[i - 1];
      assert ts[..i] == ts[..i - 1] + [t] && ts[..i][..i - 1] == ts[..i - 1];
      TimersForConcat(ts[..i - 1], [t], k);
      TimersForOne(t, k);
      var m1, done := TakeTouches(sc, m, slot, ts[..i - 1]), |TimersFor(ts[..i - 1], k)|;
      if t.key == k {
        assert mine[done] == t.timer;
        TouchTaken(sc, m1, slot, mine, done, r, t);
      } else {
        OtherKeyTaken(sc, m1, slot, t, mine, done, r, k);
      }
    }
  }

  /** Expiry: subtracting the timers of the oldest request leaves the fold over the others.
      The slot remembered from the previous expiry is not this request's, because the
      request that had it and this one were live together. */
  lemma TakeShrinksFold<K(!new)>(sc: Scale, m: map<K, Group>, rest: seq<Req<K>>, slot: nat, ts: seq<Touch<K>>)
    requires GoodScale(sc) && Represents(sc, m, [Req(slot, ts)] + rest) && FreshSlot(rest, slot) && GoodTouches(ts)
    ensures Represents(sc, TakeTouches(sc, m, slot, ts), rest)
  {
    forall k
      ensures KeyIs(sc, TakeTouches(sc, m, slot, ts), RefOf(rest, k), k)
    {
      assert KeyIs(sc, m, RefOf([Req(slot, ts)] + rest, k), k);
      DrainKey(sc, m, rest, slot, ts, |ts|, k);
      assert ts[..|ts|] == ts;
      RefSane(rest, k);
      var mine := TimersFor(ts, k);
      assert mine[|mine|..] + RefOf(rest, k).timers == RefOf(rest, k).timers;
    }
  }

  lemma OneTouch<K>(sc: Scale, m: map<K, Group>, slot: nat, t: Touch<K>)
    requires GoodScale(sc)
    ensures AddTouches(sc, m, slot, [t]) == AddTouch(sc, m, slot, t)
    ensures TakeTouches(sc, m, slot, [t]) == TakeTouch(sc, m, slot, t)
  {
    assert [t][..0] == [];
    assert AddTouches(sc, m, slot, []) == m && TakeTouches(sc, m, slot, []) == m;
  }

  /** Why the order matters: if the newest request left first, the request that takes its
      slot next would not be counted. */
  lemma NewestFirstMiscounts<K(!new)>(sc: Scale, k: K, t: Timer)
    requires GoodScale(sc)
    ensures var ts := [Touch(k, t)];
            var two := AddTouches(sc, AddTouches(sc, map[], 0, ts), 1, ts);
            var again := AddTouches(sc, TakeTouches(sc, two, 1, ts), 1, ts);
            && k in again && again[k].reqCount == 1
            && RefOf([Req(0, ts), Req(1, ts)], k).num == 2
  {
    var t1 := Touch(k, t);
    var none: map<K, Group> := map[];
    var one := AddTouch(sc, none, 0, t1);
    var two := AddTouch(sc, one, 1, t1);
    var left := TakeTouch(sc, two, 1, t1);
    OneTouch(sc, none, 0, t1);
    OneTouch(sc, one, 1, t1);
    OneTouch(sc, two, 1, t1);
    OneTouch(sc, left, 1, t1);
    TwoRequests(t1);
  }

  lemma TwoRequests<K>(t: Touch<K>)
    ensures RefOf([Req(0, [t]), Req(1, [t])], t.key).num == 2
  {
    var a, b := Req(0, [t]), Req(1, [t]);
    TimersForOne(t, t.key);
    assert [a, b][1..] == [b] && [b][1..] == [];
    assert RefOf<K>([], t.key) == NOBODY;
    assert RefOf([b], t.key).num == 1;
  }
}
