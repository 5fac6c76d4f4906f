/** Which groups a tag report has, and what is in them, said of the live requests and their tags. */
module TagGroups {
  import opened Wrappers
  import opened Types
  import opened Histogram
  import opened Stamps
  import opened Tags
  import opened TagReportObject
  import opened TwoLevel
  import opened NestedMap
  import opened BaseReportObject
  import opened RequestTagReport
  import BaseReport
  import TagReport
  import TagTotals

  /** The first tag with the report's id has a value that the report files under `k`. */
  ghost predicate Files<K(!new)>(p: Payload, t: Timer, id: nat, key: (Payload, string) -> K, k: K) {
    exists v :: FirstTag(t.tags, id, v) && key(p, v) == k
  }

  /** The timers of a request that the report files under `k`, among the first `n`. */
  ghost function Filed<K(!new)>(p: Payload, ts: seq<Timer>, n: nat, id: nat, key: (Payload, string) -> K, k: K): seq<Timer>
    requires n <= |ts|
  {
    if n == 0 then [] else Filed(p, ts, n - 1, id, key, k) + if Files(p, ts[n - 1], id, key, k) then [ts[n - 1]] else []
  }

  /** Some timer of the request is filed under `k`. */
  ghost predicate Touching<K(!new)>(e: Entry, id: nat, key: (Payload, string) -> K, k: K) {
    exists j :: 0 <= j < |e.timers| && Files(e.data, e.timers[j], id, key, k)
  }

  lemma {:induction false} FiledExactly<K(!new)>(p: Payload, ts: seq<Timer>, n: nat, id: nat, key: (Payload, string) -> K, k: K)
    requires n <= |ts|
    ensures TagReport.TimersFor(Touches(p, ts, n, id, key), k) == Filed(p, ts, n, id, key, k)
  {
    if n > 0 {
      FiledExactly(p, ts, n - 1, id, key, k);
      var t := ts[n - 1];
      TagReport.TimersForConcat(Touches(p, ts, n - 1, id, key), TouchOf(p, t, id, key), k);
      TouchFiles(p, t, id, key, k);
    }
  }

  lemma {:induction false} AnyFiled<K(!new)>(p: Payload, ts: seq<Timer>, n: nat, id: nat, key: (Payload, string) -> K, k: K)
    requires n <= |ts|
    ensures Filed(p, ts, n, id, key, k) != [] <==> exists j :: 0 <= j < n && Files(p, ts[j], id, key, k)
  {
    if n > 0 { AnyFiled(p, ts, n - 1, id, key, k); }
  }

  lemma TouchFiles<K(!new)>(p: Payload, t: Timer, id: nat, key: (Payload, string) -> K, k: K)
    ensures TagReport.TimersFor(TouchOf(p, t, id, key), k) == if Files(p, t, id, key, k) then [t] else []
  {
    TagValueIsFirst(t.tags, id);
    match TagValue(t.tags, id) {
      case None =>
      case Some(v) => TagReport.TimersForOne(TagReport.Touch(key(p, v), t), k);
    }
  }

  /** Positions of the counted requests, among the first `n`, that have a timer in group `k`. */
  ghost function Hitting<K(!new)>(st: Stamp, cond: Payload -> bool, live: seq<Entry>, n: nat, id: nat, key: (Payload, string) -> K, k: K): set<nat>
    requires n <= |live|
  {
    set i: nat | i < n && Counted(st, cond, live[i]) && Touching(live[i], id, key, k)
  }

  /** The timers of group `k`, in order. */
  ghost function InGroup<K(!new)>(st: Stamp, cond: Payload -> bool, live: seq<Entry>, n: nat, id: nat, key: (Payload, string) -> K, k: K): seq<Timer>
    requires n <= |live|
  {
    if n == 0 then [] else
      var e := live[n - 1];
      InGroup(st, cond, live, n - 1, id, key, k) +
      if Counted(st, cond, e) then Filed(e.data, e.timers, |e.timers|, id, key, k) else []
  }

  lemma {:induction false} RefExactly<K(!new)>(st: Stamp, cond: Payload -> bool, live: seq<Entry>, n: nat, id: nat, key: (Payload, string) -> K, k: K)
    requires n <= |live|
    ensures var ref := TagReport.RefOf(Reqs(Selected(st, cond, live[..n]), id, key), k);
            && ref.num == |Hitting(st, cond, live, n, id, key, k)|
            && ref.timers == InGroup(st, cond, live, n, id, key, k)
  {
    if n == 0 {
      assert Hitting(st, cond, live, 0, id, key, k) == {};
    } else {
      RefExactly(st, cond, live, n - 1, id, key, k);
      var e := live[n - 1];
      assert live[..n] == live[..n - 1] + [e];
      SelectedConcat(st, cond, live[..n - 1], [e]);
      SelectedOne(st, cond, e);
      HittingNext(st, cond, live, n - 1, id, key, k);
      var es := Selected(st, cond, live[..n - 1]);
      if Counted(st, cond, e) {
        RefNext(es, e, id, key, k);
        AnyFiled(e.data, e.timers, |e.timers|, id, key, k);
      } else {
        assert es + [] == es;
      }
    }
  }

  lemma RefNext<K(!new)>(es: seq<Entry>, e: Entry, id: nat, key: (Payload, string) -> K, k: K)
    ensures TagReport.RefOf(Reqs(es + [e], id, key), k)
         == TagReport.Newer(TagReport.RefOf(Reqs(es, id, key), k), e.slot, Filed(e.data, e.timers, |e.timers|, id, key, k))
  {
    assert Reqs(es + [e], id, key) == Reqs(es, id, key) + [ReqOf(e, id, key)];
    TagReport.RefNewest(Reqs(es, id, key), ReqOf(e, id, key), k);
    FiledExactly(e.data, e.timers, |e.timers|, id, key, k);
  }

  lemma HittingNext<K(!new)>(st: Stamp, cond: Payload -> bool, live: seq<Entry>, n: nat, id: nat, key: (Payload, string) -> K, k: K)
    requires n < |live|
    ensures |Hitting(st, cond, live, n + 1, id, key, k)|
         == |Hitting(st, cond, live, n, id, key, k)| + if Counted(st, cond, live[n]) && Touching(live[n], id, key, k) then 1 else 0
  {
    var before := Hitting(st, cond, live, n, id, key, k);
    assert Hitting(st, cond, live, n + 1, id, key, k)
        == if Counted(st, cond, live[n]) && Touching(live[n], id, key, k) then before + {n} else before;
  }

  /** A group exists exactly if a counted live request has a timer in it; it counts the requests
      that have and totals their timers. */
  ghost predicate GroupExact<K(!new)>(sc: Scale, m: map<K, TagReport.Group>, st: Stamp, cond: Payload -> bool, live: seq<Entry>,
                                      id: nat, key: (Payload, string) -> K, k: K)
    requires GoodScale(sc)
  {
    && (k in m <==> exists i :: 0 <= i < |live| && Counted(st, cond, live[i]) && Touching(live[i], id, key, k))
    && (k in m ==> m[k].reqCount == |Hitting(st, cond, live, |live|, id, key, k)|
                   && TagTotals.TotalsAre(sc, m[k].totals, InGroup(st, cond, live, |live|, id, key, k)))
  }

  lemma FoldedGroups<K(!new)>(sc: Scale, m: map<K, TagReport.Group>, st: Stamp, cond: Payload -> bool, live: seq<Entry>,
                              id: nat, key: (Payload, string) -> K, k: K)
    requires GoodScale(sc) && Folded(sc, m, st, cond, live, id, key)
    ensures GroupExact(sc, m, st, cond, live, id, key, k)
  {
    assert live[..|live|] == live;
    RefExactly(st, cond, live, |live|, id, key, k);
    assert TagReport.KeyIs(sc, m, TagReport.RefOf(Reqs(Selected(st, cond, live), id, key), k), k);
    var hits := Hitting(st, cond, live, |live|, id, key, k);
    if i :| 0 <= i < |live| && Counted(st, cond, live[i]) && Touching(live[i], id, key, k) {
      assert i in hits;
    }
    if hits != {} {
      var i :| i in hits;
    }
  }

  /** The groups of the one-level report: a value is there exactly if a counted live request has a
      timer whose first tag with the report's id has that value. */
  lemma TagInfoGroups(r: TagInfo, live: seq<Entry>, value: string)
    requires r.Represents(live)
    ensures value in r.results <==>
              exists i, j :: 0 <= i < |live| && 0 <= j < |live[i].timers| && Counted(r.StampOf(), r.cond, live[i])
                             && FirstTag(live[i].timers[j].tags, r.tagId, value)
    ensures GroupExact(r.sc, r.results, r.StampOf(), r.cond, live, r.tagId, ByValue, value)
  {
    FoldedGroups(r.sc, r.results, r.StampOf(), r.cond, live, r.tagId, ByValue, value);
    if i :| 0 <= i < |live| && Counted(r.StampOf(), r.cond, live[i]) && Touching(live[i], r.tagId, ByValue, value) {
      var j :| 0 <= j < |live[i].timers| && Files(live[i].data, live[i].timers[j], r.tagId, ByValue, value);
      assert FirstTag(live[i].timers[j].tags, r.tagId, value);
    }
    if i, j :| 0 <= i < |live| && 0 <= j < |live[i].timers| && Counted(r.StampOf(), r.cond, live[i])
               && FirstTag(live[i].timers[j].tags, r.tagId, value) {
      assert Files(live[i].data, live[i].timers[j], r.tagId, ByValue, value);
      assert Touching(live[i], r.tagId, ByValue, value);
    }
  }

  /** The groups of the two-level report: script and value come from the same request. */
  lemma ScriptGroups(r: TagByScript, live: seq<Entry>, script: string, value: string)
    requires r.Represents(live)
    ensures script in r.results && value in r.results[script] <==>
              exists i, j :: 0 <= i < |live| && 0 <= j < |live[i].timers| && Counted(r.StampOf(), r.cond, live[i])
                             && live[i].data.script == script && FirstTag(live[i].timers[j].tags, r.tagId, value)
    ensures GroupExact(r.sc, r.flat, r.StampOf(), r.cond, live, r.tagId, ByScriptAndValue, (script, value))
  {
    var k := (script, value);
    FoldedGroups(r.sc, r.flat, r.StampOf(), r.cond, live, r.tagId, ByScriptAndValue, k);
    assert PairIs(r.flat, r.results, script, value);
    if i :| 0 <= i < |live| && Counted(r.StampOf(), r.cond, live[i]) && Touching(live[i], r.tagId, ByScriptAndValue, k) {
      var j :| 0 <= j < |live[i].timers| && Files(live[i].data, live[i].timers[j], r.tagId, ByScriptAndValue, k);
      assert FirstTag(live[i].timers[j].tags, r.tagId, value);
    }
    if i, j :| 0 <= i < |live| && 0 <= j < |live[i].timers| && Counted(r.StampOf(), r.cond, live[i])
               && live[i].data.script == script && FirstTag(live[i].timers[j].tags, r.tagId, value) {
      assert Files(live[i].data, live[i].timers[j], r.tagId, ByScriptAndValue, k);
      assert Touching(live[i], r.tagId, ByScriptAndValue, k);
    }
  }

  // Request tags.

  /** The requests of group `k`, among those a report counts. */
  lemma {:induction false} MembersExist<K>(sh: BaseReport.Layout<K>, st: Stamp, cond: Payload -> bool, live: seq<Entry>, k: K)
    ensures BaseReport.Members(sh, Payloads(Selected(st, cond, live)), k) != [] <==>
              exists i :: 0 <= i < |live| && Counted(st, cond, live[i]) && sh.key(live[i].data) == k
  {
    if live != [] {
      var rest := live[1..];
      MembersExist(sh, st, cond, rest, k);
      var ps := Payloads(Selected(st, cond, live));
      if Counted(st, cond, live[0]) {
        assert Selected(st, cond, live) == [live[0]] + Selected(st, cond, rest);
        assert ps[1..] == Payloads(Selected(st, cond, rest));
      } else {
        assert Selected(st, cond, live) == Selected(st, cond, rest);
      }
      assert forall i :: 0 <= i < |rest| ==> rest[i] == live[i + 1];
      if i :| 0 <= i < |rest| && Counted(st, cond, rest[i]) && sh.key(rest[i].data) == k {
        assert live[i + 1] == rest[i];
      }
    }
  }

  /** The groups of a base report: a key is there exactly if a counted live request has it. */
  lemma BaseGroups(r: Report, live: seq<Entry>, key: string)
    requires r.Represents(live) && r.shape.indexed
    ensures key in r.results <==>
              exists i :: 0 <= i < |live| && Counted(r.StampOf(), r.cond, live[i]) && r.shape.key(live[i].data) == key
  {
    MembersExist(r.shape, r.StampOf(), r.cond, live, key);
    assert BaseReport.KeyIs(r.shape, r.results, Payloads(Selected(r.StampOf(), r.cond, live)), key);
  }

  /** The groups of the request-tag report: host and value come from the same request, the value
      from its first tag with the report's name. */
  lemma HostGroups(r: TagByHost, live: seq<Entry>, host: string, value: string)
    requires r.Represents(live)
    ensures host in r.results && value in r.results[host] <==>
              exists i :: 0 <= i < |live| && Counted(r.StampOf(), r.cond, live[i])
                          && live[i].data.host == host && FirstTag(live[i].data.tags, r.name, value)
  {
    var k := (host, value);
    MembersExist(r.shape, r.StampOf(), r.wanted, live, k);
    assert PairIs(r.flat, r.results, host, value);
    assert BaseReport.KeyIs(r.shape, r.flat, Payloads(Selected(r.StampOf(), r.wanted, live)), k);
    forall i | 0 <= i < |live|
      ensures Counted(r.StampOf(), r.wanted, live[i]) && r.shape.key(live[i].data) == k
              <==> Counted(r.StampOf(), r.cond, live[i]) && live[i].data.host == host && FirstTag(live[i].data.tags, r.name, value)
    {
      TagValueIsFirst(live[i].data.tags, r.name);
    }
  }
}
