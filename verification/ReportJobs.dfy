/** The report jobs of a batch and of an expiry, over all reports of all shapes. */
module ReportJobs {
  import opened Time
  import opened Types
  import opened Stamps
  import opened BaseReport
  import opened BaseReportObject
  import opened TagReportObject
  import opened TwoLevel
  import opened History
  import RequestTagReport
  import TagReport
  import Histogram

  /** Requests without timers do not show in a tag report. */
  lemma {:induction false} NoTimersNoChange<K(!new)>(sc: Histogram.Scale, m: map<K, TagReport.Group>, st: Stamp, cond: Payload -> bool,
                                   live: seq<Entry>, es: seq<Entry>, n: nat, id: nat, key: (Payload, string) -> K)
    requires n <= |es| && Histogram.GoodScale(sc) && Folded(sc, m, st, cond, live, id, key)
    requires forall i :: 0 <= i < |es| ==> es[i].timers == []
    ensures Folded(sc, m, st, cond, live + es[..n], id, key)
  {
    if n == 0 {
      assert live + es[..0] == live;
    } else {
      NoTimersNoChange(sc, m, st, cond, live, es, n - 1, id, key);
      var e, before := es[n - 1], live + es[..n - 1];
      assert live + es[..n] == before + [e];
      SelectedConcat(st, cond, before, [e]);
      SelectedOne(st, cond, e);
      var ms := Selected(st, cond, before);
      if Counted(st, cond, e) {
        assert Reqs(ms + [e], id, key) == Reqs(ms, id, key) + [ReqOf(e, id, key)];
        forall k
          ensures TagReport.KeyIs(sc, m, TagReport.RefOf(Reqs(ms + [e], id, key), k), k)
        {
          TagReport.RefNewest(Reqs(ms, id, key), ReqOf(e, id, key), k);
          assert TagReport.KeyIs(sc, m, TagReport.RefOf(Reqs(ms, id, key), k), k);
        }
      } else {
        assert ms + [] == ms;
      }
    }
  }

  predicate AnyTimers(es: seq<Entry>) {
    exists i :: 0 <= i < |es| && es[i].timers != []
  }

  predicate AnyTags(es: seq<Entry>) {
    exists i :: 0 <= i < |es| && es[i].data.tags != []
  }

  /** Requests without tags do not show in a request-tag report. */
  lemma NoTagsNoChange(report: RequestTagReport.TagByHost, live: seq<Entry>, es: seq<Entry>)
    requires report.Represents(live) && forall i :: 0 <= i < |es| ==> es[i].data.tags == []
    ensures report.Represents(live + es)
  {
    SelectedConcat(report.StampOf(), report.wanted, live, es);
    NoneSelected(report.StampOf(), report.wanted, es);
    var ms := Selected(report.StampOf(), report.wanted, live);
    assert ms + [] == ms;
  }

  ghost predicate Distinct<T>(s: seq<T>) {
    forall i, j :: 0 <= i < j < |s| ==> s[i] != s[j]
  }

  ghost predicate BaseFits(r: Report, live: seq<Entry>, now: Timeval)
    reads r
  {
    r.Sound(live) && StartFits(r.StampOf(), now)
  }

  /** A report whose start was `st` and that was spoiled if `sp`, after it heard of a batch. */
  ghost predicate BaseHeard(r: Report, es: seq<Entry>, at: Stamp, live: seq<Entry>, time: Timeval, st: Stamp, sp: bool)
    reads r
  {
    && BaseFits(r, live + es, time) && r.StampOf() == Stamped(st, at)
    && (r.spoiled <==> sp || !LineRight(st, at, r.cond, live, es))
  }

  ghost predicate BaseWaits(r: Report, live: seq<Entry>, before: Timeval, st: Stamp, sp: bool)
    reads r
  {
    BaseFits(r, live, before) && r.StampOf() == st && r.spoiled == sp
  }

  method BaseAdd(r: Report, es: seq<Entry>, at: Stamp, ghost live: seq<Entry>, ghost before: Timeval, ghost time: Timeval)
    requires BaseFits(r, live, before) && GoodEntries(es) && InOrder(live + es) && !Less(time, before)
    requires (es != [] ==> at == StampFrom(es[0])) && StartFits(at, time)
    modifies r
    ensures BaseHeard(r, es, at, live, time, old(r.StampOf()), old(r.spoiled))
  {
    if !Unstamped(r.StampOf()) { LessTransitive(r.start, before, time); }
    r.AddBatch(es, at, live);
  }

  method BaseDelete(r: Report, es: seq<Entry>, ghost live: seq<Entry>, ghost now: Timeval)
    requires BaseFits(r, es + live, now) && GoodEntries(es)
    modifies r
    ensures BaseFits(r, live, now) && r.spoiled == old(r.spoiled) && r.StampOf() == old(r.StampOf())
  {
    r.DeleteBatch(es, live);
  }

  class BaseReports {
    const all: seq<Report>
    ghost const repr: set<object>

    ghost predicate Fit(live: seq<Entry>, now: Timeval)
      reads repr
    {
      Distinct(all) && (forall r :: r in all ==> r in repr) && forall i :: 0 <= i < |all| ==> BaseFits(all[i], live, now)
    }

    constructor (all: seq<Report>)
      ensures this.all == all && repr == set r | r in all
    {
      this.all := all;
      repr := set r | r in all;
    }

    ghost function Conds(): (cs: seq<Payload -> bool>)
      ensures |cs| == |all|
    {
      seq(|all|, i requires 0 <= i < |all| => all[i].cond)
    }

    /** The starts of the reports, and whether they are spoiled. */
    ghost predicate Marked(sts: seq<Stamp>, sps: seq<bool>)
      reads repr
    {
      && |sts| == |sps| == |all| && (forall r :: r in all ==> r in repr)
      && forall i :: 0 <= i < |all| ==> all[i].StampOf() == sts[i] && all[i].spoiled == sps[i]
    }

    /** Every base report hears of every batch; one without a start takes what `at` offers. */
    method Add(es: seq<Entry>, at: Stamp, ghost live: seq<Entry>, ghost before: Timeval, ghost time: Timeval,
               ghost sts: seq<Stamp>, ghost sps: seq<bool>)
      requires Fit(live, before) && GoodEntries(es) && InOrder(live + es) && !Less(time, before)
      requires (es != [] ==> at == StampFrom(es[0])) && StartFits(at, time) && Marked(sts, sps)
      modifies repr
      ensures Fit(live + es, time) && |sts| == |sps| == |all|
      ensures forall i :: 0 <= i < |all| ==> BaseHeard(all[i], es, at, live, time, sts[i], sps[i])
    {
      for i := 0 to |all|
        invariant AddedTo(i, es, at, live, before, time, sts, sps)
      {
        AddNext(i, es, at, live, before, time, sts, sps);
      }
    }

    ghost predicate AddedTo(i: nat, es: seq<Entry>, at: Stamp, live: seq<Entry>, before: Timeval, time: Timeval,
                            sts: seq<Stamp>, sps: seq<bool>)
      reads repr
    {
      && Distinct(all) && (forall r :: r in all ==> r in repr) && i <= |all| == |sts| == |sps|
      && (forall j :: 0 <= j < i ==> BaseHeard(all[j], es, at, live, time, sts[j], sps[j]))
      && (forall j :: i <= j < |all| ==> BaseWaits(all[j], live, before, sts[j], sps[j]))
    }

    method AddNext(i: nat, es: seq<Entry>, at: Stamp, ghost live: seq<Entry>, ghost before: Timeval, ghost time: Timeval,
                   ghost sts: seq<Stamp>, ghost sps: seq<bool>)
      requires i < |all| && AddedTo(i, es, at, live, before, time, sts, sps)
      requires GoodEntries(es) && InOrder(live + es) && !Less(time, before)
      requires (es != [] ==> at == StampFrom(es[0])) && StartFits(at, time)
      modifies repr
      ensures AddedTo(i + 1, es, at, live, before, time, sts, sps)
    {
      BaseAdd(all[i], es, at, live, before, time);
    }

    method Delete(es: seq<Entry>, ghost live: seq<Entry>, ghost now: Timeval, ghost sts: seq<Stamp>, ghost sps: seq<bool>)
      requires Fit(es + live, now) && GoodEntries(es) && Marked(sts, sps)
      modifies repr
      ensures Fit(live, now) && Marked(sts, sps)
    {
      for i := 0 to |all|
        invariant forall j :: 0 <= j < i ==> BaseFits(all[j], live, now)
        invariant forall j :: i <= j < |all| ==> BaseFits(all[j], es + live, now)
        invariant forall j :: 0 <= j < |all| ==> all[j].StampOf() == sts[j] && all[j].spoiled == sps[j]
      {
        BaseDelete(all[i], es, live, now);
      }
    }
  }

  lemma TagWithoutTimers(r: TagInfo, live: seq<Entry>, es: seq<Entry>)
    requires r.Represents(live) && !AnyTimers(es)
    ensures r.Represents(live + es)
  {
    NoTimersNoChange(r.sc, r.results, r.StampOf(), r.cond, live, es, |es|, r.tagId, ByValue);
    assert es[..|es|] == es;
  }

  lemma ScriptWithoutTimers(r: TagByScript, live: seq<Entry>, es: seq<Entry>)
    requires r.Represents(live) && !AnyTimers(es)
    ensures r.Represents(live + es)
  {
    NoTimersNoChange(r.sc, r.flat, r.StampOf(), r.cond, live, es, |es|, r.tagId, ByScriptAndValue);
    assert es[..|es|] == es;
  }

  ghost predicate TagFits(r: TagInfo, live: seq<Entry>, counter: nat, now: Timeval)
    reads r
  {
    r.Represents(live) && StampFits(r.StampOf(), counter, now)
  }

  method TagAdd(r: TagInfo, es: seq<Entry>, ghost live: seq<Entry>, ghost counter: nat, ghost before: Timeval, ghost time: Timeval)
    requires TagFits(r, live, counter, before) && Appends(live, es, counter, before, time) && es != []
    modifies r
    ensures TagFits(r, live + es, counter + |es|, time)
  {
    BatchIsLater(live, es, counter, before, time, r.StampOf());
    if AnyTimers(es) {
      r.AddBatch(es, live);
    } else {
      TagWithoutTimers(r, live, es);
    }
  }

  method TagDelete(r: TagInfo, es: seq<Entry>, ghost live: seq<Entry>, ghost counter: nat, ghost now: Timeval)
    requires TagFits(r, es + live, counter, now) && Orderly(es + live, counter, now)
    modifies r
    ensures TagFits(r, live, counter, now)
  {
    ExpiryStaysOrderly(es, live, counter, now);
    r.DeleteBatch(es, live);
  }

  class TagReports {
    const all: seq<TagInfo>
    ghost const repr: set<object>

    ghost predicate Fit(live: seq<Entry>, counter: nat, now: Timeval)
      reads repr
    {
      Distinct(all) && (forall r :: r in all ==> r in repr) && forall i :: 0 <= i < |all| ==> TagFits(all[i], live, counter, now)
    }

    constructor (all: seq<TagInfo>)
      ensures this.all == all && repr == set r | r in all
    {
      this.all := all;
      repr := set r | r in all;
    }

    /** Tag reports only hear of batches that stored timers. */
    method Add(es: seq<Entry>, ghost live: seq<Entry>, ghost counter: nat, ghost before: Timeval, ghost time: Timeval)
      requires Fit(live, counter, before) && Appends(live, es, counter, before, time) && es != []
      modifies repr
      ensures Fit(live + es, counter + |es|, time)
    {
      for i := 0 to |all|
        invariant AddedTo(i, es, live, counter, before, time)
      {
        AddNext(i, es, live, counter, before, time);
      }
    }

    ghost predicate AddedTo(i: nat, es: seq<Entry>, live: seq<Entry>, counter: nat, before: Timeval, time: Timeval)
      reads repr
    {
      && Distinct(all) && (forall r :: r in all ==> r in repr) && i <= |all|
      && (forall j :: 0 <= j < i ==> TagFits(all[j], live + es, counter + |es|, time))
      && (forall j :: i <= j < |all| ==> TagFits(all[j], live, counter, before))
    }

    method AddNext(i: nat, es: seq<Entry>, ghost live: seq<Entry>, ghost counter: nat, ghost before: Timeval, ghost time: Timeval)
      requires i < |all| && AddedTo(i, es, live, counter, before, time) && Appends(live, es, counter, before, time) && es != []
      modifies repr
      ensures AddedTo(i + 1, es, live, counter, before, time)
    {
      TagAdd(all[i], es, live, counter, before, time);
    }

    method Delete(es: seq<Entry>, ghost live: seq<Entry>, ghost counter: nat, ghost now: Timeval)
      requires Fit(es + live, counter, now) && Orderly(es + live, counter, now)
      modifies repr
      ensures Fit(live, counter, now)
    {
      for i := 0 to |all|
        invariant forall j :: 0 <= j < i ==> TagFits(all[j], live, counter, now)
        invariant forall j :: i <= j < |all| ==> TagFits(all[j], es + live, counter, now)
      {
        TagDelete(all[i], es, live, counter, now);
      }
    }
  }

  ghost predicate ScriptFits(r: TagByScript, live: seq<Entry>, counter: nat, now: Timeval)
    reads r
  {
    r.Represents(live) && StampFits(r.StampOf(), counter, now)
  }

  method ScriptAdd(r: TagByScript, es: seq<Entry>, ghost live: seq<Entry>, ghost counter: nat, ghost before: Timeval, ghost time: Timeval)
    requires ScriptFits(r, live, counter, before) && Appends(live, es, counter, before, time) && es != []
    modifies r
    ensures ScriptFits(r, live + es, counter + |es|, time)
  {
    BatchIsLater(live, es, counter, before, time, r.StampOf());
    if AnyTimers(es) {
      r.AddBatch(es, live);
    } else {
      ScriptWithoutTimers(r, live, es);
    }
  }

  method ScriptDelete(r: TagByScript, es: seq<Entry>, ghost live: seq<Entry>, ghost counter: nat, ghost now: Timeval)
    requires ScriptFits(r, es + live, counter, now) && Orderly(es + live, counter, now)
    modifies r
    ensures ScriptFits(r, live, counter, now)
  {
    ExpiryStaysOrderly(es, live, counter, now);
    r.DeleteBatch(es, live);
  }

  class ScriptReports {
    const all: seq<TagByScript>
    ghost const repr: set<object>

    ghost predicate Fit(live: seq<Entry>, counter: nat, now: Timeval)
      reads repr
    {
      Distinct(all) && (forall r :: r in all ==> r in repr) && forall i :: 0 <= i < |all| ==> ScriptFits(all[i], live, counter, now)
    }

    constructor (all: seq<TagByScript>)
      ensures this.all == all && repr == set r | r in all
    {
      this.all := all;
      repr := set r | r in all;
    }

    /** So do the tag reports grouped by script. */
    method Add(es: seq<Entry>, ghost live: seq<Entry>, ghost counter: nat, ghost before: Timeval, ghost time: Timeval)
      requires Fit(live, counter, before) && Appends(live, es, counter, before, time) && es != []
      modifies repr
      ensures Fit(live + es, counter + |es|, time)
    {
      for i := 0 to |all|
        invariant AddedTo(i, es, live, counter, before, time)
      {
        AddNext(i, es, live, counter, before, time);
      }
    }

    ghost predicate AddedTo(i: nat, es: seq<Entry>, live: seq<Entry>, counter: nat, before: Timeval, time: Timeval)
      reads repr
    {
      && Distinct(all) && (forall r :: r in all ==> r in repr) && i <= |all|
      && (forall j :: 0 <= j < i ==> ScriptFits(all[j], live + es, counter + |es|, time))
      && (forall j :: i <= j < |all| ==> ScriptFits(all[j], live, counter, before))
    }

    method AddNext(i: nat, es: seq<Entry>, ghost live: seq<Entry>, ghost counter: nat, ghost before: Timeval, ghost time: Timeval)
      requires i < |all| && AddedTo(i, es, live, counter, before, time) && Appends(live, es, counter, before, time) && es != []
      modifies repr
      ensures AddedTo(i + 1, es, live, counter, before, time)
    {
      ScriptAdd(all[i], es, live, counter, before, time);
    }

    method Delete(es: seq<Entry>, ghost live: seq<Entry>, ghost counter: nat, ghost now: Timeval)
      requires Fit(es + live, counter, now) && Orderly(es + live, counter, now)
      modifies repr
      ensures Fit(live, counter, now)
    {
      for i := 0 to |all|
        invariant forall j :: 0 <= j < i ==> ScriptFits(all[j], live, counter, now)
        invariant forall j :: i <= j < |all| ==> ScriptFits(all[j], es + live, counter, now)
      {
        ScriptDelete(all[i], es, live, counter, now);
      }
    }
  }

  ghost predicate HostFits(r: RequestTagReport.TagByHost, live: seq<Entry>, counter: nat, now: Timeval)
    reads r
  {
    r.Represents(live) && StampFits(r.StampOf(), counter, now)
  }

  method HostAdd(r: RequestTagReport.TagByHost, es: seq<Entry>, ghost live: seq<Entry>, ghost counter: nat, ghost before: Timeval, ghost time: Timeval)
    requires HostFits(r, live, counter, before) && Appends(live, es, counter, before, time) && es != []
    modifies r
    ensures HostFits(r, live + es, counter + |es|, time)
  {
    BatchIsLater(live, es, counter, before, time, r.StampOf());
    if AnyTags(es) {
      r.AddBatch(es, live);
    } else {
      NoTagsNoChange(r, live, es);
    }
  }

  method HostDelete(r: RequestTagReport.TagByHost, es: seq<Entry>, ghost live: seq<Entry>, ghost counter: nat, ghost now: Timeval)
    requires HostFits(r, es + live, counter, now) && Orderly(es + live, counter, now)
    modifies r
    ensures HostFits(r, live, counter, now)
  {
    ExpiryStaysOrderly(es, live, counter, now);
    r.DeleteBatch(es, live);
  }

  class HostReports {
    const all: seq<RequestTagReport.TagByHost>
    ghost const repr: set<object>

    ghost predicate Fit(live: seq<Entry>, counter: nat, now: Timeval)
      reads repr
    {
      Distinct(all) && (forall r :: r in all ==> r in repr) && forall i :: 0 <= i < |all| ==> HostFits(all[i], live, counter, now)
    }

    constructor (all: seq<RequestTagReport.TagByHost>)
      ensures this.all == all && repr == set r | r in all
    {
      this.all := all;
      repr := set r | r in all;
    }

    /** Request-tag reports only hear of batches that carry request tags. */
    method Add(es: seq<Entry>, ghost live: seq<Entry>, ghost counter: nat, ghost before: Timeval, ghost time: Timeval)
      requires Fit(live, counter, before) && Appends(live, es, counter, before, time) && es != []
      modifies repr
      ensures Fit(live + es, counter + |es|, time)
    {
      for i := 0 to |all|
        invariant AddedTo(i, es, live, counter, before, time)
      {
        AddNext(i, es, live, counter, before, time);
      }
    }

    ghost predicate AddedTo(i: nat, es: seq<Entry>, live: seq<Entry>, counter: nat, before: Timeval, time: Timeval)
      reads repr
    {
      && Distinct(all) && (forall r :: r in all ==> r in repr) && i <= |all|
      && (forall j :: 0 <= j < i ==> HostFits(all[j], live + es, counter + |es|, time))
      && (forall j :: i <= j < |all| ==> HostFits(all[j], live, counter, before))
    }

    method AddNext(i: nat, es: seq<Entry>, ghost live: seq<Entry>, ghost counter: nat, ghost before: Timeval, ghost time: Timeval)
      requires i < |all| && AddedTo(i, es, live, counter, before, time) && Appends(live, es, counter, before, time) && es != []
      modifies repr
      ensures AddedTo(i + 1, es, live, counter, before, time)
    {
      HostAdd(all[i], es, live, counter, before, time);
    }

    method Delete(es: seq<Entry>, ghost live: seq<Entry>, ghost counter: nat, ghost now: Timeval)
      requires Fit(es + live, counter, now) && Orderly(es + live, counter, now)
      modifies repr
      ensures Fit(live, counter, now)
    {
      for i := 0 to |all|
        invariant forall j :: 0 <= j < i ==> HostFits(all[j], live, counter, now)
        invariant forall j :: i <= j < |all| ==> HostFits(all[j], es + live, counter, now)
      {
        HostDelete(all[i], es, live, counter, now);
      }
    }
  }

  /** The reports over timers. */
  class TimerReports {
    const tags: TagReports
    const scripts: ScriptReports

    ghost function Repr(): set<object> {
      tags.repr + scripts.repr
    }

    ghost predicate Fit(live: seq<Entry>, counter: nat, now: Timeval)
      reads tags.repr, scripts.repr
    {
      tags.repr !! scripts.repr && tags.Fit(live, counter, now) && scripts.Fit(live, counter, now)
    }

    constructor (tags: TagReports, scripts: ScriptReports)
      ensures this.tags == tags && this.scripts == scripts
    {
      this.tags, this.scripts := tags, scripts;
    }

    method Add(es: seq<Entry>, ghost live: seq<Entry>, ghost counter: nat, ghost before: Timeval, ghost time: Timeval)
      requires Fit(live, counter, before) && Appends(live, es, counter, before, time) && es != []
      modifies tags.repr, scripts.repr
      ensures Fit(live + es, counter + |es|, time)
    {
      tags.Add(es, live, counter, before, time);
      scripts.Add(es, live, counter, before, time);
    }

    method Delete(es: seq<Entry>, ghost live: seq<Entry>, ghost counter: nat, ghost now: Timeval)
      requires Fit(es + live, counter, now) && Orderly(es + live, counter, now)
      modifies tags.repr, scripts.repr
      ensures Fit(live, counter, now)
    {
      tags.Delete(es, live, counter, now);
      scripts.Delete(es, live, counter, now);
    }
  }

  /** The reports that hear only of batches with something to tell them. */
  class TagKeyedReports {
    const hosts: HostReports
    const timers: TimerReports

    ghost function Repr(): set<object> {
      hosts.repr + timers.Repr()
    }

    ghost predicate Fit(live: seq<Entry>, counter: nat, now: Timeval)
      reads hosts.repr, timers.Repr()
    {
      hosts.repr !! timers.Repr() && hosts.Fit(live, counter, now) && timers.Fit(live, counter, now)
    }

    constructor (hosts: HostReports, timers: TimerReports)
      ensures this.hosts == hosts && this.timers == timers
    {
      this.hosts, this.timers := hosts, timers;
    }

    method Add(es: seq<Entry>, ghost live: seq<Entry>, ghost counter: nat, ghost before: Timeval, ghost time: Timeval)
      requires Fit(live, counter, before) && Appends(live, es, counter, before, time) && es != []
      modifies hosts.repr, timers.Repr()
      ensures Fit(live + es, counter + |es|, time)
    {
      hosts.Add(es, live, counter, before, time);
      timers.Add(es, live, counter, before, time);
    }

    method Delete(es: seq<Entry>, ghost live: seq<Entry>, ghost counter: nat, ghost now: Timeval)
      requires Fit(es + live, counter, now) && Orderly(es + live, counter, now)
      modifies hosts.repr, timers.Repr()
      ensures Fit(live, counter, now)
    {
      hosts.Delete(es, live, counter, now);
      timers.Delete(es, live, counter, now);
    }

    /** With no new request, time passes without a change. */
    lemma TimePasses(live: seq<Entry>, counter: nat, before: Timeval, time: Timeval)
      requires Fit(live, counter, before) && !Less(time, before)
      ensures Fit(live, counter, time)
    {
      forall st | StampFits(st, counter, before) && !Unstamped(st) ensures StampFits(st, counter, time) {
        LessTransitive(st.start, before, time);
      }
    }
  }

  /** All reports. */
  class Reports {
    const base: BaseReports
    const keyed: TagKeyedReports
    ghost const repr: set<object>

    ghost predicate Fit(live: seq<Entry>, counter: nat, now: Timeval)
      reads base.repr, keyed.Repr()
    {
      base.repr !! keyed.Repr() && base.Fit(live, now) && keyed.Fit(live, counter, now)
    }

    /** Window and reports agree: the requests came in order, and every report fits them. */
    ghost predicate Agree(live: seq<Entry>, behind: Stamp, counter: nat, now: Timeval)
      reads repr
    {
      && base.repr + keyed.Repr() == repr && Fit(live, counter, now)
      && Orderly(live, counter, now) && BehindFits(behind, live, counter, now)
    }

    /** `Agree` as one closed fact: while the window changes, the reports are only carried along,
        and the rank keeps the window's proofs from looking inside. */
    ghost predicate ClosedAt(live: seq<Entry>, behind: Stamp, counter: nat, now: Timeval, rank: nat)
      reads repr
    {
      if rank > 0 then ClosedAt(live, behind, counter, now, rank - 1) else Agree(live, behind, counter, now)
    }

    ghost predicate Closed(live: seq<Entry>, behind: Stamp, counter: nat, now: Timeval)
      reads repr
    {
      ClosedAt(live, behind, counter, now, |repr| + 5)
    }

    lemma {:induction false} OpenedAt(live: seq<Entry>, behind: Stamp, counter: nat, now: Timeval, rank: nat)
      ensures ClosedAt(live, behind, counter, now, rank) <==> Agree(live, behind, counter, now)
    {
      if rank > 0 { OpenedAt(live, behind, counter, now, rank - 1); }
    }

    lemma Opened(live: seq<Entry>, behind: Stamp, counter: nat, now: Timeval)
      ensures Closed(live, behind, counter, now) <==> Agree(live, behind, counter, now)
    {
      OpenedAt(live, behind, counter, now, |repr| + 5);
    }

    constructor (base: BaseReports, keyed: TagKeyedReports)
      ensures this.base == base && this.keyed == keyed && repr == base.repr + keyed.Repr()
    {
      this.base, this.keyed := base, keyed;
      repr := base.repr + keyed.Repr();
    }

    /** The add jobs of one batch. Only base reports hear of one of which nothing was admitted;
        one without a start takes what the window offers, and is spoiled exactly if that draws
        its line wrong. */
    method Hear(es: seq<Entry>, at: Stamp, ghost live: seq<Entry>, ghost counter: nat, ghost before: Timeval, ghost time: Timeval,
                ghost full: bool, ghost behind: Stamp, ghost sts: seq<Stamp>, ghost sps: seq<bool>)
      requires Fit(live, counter, before) && Appends(live, es, counter, before, time)
      requires BehindFits(behind, live, counter, before) && Offers(at, full, behind, es, counter, time)
      requires base.Marked(sts, sps)
      modifies base.repr, keyed.Repr()
      ensures Fit(live + es, counter + |es|, time)
      ensures |sts| == |sps| == |base.all|
      ensures base.Marked(Restarted(sts, at), Respoilt(sts, sps, base.Conds(), full, behind, live, es))
    {
      BatchIsLater(live, es, counter, before, time, Stamp(ZERO, 0));
      OfferFits(at, full, behind, live, es, counter, before, time);
      forall i | 0 <= i < |base.all|
        ensures LineRight(sts[i], at, base.all[i].cond, live, es) <==> !Spoils(sts[i], base.all[i].cond, full, behind, live, es)
      {
        assert BaseFits(base.all[i], live, before);
        EmptyBatchStampExact(sts[i], at, base.all[i].cond, live, es, counter, before, time, full, behind);
      }
      base.Add(es, at, live, before, time, sts, sps);
      assert base.Marked(Restarted(sts, at), Respoilt(sts, sps, base.Conds(), full, behind, live, es));
      if es != [] {
        keyed.Add(es, live, counter, before, time);
      } else {
        assert live + es == live;
        keyed.TimePasses(live, counter, before, time);
      }
    }

    /** The delete jobs of one expiry. */
    method Delete(es: seq<Entry>, ghost live: seq<Entry>, ghost counter: nat, ghost now: Timeval,
                  ghost sts: seq<Stamp>, ghost sps: seq<bool>)
      requires Fit(es + live, counter, now) && Orderly(es + live, counter, now) && base.Marked(sts, sps)
      modifies base.repr, keyed.Repr()
      ensures Fit(live, counter, now) && base.Marked(sts, sps)
    {
      ExpiryStaysOrderly(es, live, counter, now);
      base.Delete(es, live, now, sts, sps);
      keyed.Delete(es, live, counter, now);
    }

    /** With no new request, time passes without a change. */
    lemma TimePasses(live: seq<Entry>, counter: nat, before: Timeval, time: Timeval)
      requires Fit(live, counter, before) && !Less(time, before)
      ensures Fit(live, counter, time)
    {
      keyed.TimePasses(live, counter, before, time);
      forall i | 0 <= i < |base.all| ensures BaseFits(base.all[i], live, time) {
        assert BaseFits(base.all[i], live, before);
        if !Unstamped(base.all[i].StampOf()) { LessTransitive(base.all[i].start, before, time); }
      }
    }
  }

  /** Reports that were just created fit every window, whatever is live in it. */
  method NewReports(shape: Layout<string>, cond: Payload -> bool, tagId: nat, name: string) returns (reports: Reports)
    requires Histogram.GoodScale(shape.sc)
    ensures fresh(reports.repr) && reports.base.repr + reports.keyed.Repr() == reports.repr
    ensures |reports.base.all| == 1 && reports.base.all[0].shape == shape
    ensures reports.base.Conds() == [cond] && reports.base.Marked([Stamp(ZERO, 0)], [false])
    ensures forall live, counter, now :: reports.Fit(live, counter, now)
  {
    var base := NewBaseReport(shape, cond);
    var keyed := NewKeyedReports(shape.sc, cond, tagId, name);
    reports := new Reports(base, keyed);
    assert base.repr !! keyed.Repr();
  }

  method NewBaseReport(shape: Layout<string>, cond: Payload -> bool) returns (base: BaseReports)
    requires Histogram.GoodScale(shape.sc)
    ensures fresh(base.repr) && |base.all| == 1 && forall live, now :: base.Fit(live, now)
    ensures base.all[0].shape == shape && base.Conds() == [cond] && base.Marked([Stamp(ZERO, 0)], [false])
  {
    var r := new Report(shape, cond);
    base := new BaseReports([r]);
  }

  method NewKeyedReports(sc: Histogram.Scale, cond: Payload -> bool, tagId: nat, name: string) returns (keyed: TagKeyedReports)
    requires Histogram.GoodScale(sc)
    ensures fresh(keyed.Repr()) && forall live, counter, now :: keyed.Fit(live, counter, now)
  {
    var host := new RequestTagReport.TagByHost(name, sc, cond);
    var hosts := new HostReports([host]);
    var timers := NewTimerReports(sc, cond, tagId);
    keyed := new TagKeyedReports(hosts, timers);
  }

  method NewTimerReports(sc: Histogram.Scale, cond: Payload -> bool, tagId: nat) returns (timers: TimerReports)
    requires Histogram.GoodScale(sc)
    ensures fresh(timers.Repr()) && forall live, counter, now :: timers.Fit(live, counter, now)
  {
    var tag := new TagInfo(tagId, sc, cond);
    var tags := new TagReports([tag]);
    var script := new TagByScript(tagId, sc, cond);
    var scripts := new ScriptReports([script]);
    timers := new TimerReports(tags, scripts);
  }
}
