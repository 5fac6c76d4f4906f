/** Percentile columns of the reports in a running system: staging has bounded every duration, so
    each live sample has its bucket. */
module LiveQuery {
  import opened Time
  import opened Types
  import opened Histogram
  import opened Percentile
  import opened PercentileQuery
  import opened Stamps
  import opened History
  import opened BaseReportObject
  import opened TagReportObject
  import opened ReportJobs
  import opened Run
  import BaseReport
  import TagReport
  import TagTotals

  ghost predicate AllGood(es: seq<Entry>) {
    forall i :: 0 <= i < |es| ==> BaseReport.GoodPayload(es[i].data) && GoodTimers(es[i])
  }

  lemma {:induction false} SelectedGood(st: Stamp, cond: Payload -> bool, live: seq<Entry>)
    requires AllGood(live)
    ensures AllGood(Selected(st, cond, live))
  {
    if live != [] {
      assert forall i :: 0 <= i < |live[1..]| ==> live[1..][i] == live[i + 1];
      SelectedGood(st, cond, live[1..]);
    }
  }

  lemma {:induction false} MembersGood<K>(sh: BaseReport.Layout<K>, ms: seq<Payload>, k: K)
    requires forall i :: 0 <= i < |ms| ==> BaseReport.GoodPayload(ms[i])
    ensures forall i :: 0 <= i < |BaseReport.Members(sh, ms, k)| ==> BaseReport.GoodPayload(BaseReport.Members(sh, ms, k)[i])
  {
    if ms != [] {
      assert forall i :: 0 <= i < |ms[1..]| ==> ms[1..][i] == ms[i + 1];
      MembersGood(sh, ms[1..], k);
    }
  }

  ghost predicate AllHit(ts: seq<Timer>) {
    forall i :: 0 <= i < |ts| ==> TagTotals.GoodTimer(ts[i])
  }

  lemma {:induction false} TimersForGood<K>(ts: seq<TagReport.Touch<K>>, k: K)
    requires TagReport.GoodTouches(ts)
    ensures AllHit(TagReport.TimersFor(ts, k))
  {
    if ts != [] {
      assert forall i :: 0 <= i < |ts[1..]| ==> ts[1..][i] == ts[i + 1];
      TimersForGood(ts[1..], k);
    }
  }

  lemma {:induction false} RefGood<K>(rs: seq<TagReport.Req<K>>, k: K)
    requires forall i :: 0 <= i < |rs| ==> TagReport.GoodTouches(rs[i].touches)
    ensures var ref := TagReport.RefOf(rs, k); AllHit(ref.timers) && (ref.num > 0 ==> ref.timers != [])
  {
    if rs != [] {
      assert forall i :: 0 <= i < |rs[1..]| ==> rs[1..][i] == rs[i + 1];
      RefGood(rs[1..], k);
      TimersForGood(rs[0].touches, k);
    }
  }

  /** The requests of group `key` of a base report. */
  ghost function GroupOf(r: Report, live: seq<Entry>, key: string): seq<Payload>
    reads r
  {
    BaseReport.Members(r.shape, Payloads(Selected(r.StampOf(), r.cond, live)), key)
  }

  lemma GroupGood(r: Report, live: seq<Entry>, key: string)
    requires AllGood(live)
    ensures AllTracked(BaseReport.Samples(GroupOf(r, live, key)))
  {
    SelectedGood(r.StampOf(), r.cond, live);
    MembersGood(r.shape, Payloads(Selected(r.StampOf(), r.cond, live)), key);
  }

  /** A percentile column of a base report at any point of any run: within one segment of the
      duration of the rank-th quickest of the live requests of the group. */
  method BaseColumn(r: Report, key: string, numerator: nat, denominator: nat, ghost live: seq<Entry>) returns (v: real)
    requires r.Represents(live) && AllGood(live) && r.shape.indexed && key in r.results && 0 < numerator <= denominator
    ensures var ms := GroupOf(r, live, key);
            ms != [] && PointAtRank(r.shape.sc, BaseReport.Samples(ms), Rank(|ms|, numerator, denominator), v)
    ensures var ms := GroupOf(r, live, key); NearRankth(r.shape.sc, ms, Rank(|ms|, numerator, denominator), v)
  {
    ghost var ms := GroupOf(r, live, key);
    GroupGood(r, live, key);
    assert BaseReport.KeyIs(r.shape, r.results, Payloads(Selected(r.StampOf(), r.cond, live)), key);
    v := BaseRow(r.shape, r.results[key], numerator, denominator, ms);
    NearRankthRequest(r.shape.sc, ms, Rank(|ms|, numerator, denominator), v);
  }

  /** What the live requests say about group `key` of a tag report. */
  ghost function RefIn(r: TagInfo, live: seq<Entry>, key: string): TagReport.Ref
    reads r
  {
    TagReport.RefOf(Reqs(Selected(r.StampOf(), r.cond, live), r.tagId, ByValue), key)
  }

  lemma RefInGood(r: TagInfo, live: seq<Entry>, key: string)
    requires AllGood(live)
    ensures var ref := RefIn(r, live, key); AllHit(ref.timers) && (ref.num > 0 ==> ref.timers != [])
  {
    var es := Selected(r.StampOf(), r.cond, live);
    SelectedGood(r.StampOf(), r.cond, live);
    forall i | 0 <= i < |es| ensures TagReport.GoodTouches(ReqOf(es[i], r.tagId, ByValue).touches) {
      TouchesGood(es[i].data, es[i].timers, |es[i].timers|, r.tagId, ByValue);
    }
    RefGood(Reqs(es, r.tagId, ByValue), key);
  }

  lemma HitTimers(ts: seq<Timer>)
    requires AllHit(ts)
    ensures AllTracked(TagTotals.Samples(ts)) && (ts != [] ==> TagTotals.Hits(ts) > 0)
  {
  }

  method TagColumn(r: TagInfo, key: string, numerator: nat, denominator: nat, ghost live: seq<Entry>) returns (v: real)
    requires r.Represents(live) && AllGood(live) && key in r.results && 0 < numerator <= denominator
    ensures var ts := RefIn(r, live, key).timers;
            ts != [] && PointAtRank(r.sc, TagTotals.Samples(ts), Rank(TagTotals.Hits(ts), numerator, denominator), v)
  {
    ghost var ref := RefIn(r, live, key);
    RefInGood(r, live, key);
    HitTimers(ref.timers);
    assert TagReport.KeyIs(r.sc, r.results, ref, key);
    v := TagRow(r.sc, r.results[key].totals, numerator, denominator, ref.timers);
  }

  /** In a running system the queries may be put to every report at any time. */
  lemma QueriesApply(m: Monitor, now: Timeval)
    requires m.Valid(now)
    ensures AllGood(m.window.Live())
    ensures forall r :: r in m.reports.base.all && !r.spoiled ==> r.Represents(m.window.Live())
    ensures forall r :: r in m.reports.keyed.timers.tags.all ==> r.Represents(m.window.Live())
  {
    assert forall i :: 0 <= i < |m.window.Live()| ==> EntryFits(m.window.Live()[i], m.window.counter, now);
    assert forall i :: 0 <= i < |m.reports.base.all| ==> BaseFits(m.reports.base.all[i], m.window.Live(), now);
    assert forall i :: 0 <= i < |m.reports.keyed.timers.tags.all| ==>
      TagFits(m.reports.keyed.timers.tags.all[i], m.window.Live(), m.window.counter, now);
  }
}
