/** Which tables use which base report. Tables with the same conditions share one report,
    which is created on first use and destroyed when its last table is dropped. */
module Registry {
  import opened Wrappers

  /** The tables of one report index, with the report object once there is one. */
  datatype Handle = Handle(std: Option<nat>, tables: map<string, nat>)

  /** A live report object: the index it was made for and its use count. */
  datatype Report = Report(index: string, useCount: nat)

  /** The registry's maps at one moment: table to index, index to tables, index to report,
      and the report objects themselves. */
  datatype Maps = Maps(t2r: map<string, string>, r2t: map<string, Handle>, base: map<string, nat>, reports: map<nat, Report>)

  /** Tables attached to `index`. */
  ghost function TablesOf(t2r: map<string, string>, index: string): set<string> {
    set n | n in t2r && t2r[n] == index
  }

  /** One index, seen from every map that mentions it. */
  ghost predicate IndexOk(m: Maps, index: string) {
    if index in m.r2t then
      m.r2t[index].tables.Keys == TablesOf(m.t2r, index) != {} && StdOk(m, index)
    else
      TablesOf(m.t2r, index) == {} && index !in m.base
  }

  ghost predicate StdOk(m: Maps, index: string)
    requires index in m.r2t
  {
    match m.r2t[index].std
    case None => index !in m.base
    case Some(id) => && index in m.base && m.base[index] == id
                     && id in m.reports && m.reports[id] == Report(index, |TablesOf(m.t2r, index)|)
  }

  ghost predicate ReportOk(m: Maps, id: nat) {
    id in m.reports ==> m.reports[id].index in m.base && m.base[m.reports[id].index] == id
  }

  /** The two table maps are mutual inverses, a report exists exactly where its handle says
      so, and its use count is the number of attached tables. */
  ghost predicate Sound(m: Maps) {
    (forall i :: IndexOk(m, i)) && (forall id :: ReportOk(m, id))
  }

  /** The maps after a step on one index: its tables, handle and report are replaced. */
  ghost predicate OnlyAt(m: Maps, m': Maps, index: string) {
    && (forall i :: i != index ==> TablesOf(m'.t2r, i) == TablesOf(m.t2r, i))
    && m'.r2t - {index} == m.r2t - {index}
    && m'.base - {index} == m.base - {index}
    && (forall id :: SameReport(m, m', index, id))
  }

  ghost predicate SameReport(m: Maps, m': Maps, index: string, id: nat) {
    (id in m.reports && m.reports[id].index != index) || (id in m'.reports && m'.reports[id].index != index)
    ==> id in m.reports && id in m'.reports && m'.reports[id] == m.reports[id]
  }

  lemma AtOther<V>(a: map<string, V>, b: map<string, V>, index: string, i: string)
    requires a - {index} == b - {index} && i != index
    ensures i in a <==> i in b
    ensures i in a ==> a[i] == b[i]
  {
    assert i in a <==> i in a - {index};
    assert i in b <==> i in b - {index};
  }

  /** A step that concerns one index keeps the registry sound if it keeps that index sound. */
  lemma OneIndexStep(m: Maps, m': Maps, index: string)
    requires Sound(m) && OnlyAt(m, m', index) && IndexOk(m', index)
    requires forall id :: id in m'.reports && m'.reports[id].index == index ==> ReportOk(m', id)
    ensures Sound(m')
  {
    forall i ensures IndexOk(m', i) {
      if i != index {
        assert IndexOk(m, i);
        AtOther(m.r2t, m'.r2t, index, i);
        AtOther(m.base, m'.base, index, i);
        if i in m.r2t && m.r2t[i].std.Some? {
          assert SameReport(m, m', index, m.r2t[i].std.value);
        }
      }
    }
    forall id ensures ReportOk(m', id) {
      assert ReportOk(m, id) && SameReport(m, m', index, id);
      if id in m'.reports && m'.reports[id].index != index {
        AtOther(m.base, m'.base, index, m'.reports[id].index);
      }
    }
  }

  /** Only the named table's own index gains or loses a table. */
  lemma Attached(t2r: map<string, string>, name: string, index: string, i: string)
    requires name in t2r ==> t2r[name] == index
    ensures TablesOf(t2r[name := index], i) == if i == index then TablesOf(t2r, i) + {name} else TablesOf(t2r, i)
  {
  }

  lemma Detached(t2r: map<string, string>, name: string, i: string)
    requires name in t2r
    ensures TablesOf(t2r - {name}, i) == if i == t2r[name] then TablesOf(t2r, i) - {name} else TablesOf(t2r, i)
  {
  }

  lemma OneLess(s: set<string>, x: string)
    requires x in s
    ensures |s - {x}| == |s| - 1
    ensures |s| == 1 <==> s - {x} == {}
  {
    assert s == (s - {x}) + {x};
  }

  // The steps, as functions of the maps.

  /** A use count changes only where there is a report to count for. */
  function Recounted(reports: map<nat, Report>, std: Option<nat>, delta: int): map<nat, Report> {
    if std.Some? && std.value in reports && reports[std.value].useCount + delta >= 0
    then reports[std.value := reports[std.value].(useCount := reports[std.value].useCount + delta)]
    else reports
  }

  /** A table that is already known keeps the index it was first opened with. */
  ghost function Listed(t2r: map<string, string>, name: string, index: string): map<string, string> {
    if name in t2r then t2r else t2r[name := index]
  }

  ghost function Opened(m: Maps, name: string, index: string, kind: nat): Maps {
    var h := if index in m.r2t then m.r2t[index] else Handle(None, map[]);
    if name in h.tables then Maps(Listed(m.t2r, name, index), m.r2t, m.base, m.reports)
    else Maps(Listed(m.t2r, name, index), m.r2t[index := h.(tables := h.tables[name := kind])], m.base, Recounted(m.reports, h.std, 1))
  }

  /** The comment of a known table is the one it was first opened with. */
  ghost predicate SameComment(m: Maps, name: string, index: string) {
    name in m.t2r ==> m.t2r[name] == index
  }

  lemma OpenedOnlyAt(m: Maps, name: string, index: string, kind: nat)
    requires Sound(m) && SameComment(m, name, index)
    ensures OnlyAt(m, Opened(m, name, index, kind), index)
  {
    var m' := Opened(m, name, index, kind);
    forall i | i != index ensures TablesOf(m'.t2r, i) == TablesOf(m.t2r, i) {
      Attached(m.t2r, name, index, i);
    }
    forall id ensures SameReport(m, m', index, id) {
      OpenedReport(m, name, index, kind, id);
    }
  }

  lemma OpenedReport(m: Maps, name: string, index: string, kind: nat, id: nat)
    requires Sound(m)
    ensures SameReport(m, Opened(m, name, index, kind), index, id)
  {
    assert IndexOk(m, index) && ReportOk(m, id);
  }

  lemma OpenedIndexOk(m: Maps, name: string, index: string, kind: nat)
    requires Sound(m) && SameComment(m, name, index)
    ensures IndexOk(Opened(m, name, index, kind), index) && Opened(m, name, index, kind).t2r == m.t2r[name := index]
  {
    assert IndexOk(m, index);
    Attached(m.t2r, name, index, index);
    assert name in TablesOf(m.t2r, index) <==> name in m.t2r;
  }

  lemma OpenedSound(m: Maps, name: string, index: string, kind: nat)
    requires Sound(m) && SameComment(m, name, index)
    ensures Sound(Opened(m, name, index, kind)) && Opened(m, name, index, kind).t2r == m.t2r[name := index]
  {
    var m' := Opened(m, name, index, kind);
    OpenedOnlyAt(m, name, index, kind);
    OpenedIndexOk(m, name, index, kind);
    forall id | id in m'.reports && m'.reports[id].index == index ensures ReportOk(m', id) {
      assert ReportOk(m, id);
    }
    OneIndexStep(m, m', index);
  }

  /** Opening keeps the registry sound exactly when the table's comment did not change. */
  lemma OpenIsSoundIffCommentFixed(m: Maps, name: string, index: string, kind: nat)
    requires Sound(m)
    ensures Sound(Opened(m, name, index, kind)) <==> SameComment(m, name, index)
  {
    if SameComment(m, name, index) {
      OpenedSound(m, name, index, kind);
    } else {
      var m' := Opened(m, name, index, kind);
      assert IndexOk(m, index);
      assert name !in TablesOf(m.t2r, index);
      assert name in m'.r2t[index].tables;
      assert !IndexOk(m', index);
    }
  }

  /** A report made on first use counts the tables already attached. */
  ghost function Created(m: Maps, index: string, id: nat): Maps
    requires index in m.r2t
  {
    Maps(m.t2r, m.r2t[index := m.r2t[index].(std := Some(id))], m.base[index := id],
         m.reports[id := Report(index, |m.r2t[index].tables|)])
  }

  lemma CreatedSound(m: Maps, index: string, id: nat)
    requires Sound(m) && index in m.r2t && index !in m.base && id !in m.reports
    ensures Sound(Created(m, index, id))
  {
    var m' := Created(m, index, id);
    assert IndexOk(m, index);
    MapCount(m.r2t[index].tables);
    forall k ensures SameReport(m, m', index, k) {
      assert ReportOk(m, k);
    }
    forall k | k in m'.reports && m'.reports[k].index == index ensures ReportOk(m', k) {
      assert ReportOk(m, k);
    }
    OneIndexStep(m, m', index);
  }

  lemma MapCount<V>(m: map<string, V>)
    ensures |m| == |m.Keys|
  {
  }

  ghost function Renamed(m: Maps, from: string, to: string): Maps
    requires from in m.t2r && m.t2r[from] in m.r2t && from in m.r2t[m.t2r[from]].tables
  {
    var index := m.t2r[from];
    var h := m.r2t[index];
    m.(t2r := (m.t2r - {from})[to := index],
       r2t := m.r2t[index := h.(tables := (h.tables - {from})[to := h.tables[from]])])
  }

  /** A table knows its index, and the index knows its table. */
  lemma TableListed(m: Maps, name: string)
    requires Sound(m) && name in m.t2r
    ensures m.t2r[name] in m.r2t && name in m.r2t[m.t2r[name]].tables
  {
    assert IndexOk(m, m.t2r[name]);
    assert name in TablesOf(m.t2r, m.t2r[name]);
  }

  lemma RenamedSound(m: Maps, from: string, to: string)
    requires Sound(m) && from in m.t2r && to !in m.t2r
    requires m.t2r[from] in m.r2t && from in m.r2t[m.t2r[from]].tables
    ensures Sound(Renamed(m, from, to))
  {
    var m', index := Renamed(m, from, to), m.t2r[from];
    assert IndexOk(m, index);
    forall i ensures TablesOf(m'.t2r, i) == if i == index then TablesOf(m.t2r, i) - {from} + {to} else TablesOf(m.t2r, i) {
      Detached(m.t2r, from, i);
      Attached(m.t2r - {from}, to, index, i);
    }
    OneLess(TablesOf(m.t2r, index), from);
    assert |TablesOf(m'.t2r, index)| == |TablesOf(m.t2r, index)|;
    forall id ensures SameReport(m, m', index, id) {}
    forall id | id in m'.reports && m'.reports[id].index == index ensures ReportOk(m', id) {
      assert ReportOk(m, id);
    }
    OneIndexStep(m, m', index);
  }

  /** Is this table the only one its report has? */
  ghost predicate IsLast(m: Maps, name: string) {
    name in m.t2r && TablesOf(m.t2r, m.t2r[name]) == {name}
  }

  ghost function Without(m: Maps, name: string): Maps
    requires name in m.t2r && m.t2r[name] in m.r2t
  {
    var index := m.t2r[name];
    var h := m.r2t[index];
    if IsLast(m, name) then
      Maps(m.t2r - {name}, m.r2t - {index}, m.base - {index}, if h.std.Some? then m.reports - {h.std.value} else m.reports)
    else
      Maps(m.t2r - {name}, m.r2t[index := h.(tables := h.tables - {name})], m.base, Recounted(m.reports, h.std, -1))
  }

  /** Dropping a table nobody opened changes nothing. */
  ghost function Dropped(m: Maps, name: string): Maps
    requires Sound(m)
  {
    if name in m.t2r then TableListed(m, name); Without(m, name) else m
  }

  /** A report is destroyed exactly when its last table is dropped. */
  lemma DropDestroysExactlyTheLast(m: Maps, name: string, id: nat)
    requires Sound(m) && id in m.reports
    ensures Dropped(m, name).t2r == m.t2r - {name}
    ensures id in Dropped(m, name).reports <==> TablesOf(m.t2r - {name}, m.reports[id].index) != {}
    ensures id in Dropped(m, name).reports <==> m.reports[id].index in Dropped(m, name).base
  {
    var index := m.reports[id].index;
    assert ReportOk(m, id);
    assert IndexOk(m, index);
    if name in m.t2r {
      Detached(m.t2r, name, index);
      TableListed(m, name);
      assert IndexOk(m, m.t2r[name]);
    } else {
      assert m.t2r - {name} == m.t2r;
    }
  }

  lemma WithoutOnlyAt(m: Maps, name: string)
    requires Sound(m) && name in m.t2r && m.t2r[name] in m.r2t
    ensures OnlyAt(m, Without(m, name), m.t2r[name])
  {
    var m', index := Without(m, name), m.t2r[name];
    assert IndexOk(m, index);
    forall i | i != index ensures TablesOf(m'.t2r, i) == TablesOf(m.t2r, i) {
      Detached(m.t2r, name, i);
    }
    forall id ensures SameReport(m, m', index, id) {}
  }

  lemma WithoutIndexOk(m: Maps, name: string)
    requires Sound(m) && name in m.t2r && m.t2r[name] in m.r2t
    ensures IndexOk(Without(m, name), m.t2r[name])
  {
    var index := m.t2r[name];
    assert IndexOk(m, index);
    assert name in TablesOf(m.t2r, index);
    Detached(m.t2r, name, index);
    OneLess(TablesOf(m.t2r, index), name);
  }

  lemma WithoutSound(m: Maps, name: string)
    requires Sound(m) && name in m.t2r && m.t2r[name] in m.r2t
    ensures Sound(Without(m, name))
  {
    var m', index := Without(m, name), m.t2r[name];
    WithoutOnlyAt(m, name);
    WithoutIndexOk(m, name);
    assert IndexOk(m, index);
    forall id | id in m'.reports && m'.reports[id].index == index ensures ReportOk(m', id) {
      assert ReportOk(m, id);
    }
    OneIndexStep(m, m', index);
  }

  // Whole histories.

  datatype Event =
    | Opens(name: string, index: string, kind: nat)
    | Creates(index: string, id: nat)
    | Renames(from: string, to: string)
    | Drops(name: string)

  /** Comments are fixed per name, and a new report is a new object. */
  ghost predicate Proper(m: Maps, e: Event) {
    match e
    case Opens(name, index, _) => SameComment(m, name, index)
    case Creates(_, id) => id !in m.reports
    case _ => true
  }

  ghost function Apply(m: Maps, e: Event): Maps
    requires Sound(m)
  {
    match e
    case Opens(name, index, kind) => Opened(m, name, index, kind)
    case Creates(index, id) => if index in m.base || index !in m.r2t then m else Created(m, index, id)
    case Renames(from, to) =>
      if from in m.t2r && to !in m.t2r then TableListed(m, from); Renamed(m, from, to) else m
    case Drops(name) => Dropped(m, name)
  }

  lemma ApplySound(m: Maps, e: Event)
    requires Sound(m) && Proper(m, e)
    ensures Sound(Apply(m, e))
  {
    match e
    case Opens(name, index, kind) => OpenedSound(m, name, index, kind);
    case Creates(index, id) => if index !in m.base && index in m.r2t { CreatedSound(m, index, id); }
    case Renames(from, to) =>
      if from in m.t2r && to !in m.t2r {
        TableListed(m, from);
        RenamedSound(m, from, to);
      }
    case Drops(name) =>
      if name in m.t2r {
        TableListed(m, name);
        WithoutSound(m, name);
      }
  }

  ghost predicate StepAt(ms: seq<Maps>, es: seq<Event>, k: nat)
    requires k < |es| && |ms| == |es| + 1
  {
    Sound(ms[k]) ==> Proper(ms[k], es[k]) && ms[k + 1] == Apply(ms[k], es[k])
  }

  /** Whatever is opened, used, renamed and dropped, in any order: the table maps stay mutual
      inverses and each report's use count is the number of its tables, which is not zero. */
  lemma {:induction false} EveryHistoryIsSound(ms: seq<Maps>, es: seq<Event>, k: nat)
    requires |ms| == |es| + 1 && ms[0] == Maps(map[], map[], map[], map[]) && k < |ms|
    requires forall i :: 0 <= i < |es| ==> StepAt(ms, es, i)
    ensures Sound(ms[k])
    ensures forall n, i :: i in ms[k].r2t && n in ms[k].r2t[i].tables <==> n in ms[k].t2r && ms[k].t2r[n] == i
    ensures forall id :: id in ms[k].reports ==>
                           ms[k].reports[id].useCount == |TablesOf(ms[k].t2r, ms[k].reports[id].index)| > 0
    decreases k
  {
    if k > 0 {
      EveryHistoryIsSound(ms, es, k - 1);
      assert StepAt(ms, es, k - 1);
      ApplySound(ms[k - 1], es[k - 1]);
    }
    SoundMeans(ms[k]);
  }

  /** Which tables exist after the first `k` events, and with which index, said of the events alone. */
  ghost function Known(es: seq<Event>, k: nat): map<string, string>
    requires k <= |es|
  {
    if k == 0 then map[]
    else
      var t := Known(es, k - 1);
      match es[k - 1]
      case Opens(name, index, _) => if name in t then t else t[name := index]
      case Renames(from, to) => if from in t && to !in t then (t - {from})[to := t[from]] else t
      case Drops(name) => t - {name}
      case Creates(_, _) => t
  }

  /** The table map is exactly what the history of opens, renames and drops says. */
  lemma {:induction false} TablesFromHistory(ms: seq<Maps>, es: seq<Event>, k: nat)
    requires |ms| == |es| + 1 && ms[0] == Maps(map[], map[], map[], map[]) && k < |ms|
    requires forall i :: 0 <= i < |es| ==> StepAt(ms, es, i)
    ensures ms[k].t2r == Known(es, k)
    decreases k
  {
    if k > 0 {
      TablesFromHistory(ms, es, k - 1);
      EveryHistoryIsSound(ms, es, k - 1);
      assert StepAt(ms, es, k - 1);
      if es[k - 1].Drops? && es[k - 1].name !in ms[k - 1].t2r { assert ms[k - 1].t2r - {es[k - 1].name} == ms[k - 1].t2r; }
    }
  }

  lemma SoundMeans(m: Maps)
    requires Sound(m)
    ensures forall n, i :: i in m.r2t && n in m.r2t[i].tables <==> n in m.t2r && m.t2r[n] == i
    ensures forall id :: id in m.reports ==> m.reports[id].useCount == |TablesOf(m.t2r, m.reports[id].index)| > 0
  {
    forall n, i ensures i in m.r2t && n in m.r2t[i].tables <==> n in m.t2r && m.t2r[n] == i {
      assert IndexOk(m, i);
      assert n in TablesOf(m.t2r, i) <==> n in m.t2r && m.t2r[n] == i;
    }
    forall id | id in m.reports ensures m.reports[id].useCount == |TablesOf(m.t2r, m.reports[id].index)| > 0 {
      assert ReportOk(m, id);
      assert IndexOk(m, m.reports[id].index);
    }
  }

  /** `pinba_array_delete`: close the gap where the report was. */
  method ArrayDelete(a: seq<nat>, id: nat) returns (b: seq<nat>)
    ensures id in a ==> multiset(b) == multiset(a) - multiset{id}
    ensures id !in a ==> b == a
  {
    for i := 0 to |a|
      invariant id !in a[..i]
    {
      if a[i] == id {
        b := a[..i] + a[i + 1..];
        assert a == a[..i] + [id] + a[i + 1..];
        return;
      }
    }
    assert a[..|a|] == a;
    b := a;
  }

  class Tables {
    var tablesToReports: map<string, string>
    var reportsToTables: map<string, Handle>
    var baseReports: map<string, nat>
    var baseArray: seq<nat>
    var reports: map<nat, Report>
    var nextReport: nat

    ghost function AsMaps(): Maps
      reads this
    {
      Maps(tablesToReports, reportsToTables, baseReports, reports)
    }

    /** The array the update jobs walk lists every report object once. */
    ghost predicate Valid()
      reads this
    {
      && Sound(AsMaps())
      && multiset(baseArray) == multiset(reports.Keys)
      && (forall id :: id in reports ==> id < nextReport)
    }

    constructor ()
      ensures Valid() && AsMaps() == Maps(map[], map[], map[], map[])
    {
      tablesToReports, reportsToTables, baseReports := map[], map[], map[];
      baseArray, reports, nextReport := [], map[], 0;
    }

    /** Put a table on the list of its index, and count it if there is a report. */
    method Attach(name: string, index: string, kind: nat)
      requires index in reportsToTables && StdOk(AsMaps(), index)
      modifies this`reportsToTables, this`reports
      ensures reportsToTables == old(var h := reportsToTables[index]; reportsToTables[index := h.(tables := h.tables[name := kind])])
      ensures reports == old(Recounted(reports, reportsToTables[index].std, 1)) && reports.Keys == old(reports.Keys)
    {
      ghost var p := reports;
      var h := reportsToTables[index];
      if h.std.Some? {
        var id := h.std.value;
        reports := reports[id := reports[id].(useCount := reports[id].useCount + 1)];
      }
      assert reports.Keys == p.Keys;
      reportsToTables := reportsToTables[index := h.(tables := h.tables[name := kind])];
    }

    /** Open a table whose comment asks for `index`; reopening one changes nothing. */
    method Open(name: string, index: string, kind: nat)
      requires Valid() && SameComment(AsMaps(), name, index)
      modifies this
      ensures Valid() && AsMaps() == Opened(old(AsMaps()), name, index, kind)
      ensures tablesToReports == old(tablesToReports)[name := index]
      ensures baseReports == old(baseReports) && reports.Keys == old(reports.Keys)
    {
      ghost var m := AsMaps();
      OpenedSound(m, name, index, kind);
      assert IndexOk(m, index);
      if index !in reportsToTables {
        reportsToTables := reportsToTables[index := Handle(None, map[name := kind])];
      } else if name !in reportsToTables[index].tables {
        Attach(name, index, kind);
      }
      if name !in tablesToReports {
        tablesToReports := tablesToReports[name := index];
      }
      assert tablesToReports == m.t2r[name := index];
      assert AsMaps() == Opened(m, name, index, kind);
    }

    /** A new report object, registered under its index and listed for the update jobs. */
    method Make(index: string) returns (id: nat)
      requires index in reportsToTables
      requires multiset(baseArray) == multiset(reports.Keys) && forall i :: i in reports ==> i < nextReport
      modifies this
      ensures id !in old(reports) && AsMaps() == Created(old(AsMaps()), index, id)
      ensures multiset(baseArray) == multiset(reports.Keys) && forall i :: i in reports ==> i < nextReport
    {
      ghost var p := reports;
      id := nextReport;
      nextReport := nextReport + 1;
      baseReports := baseReports[index := id];
      baseArray := baseArray + [id];
      reports := reports[id := Report(index, |reportsToTables[index].tables|)];
      reportsToTables := reportsToTables[index := reportsToTables[index].(std := Some(id))];
      assert reports.Keys == p.Keys + {id};
    }

    /** First use of a report. Without any table attached to the index there is nothing to
        count, and the attempt is undone. */
    method Create(index: string) returns (id: Option<nat>)
      requires Valid()
      modifies this
      ensures Valid()
      ensures id.Some? <==> TablesOf(old(tablesToReports), index) != {}
      ensures index in old(baseReports) ==> id == Some(old(baseReports)[index])
      ensures id.Some? && index !in old(baseReports) ==> id.value !in old(reports) && index in old(reportsToTables)
                                                         && AsMaps() == Created(old(AsMaps()), index, id.value)
      ensures id.None? || index in old(baseReports) ==> AsMaps() == old(AsMaps())
    {
      ghost var m := AsMaps();
      assert IndexOk(m, index);
      if index in baseReports {
        id := Some(baseReports[index]);
      } else if index in reportsToTables {
        var object_ := Make(index);
        CreatedSound(m, index, object_);
        id := Some(object_);
      } else {
        id := None;
      }
    }

    /** Renaming moves the table within its report; an existing target is refused. */
    method Rename(from: string, to: string) returns (ok: bool)
      requires Valid()
      modifies this
      ensures Valid() && AsMaps() == Apply(old(AsMaps()), Renames(from, to))
      ensures ok <==> from !in old(tablesToReports) || to !in old(tablesToReports)
      ensures baseReports == old(baseReports) && reports == old(reports)
      ensures tablesToReports ==
              if ok && from in old(tablesToReports)
              then (old(tablesToReports) - {from})[to := old(tablesToReports)[from]]
              else old(tablesToReports)
    {
      ghost var m := AsMaps();
      if from !in tablesToReports {
        return true;
      }
      var index := tablesToReports[from];
      if to in tablesToReports {
        return false;
      }
      TableListed(m, from);
      RenamedSound(m, from, to);
      var h := reportsToTables[index];
      reportsToTables := reportsToTables[index := h.(tables := (h.tables - {from})[to := h.tables[from]])];
      tablesToReports := (tablesToReports - {from})[to := index];
      ok := true;
    }

    /** Drop a table; the report is destroyed with its last table and not before. */
    method DropTable(name: string)
      requires Valid()
      modifies this
      ensures Valid() && AsMaps() == Dropped(old(AsMaps()), name)
    {
      ghost var m := AsMaps();
      if name in tablesToReports {
        TableListed(m, name);
        WithoutSound(m, name);
        Detach(name);
      }
    }

    method Detach(name: string)
      requires Valid() && name in tablesToReports && tablesToReports[name] in reportsToTables
      modifies this
      ensures AsMaps() == Without(old(AsMaps()), name)
      ensures multiset(baseArray) == multiset(reports.Keys) && nextReport == old(nextReport) && reports.Keys <= old(reports.Keys)
    {
      ghost var m := AsMaps();
      var index := tablesToReports[name];
      LastIsAlone(m, name);
      tablesToReports := tablesToReports - {name};
      var h := reportsToTables[index];
      var tables := h.tables - {name};
      if h.std.None? {
        reportsToTables := if |tables| == 0 then reportsToTables - {index} else reportsToTables[index := h.(tables := tables)];
      } else {
        Release(h.std.value, index, h.(tables := tables));
      }
    }

    /** Give up one use of a report, and the report itself when that was the last. */
    method Release(id: nat, index: string, h: Handle)
      requires index in reportsToTables && id in reports && reports[id].index == index && reports[id].useCount > 0
      requires multiset(baseArray) == multiset(reports.Keys)
      modifies this`reportsToTables, this`baseReports, this`baseArray, this`reports
      ensures multiset(baseArray) == multiset(reports.Keys) && reports.Keys <= old(reports.Keys)
      ensures old(reports)[id].useCount == 1 ==>
                && reportsToTables == old(reportsToTables) - {index} && baseReports == old(baseReports) - {index}
                && reports == old(reports) - {id}
      ensures old(reports)[id].useCount != 1 ==>
                && reportsToTables == old(reportsToTables)[index := h] && baseReports == old(baseReports)
                && reports == Recounted(old(reports), Some(id), -1)
    {
      ghost var p := reports;
      var left := reports[id].useCount - 1;
      if left == 0 {
        reportsToTables := reportsToTables - {index};
        baseReports := baseReports - {reports[id].index};
        assert id in multiset(baseArray);
        baseArray := ArrayDelete(baseArray, id);
        reports := reports - {id};
        assert p.Keys == reports.Keys + {id};
      } else {
        reportsToTables := reportsToTables[index := h];
        reports := reports[id := reports[id].(useCount := left)];
        assert reports.Keys == p.Keys;
      }
    }
  }

  /** The use count, and the tables left, both tell whether a table is the last. */
  lemma LastIsAlone(m: Maps, name: string)
    requires Sound(m) && name in m.t2r && m.t2r[name] in m.r2t
    ensures var h := m.r2t[m.t2r[name]];
            && (IsLast(m, name) <==> |h.tables - {name}| == 0)
            && (h.std.None? ==> m.base - {m.t2r[name]} == m.base)
            && (h.std.Some? ==> h.std.value in m.reports && m.reports[h.std.value].useCount > 0
                                && m.reports[h.std.value].index == m.t2r[name]
                                && (IsLast(m, name) <==> m.reports[h.std.value].useCount == 1))
  {
    var index := m.t2r[name];
    var ts := TablesOf(m.t2r, index);
    assert IndexOk(m, index);
    assert name in ts;
    OneLess(ts, name);
    MapCount(m.r2t[index].tables - {name});
    assert (m.r2t[index].tables - {name}).Keys == ts - {name};
    assert ts - {name} == {} <==> ts == {name};
  }
}
