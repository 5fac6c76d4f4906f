/** Where every request goes: each one decoded from a datagram, nested ones included, ends in
    exactly one of the pipeline's counters. */
module Accounting {
  import opened Types
  import opened Time
  import opened Batch
  import opened Engine
  import opened Validation
  import Append
  import Merge
  import Jobs

  /** A decoded datagram: a request and the requests nested in it. `growOk` says whether the
      staging pool could grow for it, `resourcesOk` whether its words and tags found room, and
      `record` is what staging then makes of it. */
  datatype Tree = Missing | Node(request: Request, growOk: bool, resourcesOk: bool, record: Staged, kids: seq<Tree>)

  /** Every request of a tree, parents before their children. */
  ghost function Preorder(t: Tree): seq<Tree>
    decreases t
  {
    if t.Missing? then [] else [t] + PreorderAll(t.kids, |t.kids|)
  }

  ghost function PreorderAll(ts: seq<Tree>, n: nat): seq<Tree>
    requires n <= |ts|
    decreases ts, n
  {
    if n == 0 then [] else PreorderAll(ts, n - 1) + Preorder(ts[n - 1])
  }

  /** The pipeline's counters. */
  datatype Ledger = Ledger(
    checked: nat, valid: nat, faults: Faults,
    stageRejects: nat, resourceRejects: nat, staged: nat,
    capacityDrops: nat, allocationDrops: nat, admitted: nat, expired: nat)

  /** Invalid requests, in all and by reason. */
  datatype Faults = Faults(invalid: nat, timerArrays: nat, flattenedTags: nat, dictionaryIndex: nat, representation: nat)

  function Invalid(f: Faults, e: Error): Faults {
    var f' := f.(invalid := f.invalid + 1);
    match e
    case TimerArrays => f'.(timerArrays := f'.timerArrays + 1)
    case FlattenedTags => f'.(flattenedTags := f'.flattenedTags + 1)
    case DictionaryIndex => f'.(dictionaryIndex := f'.dictionaryIndex + 1)
    case RepresentationLimit => f'.(representation := f'.representation + 1)
    case NoError => f'
  }

  /** Each stage's inputs are the sum of its outcomes. */
  ghost predicate FrontBalanced(l: Ledger) {
    && l.checked == l.valid + l.faults.invalid
    && l.faults.invalid == l.faults.timerArrays + l.faults.flattenedTags + l.faults.dictionaryIndex + l.faults.representation
    && l.valid == l.staged + l.stageRejects + l.resourceRejects
  }

  ghost predicate Balanced(l: Ledger, live: nat) {
    && FrontBalanced(l)
    && l.staged == l.admitted + l.capacityDrops + l.allocationDrops
    && live == l.admitted - l.expired
  }

  /** One collector's staging pool while its job runs. */
  datatype Stage = Stage(ledger: Ledger, pool: seq<Staged>, size: nat)

  ghost predicate Roomy(s: Stage, t: Tree)
    requires t.Node?
  {
    |s.pool| < s.size || t.growOk
  }

  /** A faulty request is counted once in all and once under the first of its faults. */
  ghost predicate FaultsAfter(f: Faults, r: Request, f': Faults) {
    && f'.invalid == f.invalid + (if WellFormed(r) then 0 else 1)
    && f'.timerArrays == f.timerArrays + (if !Parallel(r) then 1 else 0)
    && f'.representation == f.representation + (if LimitBroken(r) then 1 else 0)
    && f'.flattenedTags == f.flattenedTags + (if TagsBroken(r) then 1 else 0)
    && f'.dictionaryIndex == f.dictionaryIndex
       + (if !WellFormed(r) && Parallel(r) && !LimitBroken(r) && !TagsBroken(r) then 1 else 0)
  }

  /** The request is staged: it is well formed and there is room and memory for it. */
  ghost predicate Staging(s: Stage, t: Tree)
    requires t.Node?
  {
    WellFormed(t.request) && Roomy(s, t) && t.resourcesOk
  }

  /** What becomes of one request; every part of the new stage is given. */
  ghost predicate StagedAs(s: Stage, t: Tree, growth: nat, s': Stage)
    requires t.Node?
  {
    && s'.pool == s.pool + (if Staging(s, t) then [t.record] else [])
    && s'.size == s.size + (if WellFormed(t.request) && |s.pool| == s.size && t.growOk then growth else 0)
    && s'.ledger.checked == s.ledger.checked + 1
    && s'.ledger.valid == s.ledger.valid + (if WellFormed(t.request) then 1 else 0)
    && FaultsAfter(s.ledger.faults, t.request, s'.ledger.faults)
    && s'.ledger.staged == s.ledger.staged + (if Staging(s, t) then 1 else 0)
    && s'.ledger.stageRejects == s.ledger.stageRejects + (if WellFormed(t.request) && !Roomy(s, t) then 1 else 0)
    && s'.ledger.resourceRejects
       == s.ledger.resourceRejects + (if WellFormed(t.request) && Roomy(s, t) && !t.resourcesOk then 1 else 0)
    && SameBack(s.ledger, s'.ledger)
    && (FrontBalanced(s.ledger) ==> FrontBalanced(s'.ledger))
  }

  ghost predicate SameBack(l: Ledger, l': Ledger) {
    l'.capacityDrops == l.capacityDrops && l'.allocationDrops == l.allocationDrops
    && l'.admitted == l.admitted && l'.expired == l.expired
  }

  /** Staging one request; its children are looked at whatever became of it. */
  method StageOne(s: Stage, t: Tree, growth: nat) returns (s': Stage)
    requires t.Node? && growth > 0 && |s.pool| <= s.size
    ensures StagedAs(s, t, growth, s') && |s'.pool| <= s'.size
  {
    s' := s.(ledger := s.ledger.(checked := s.ledger.checked + 1));
    var e := Validate(t.request);
    if e != NoError {
      return s'.(ledger := s'.ledger.(faults := Invalid(s'.ledger.faults, e)));
    }
    s' := s'.(ledger := s'.ledger.(valid := s'.ledger.valid + 1));
    if |s'.pool| == s'.size {
      if !t.growOk {
        return s'.(ledger := s'.ledger.(stageRejects := s'.ledger.stageRejects + 1));
      }
      s' := s'.(size := s'.size + growth);
    }
    if !t.resourcesOk {
      return s'.(ledger := s'.ledger.(resourceRejects := s'.ledger.resourceRejects + 1));
    }
    s' := s'.(pool := s'.pool + [t.record], ledger := s'.ledger.(staged := s'.ledger.staged + 1));
  }

  /** `stages` are the stages before, between and after the requests `ts`, one by one. */
  ghost predicate Chain(stages: seq<Stage>, ts: seq<Tree>, growth: nat) {
    |stages| == |ts| + 1 && forall i :: 0 <= i < |ts| ==> Link(stages, ts, growth, i)
  }

  ghost predicate Link(stages: seq<Stage>, ts: seq<Tree>, growth: nat, i: nat)
    requires i < |ts| && |stages| == |ts| + 1
  {
    ts[i].Node? && StagedAs(stages[i], ts[i], growth, stages[i + 1])
  }

  /** A whole pool's worth of staging, from `s` to `s'`. */
  ghost predicate StagedAll(s: Stage, ts: seq<Tree>, growth: nat, s': Stage, stages: seq<Stage>) {
    Chain(stages, ts, growth) && stages[0] == s && stages[|ts|] == s'
  }

  lemma StagedNone(s: Stage, growth: nat)
    ensures StagedAll(s, [], growth, s, [s])
  {
  }

  lemma StagedOne(s: Stage, t: Tree, growth: nat, s': Stage)
    requires t.Node? && StagedAs(s, t, growth, s')
    ensures StagedAll(s, [t], growth, s', [s, s'])
  {
    assert Link([s, s'], [t], growth, 0);
  }

  lemma StagedConcat(s: Stage, ts: seq<Tree>, growth: nat, mid: Stage, a: seq<Stage>, us: seq<Tree>, s': Stage, b: seq<Stage>)
    requires StagedAll(s, ts, growth, mid, a) && StagedAll(mid, us, growth, s', b)
    ensures StagedAll(s, ts + us, growth, s', a + b[1..])
  {
    var ab, vs := a + b[1..], ts + us;
    forall i | 0 <= i < |vs| ensures Link(ab, vs, growth, i) {
      if i < |ts| {
        assert Link(a, ts, growth, i);
      } else {
        assert Link(b, us, growth, i - |ts|);
        assert ab[i] == b[i - |ts|] && ab[i + 1] == b[i + 1 - |ts|];
      }
    }
  }

  /** The records that staging chose, in order. */
  ghost function Chosen(stages: seq<Stage>, ts: seq<Tree>, n: nat): seq<Staged>
    requires n <= |ts| < |stages| && forall i :: 0 <= i < n ==> ts[i].Node?
  {
    if n == 0 then [] else Chosen(stages, ts, n - 1) + if Staging(stages[n - 1], ts[n - 1]) then [ts[n - 1].record] else []
  }

  /** The requests among the first `n` that are not well formed. */
  ghost function Malformed(ts: seq<Tree>, n: nat): set<nat>
    requires n <= |ts| && forall i :: 0 <= i < n ==> ts[i].Node?
  {
    set i: nat | i < n && !WellFormed(ts[i].request)
  }

  lemma ChainNodes(stages: seq<Stage>, ts: seq<Tree>, growth: nat)
    requires Chain(stages, ts, growth)
    ensures forall i :: 0 <= i < |ts| ==> ts[i].Node?
  {
    forall i | 0 <= i < |ts| ensures ts[i].Node? {
      assert Link(stages, ts, growth, i);
    }
  }

  /** After a chain the pool has gained exactly the chosen records, and the counters say how many
      requests were checked, malformed, valid and staged; a balanced ledger stays so. */
  lemma {:induction false} ChainExact(stages: seq<Stage>, ts: seq<Tree>, growth: nat, n: nat)
    requires Chain(stages, ts, growth) && n <= |ts|
    requires forall i :: 0 <= i < |ts| ==> ts[i].Node?
    ensures stages[n].pool == stages[0].pool + Chosen(stages, ts, n)
    ensures var l, l' := stages[0].ledger, stages[n].ledger;
            && l'.checked == l.checked + n && l'.staged == l.staged + |Chosen(stages, ts, n)|
            && l'.faults.invalid == l.faults.invalid + |Malformed(ts, n)|
            && l'.valid - l.valid == n - |Malformed(ts, n)|
            && SameBack(l, l') && (FrontBalanced(l) ==> FrontBalanced(l'))
  {
    if n == 0 {
      assert Malformed(ts, 0) == {};
    } else {
      ChainExact(stages, ts, growth, n - 1);
      assert Link(stages, ts, growth, n - 1);
      MalformedNext(ts, n - 1);
    }
  }

  lemma MalformedNext(ts: seq<Tree>, n: nat)
    requires n < |ts| && forall i :: 0 <= i < |ts| ==> ts[i].Node?
    ensures |Malformed(ts, n + 1)| == |Malformed(ts, n)| + if WellFormed(ts[n].request) then 0 else 1
  {
    assert Malformed(ts, n + 1) == if WellFormed(ts[n].request) then Malformed(ts, n) else Malformed(ts, n) + {n};
  }

  /** With room for all and enough memory, exactly the well-formed requests are staged. */
  lemma {:induction false} AllWellFormedStaged(stages: seq<Stage>, ts: seq<Tree>, growth: nat, n: nat)
    requires Chain(stages, ts, growth) && n <= |ts|
    requires forall i :: 0 <= i < |ts| ==> ts[i].Node? && ts[i].growOk && ts[i].resourcesOk
    ensures Chosen(stages, ts, n) == Records(ts, n)
  {
    if n > 0 { AllWellFormedStaged(stages, ts, growth, n - 1); }
  }

  ghost function Records(ts: seq<Tree>, n: nat): seq<Staged>
    requires n <= |ts| && forall i :: 0 <= i < |ts| ==> ts[i].Node?
  {
    if n == 0 then [] else Records(ts, n - 1) + if WellFormed(ts[n - 1].request) then [ts[n - 1].record] else []
  }

  /** Work through one datagram's tree. */
  method StageTree(s: Stage, t: Tree, growth: nat) returns (s': Stage, ghost stages: seq<Stage>)
    requires growth > 0 && |s.pool| <= s.size
    ensures StagedAll(s, Preorder(t), growth, s', stages) && |s'.pool| <= s'.size
    decreases t
  {
    StagedNone(s, growth);
    if t.Missing? {
      return s, [s];
    }
    s' := StageOne(s, t, growth);
    StagedOne(s, t, growth, s');
    stages := [s, s'];
    assert [t] == [t] + [];
    for i := 0 to |t.kids|
      invariant StagedAll(s, [t] + PreorderAll(t.kids, i), growth, s', stages) && |s'.pool| <= s'.size
    {
      ghost var mid, done := s', [t] + PreorderAll(t.kids, i);
      ghost var more;
      s', more := StageTree(s', t.kids[i], growth);
      StagedConcat(s, done, growth, mid, stages, Preorder(t.kids[i]), s', more);
      stages := stages + more[1..];
      assert done + Preorder(t.kids[i]) == [t] + PreorderAll(t.kids, i + 1);
    }
  }

  /** One collector's job: all datagrams of its read pool, into its empty staging pool. */
  method StageJob(l: Ledger, packets: seq<Tree>, size: nat, growth: nat) returns (s': Stage, ghost stages: seq<Stage>)
    requires growth > 0
    ensures StagedAll(Stage(l, [], size), PreorderAll(packets, |packets|), growth, s', stages)
    ensures s'.ledger.checked == l.checked + |PreorderAll(packets, |packets|)|
    ensures s'.ledger.staged == l.staged + |s'.pool| && |s'.pool| <= s'.size
  {
    s' := Stage(l, [], size);
    ghost var s := s';
    StagedNone(s, growth);
    stages := [s];
    for i := 0 to |packets|
      invariant StagedAll(s, PreorderAll(packets, i), growth, s', stages) && |s'.pool| <= s'.size
    {
      ghost var mid, more := s', [];
      s', more := StageTree(s', packets[i], growth);
      StagedConcat(s, PreorderAll(packets, i), growth, mid, stages, Preorder(packets[i]), s', more);
      stages := stages + more[1..];
    }
    ghost var ts := PreorderAll(packets, |packets|);
    ChainNodes(stages, ts, growth);
    ChainExact(stages, ts, growth, |ts|);
  }

  /** Requests in the read pools of all collectors. */
  ghost function Requests(packets: seq<seq<Tree>>, n: nat): nat
    requires n <= |packets|
  {
    if n == 0 then 0 else Requests(packets, n - 1) + |PreorderAll(packets[n - 1], |packets[n - 1]|)|
  }

  /** What a valid request's record looks like when no tag allocation failed. */
  ghost predicate Faithful(t: Tree, ids: map<string, nat>) {
    t.Node? && WellFormed(t.request) ==>
      && Described(t.request, ids) && t.record.listed == |t.request.hits|
      && Unpacked(t.request, |t.request.hits|, 0, ids, {}, t.record.timers)
  }

  ghost predicate FaithfulAll(ts: seq<Tree>, ids: map<string, nat>) {
    forall i :: 0 <= i < |ts| ==> Faithful(ts[i], ids)
  }

  /** Validated requests are staged with timers that the window may admit. */
  lemma {:induction false} StagedGood(stages: seq<Stage>, ts: seq<Tree>, growth: nat, n: nat, ids: map<string, nat>)
    requires Chain(stages, ts, growth) && n <= |ts| && FaithfulAll(ts, ids) && GoodBatch(stages[0].pool)
    ensures GoodBatch(stages[n].pool)
  {
    if n > 0 {
      StagedGood(stages, ts, growth, n - 1, ids);
      assert Link(stages, ts, growth, n - 1);
      var t := ts[n - 1];
      assert Faithful(t, ids);
      if WellFormed(t.request) { ValidatedIsAdmissible(t.request, t.record, 0, ids); }
    }
  }

  lemma GoodConcat(a: seq<Staged>, b: seq<Staged>)
    requires GoodBatch(a) && GoodBatch(b)
    ensures GoodBatch(a + b)
  {
  }

  /** The staging pools `tmp` of the first `n` collectors, and how each came about: the jobs ran on
      one ledger after another, each from an empty pool. */
  ghost predicate JobsRan(l: Ledger, packets: seq<seq<Tree>>, n: nat, size: nat, growth: nat,
                          runs: seq<seq<Stage>>, tmp: seq<seq<Staged>>)
  {
    && n <= |packets| && |runs| == |tmp| == n
    && forall i :: 0 <= i < n ==> JobRan(l, packets, size, growth, runs, tmp, i)
  }

  ghost function LedgerAfter(l: Ledger, runs: seq<seq<Stage>>, n: nat): Ledger
    requires n <= |runs|
  {
    if n == 0 then l else if runs[n - 1] == [] then l else runs[n - 1][|runs[n - 1]| - 1].ledger
  }

  ghost predicate JobRan(l: Ledger, packets: seq<seq<Tree>>, size: nat, growth: nat, runs: seq<seq<Stage>>, tmp: seq<seq<Staged>>, i: nat)
    requires i < |packets| && i < |runs| && i < |tmp|
  {
    && runs[i] != []
    && var last := runs[i][|runs[i]| - 1];
       && StagedAll(Stage(LedgerAfter(l, runs, i), [], size), PreorderAll(packets[i], |packets[i]|), growth, last, runs[i])
       && tmp[i] == last.pool
  }

  lemma StagedMore(l: Ledger, packets: seq<seq<Tree>>, n: nat, size: nat, growth: nat,
                   runs: seq<seq<Stage>>, tmp: seq<seq<Staged>>, stages: seq<Stage>)
    requires JobsRan(l, packets, n, size, growth, runs, tmp) && n < |packets| && stages != []
    requires StagedAll(Stage(LedgerAfter(l, runs, n), [], size), PreorderAll(packets[n], |packets[n]|), growth, stages[|stages| - 1], stages)
    ensures var last := stages[|stages| - 1];
            && JobsRan(l, packets, n + 1, size, growth, runs + [stages], tmp + [last.pool])
            && LedgerAfter(l, runs + [stages], n + 1) == last.ledger
  {
    var last := stages[|stages| - 1];
    forall i | 0 <= i < n + 1 ensures JobRan(l, packets, size, growth, runs + [stages], tmp + [last.pool], i) {
      if i < n { assert JobRan(l, packets, size, growth, runs, tmp, i); }
    }
  }

  /** All requests checked, all that came to the pools counted as staged, and a balanced front
      half stays balanced. */
  lemma {:induction false} StagedBalance(l: Ledger, packets: seq<seq<Tree>>, n: nat, size: nat, growth: nat,
                                         runs: seq<seq<Stage>>, tmp: seq<seq<Staged>>)
    requires JobsRan(l, packets, n, size, growth, runs, tmp)
    ensures var l' := LedgerAfter(l, runs, n);
            && l'.checked == l.checked + Requests(packets, n) && l'.staged == l.staged + |Jobs.Concat(tmp)|
            && SameBack(l, l') && (FrontBalanced(l) ==> FrontBalanced(l'))
    decreases n
  {
    if n > 0 {
      var m := n - 1;
      forall i | 0 <= i < m ensures JobRan(l, packets, size, growth, runs[..m], tmp[..m], i) {
        assert JobRan(l, packets, size, growth, runs, tmp, i);
      }
      StagedBalance(l, packets, m, size, growth, runs[..m], tmp[..m]);
      assert LedgerAfter(l, runs[..m], m) == LedgerAfter(l, runs, m);
      assert JobRan(l, packets, size, growth, runs, tmp, m);
      var ts := PreorderAll(packets[m], |packets[m]|);
      ChainNodes(runs[m], ts, growth);
      ChainExact(runs[m], ts, growth, |ts|);
      ConcatSnoc(tmp[..m], tmp[m]);
      assert tmp[..m] + [tmp[m]] == tmp;
    } else {
      assert tmp == [];
    }
  }

  /** The copied requests `f` that succeeded follow what was live, in order, with their timers if
      those were stored. */
  ghost predicate BecameLive(f: seq<Staged>, stored: bool, inp: nat, size: nat, counter: nat, live: seq<Entry>, live': seq<Entry>) {
    inp < size && |f| <= size && live' == live + Append.NewEntries(Engine.Kept(f, stored), inp, size, counter)
  }

  /** The ledger once the staged requests `all` were offered, `f` of them to the copy jobs. */
  ghost function Settled(l: Ledger, all: seq<Staged>, f: seq<Staged>, buffersOk: bool): Ledger
    requires |f| <= |all|
  {
    if buffersOk then
      l.(admitted := l.admitted + Succ(f, |f|), allocationDrops := l.allocationDrops + (|f| - Succ(f, |f|)),
         capacityDrops := l.capacityDrops + (|all| - |f|))
    else l.(allocationDrops := l.allocationDrops + |all|)
  }

  lemma NobodyNew(f: seq<Staged>, inp: nat, size: nat, counter: nat, live: seq<Entry>)
    requires f == [] && inp < size
    ensures BecameLive(f, false, inp, size, counter, live, live)
  {
    assert Append.NewEntries(Engine.Kept(f, false), inp, size, counter) == [];
    assert live + [] == live;
  }

  /** Balanced but for `total` requests that were staged and not yet offered. */
  ghost predicate Unsettled(l: Ledger, live: nat, total: nat) {
    && FrontBalanced(l) && l.staged == l.admitted + l.capacityDrops + l.allocationDrops + total
    && live == l.admitted - l.expired
  }

  class Pipeline {
    const window: RawWindow
    const stagingSize: nat
    const stagingGrowth: nat
    var ledger: Ledger

    ghost predicate Valid()
      reads this, window, window.reqs, window.reqs.data, window.tims, window.tims.data
    {
      window.Valid() && stagingGrowth > 0 && Balanced(ledger, |window.Live()|)
    }

    /** Starting from balanced counters; all of them zero balance an empty window. */
    constructor (window: RawWindow, ledger: Ledger, stagingSize: nat, stagingGrowth: nat)
      requires window.Valid() && Balanced(ledger, |window.Live()|) && stagingGrowth > 0
      ensures Valid() && this.window == window && this.ledger == ledger
    {
      this.window, this.stagingSize, this.stagingGrowth := window, stagingSize, stagingGrowth;
      this.ledger := ledger;
    }

    /** The staging jobs of all collectors. */
    method StageBatch(packets: seq<seq<Tree>>, ghost ids: map<string, nat>)
      returns (tmp: seq<seq<Staged>>, total: nat, ghost runs: seq<seq<Stage>>)
      requires stagingGrowth > 0
      requires forall i :: 0 <= i < |packets| ==> FaithfulAll(PreorderAll(packets[i], |packets[i]|), ids)
      modifies this`ledger
      ensures JobsRan(old(ledger), packets, |packets|, stagingSize, stagingGrowth, runs, tmp)
      ensures ledger == LedgerAfter(old(ledger), runs, |runs|)
      ensures total == |Jobs.Concat(tmp)| == ledger.staged - old(ledger.staged) && GoodBatch(Jobs.Concat(tmp))
      ensures ledger.checked == old(ledger.checked) + Requests(packets, |packets|)
      ensures SameBack(old(ledger), ledger) && (FrontBalanced(old(ledger)) ==> FrontBalanced(ledger))
    {
      tmp, total, runs := [], 0, [];
      for i := 0 to |packets|
        invariant JobsRan(old(ledger), packets, i, stagingSize, stagingGrowth, runs, tmp)
        invariant ledger == LedgerAfter(old(ledger), runs, i)
        invariant total == |Jobs.Concat(tmp)| && GoodBatch(Jobs.Concat(tmp))
      {
        var s;
        ghost var stages;
        s, stages := StageJob(ledger, packets[i], stagingSize, stagingGrowth);
        StagedGood(stages, PreorderAll(packets[i], |packets[i]|), stagingGrowth, |stages| - 1, ids);
        ConcatSnoc(tmp, s.pool);
        GoodConcat(Jobs.Concat(tmp), s.pool);
        StagedMore(old(ledger), packets, i, stagingSize, stagingGrowth, runs, tmp, stages);
        ledger := s.ledger;
        tmp, total, runs := tmp + [s.pool], total + |s.pool|, runs + [stages];
      }
      StagedBalance(old(ledger), packets, |packets|, stagingSize, stagingGrowth, runs, tmp);
    }

    /** Offer a staged batch to the window and say what became of it. */
    method Offer(tmp: seq<seq<Staged>>, total: nat, memOk: bool) returns (admitted: nat, lost: nat, failed: nat, stored: bool)
      requires window.Valid() && GoodBatch(Jobs.Concat(tmp)) && total == |Jobs.Concat(tmp)|
      modifies window, window.reqs, window.reqs.data, window.tims, window.tims.data
      ensures window.Valid() && (window.tims.data == old(window.tims.data) || fresh(window.tims.data))
      ensures window.reqs.data == old(window.reqs.data)
      ensures var f := Taken(Jobs.Concat(tmp), old(window.Room()));
              && admitted == Succ(f, |f|) && failed == |f| - admitted && lost == total - |f|
              && BecameLive(f, stored, old(window.reqs.inp), window.reqs.data.Length, old(window.counter), old(window.Live()), window.Live())
              && (stored <==> Merge.JobTimers(f, |f|) > 0 && (memOk || old(window.TimersFit(Merge.JobTimers(f, |f|)))))
      ensures old(window.Live()) <= window.Live() && |window.Live()| == old(|window.Live()|) + admitted
      ensures admitted + lost + failed == total
      ensures lost > 0 ==> admitted + failed == old(window.Room())
    {
      var room := window.Room();
      lost := if room < total then total - room else 0;
      var accounted := total - lost;
      var entries, atIn;
      entries, stored, atIn := window.Admit(tmp, memOk);
      admitted := |entries|;
      failed := accounted - admitted;
    }

    /** One turn of the data thread. A request that was staged is admitted, or dropped because
        the window is full, or dropped because memory was short; `buffersOk` says whether the
        report jobs could be set up at all. */
    method Batch(packets: seq<seq<Tree>>, buffersOk: bool, memOk: bool, ghost ids: map<string, nat>)
      returns (stored: bool, ghost tmp: seq<seq<Staged>>, ghost runs: seq<seq<Stage>>)
      requires Valid()
      requires forall i :: 0 <= i < |packets| ==> FaithfulAll(PreorderAll(packets[i], |packets[i]|), ids)
      modifies this`ledger, window, window.reqs, window.reqs.data, window.tims, window.tims.data
      ensures Valid() && (window.tims.data == old(window.tims.data) || fresh(window.tims.data))
      ensures window.reqs.data == old(window.reqs.data)
      ensures var f := if buffersOk then Taken(Jobs.Concat(tmp), old(window.Room())) else [];
              && BecameLive(f, stored, old(window.reqs.inp), window.reqs.data.Length, old(window.counter), old(window.Live()), window.Live())
              && (stored <==> Merge.JobTimers(f, |f|) > 0 && (memOk || old(window.TimersFit(Merge.JobTimers(f, |f|)))))
              && JobsRan(old(ledger), packets, |packets|, stagingSize, stagingGrowth, runs, tmp)
              && ledger == Settled(LedgerAfter(old(ledger), runs, |runs|), Jobs.Concat(tmp), f, buffersOk)
      ensures ledger.checked == old(ledger.checked) + Requests(packets, |packets|)
      ensures ledger.expired == old(ledger.expired) && old(window.Live()) <= window.Live()
      ensures ledger.capacityDrops > old(ledger.capacityDrops) ==>
                ledger.admitted + ledger.allocationDrops == old(ledger.admitted + ledger.allocationDrops + window.Room())
    {
      var all, total;
      all, total, runs := StageBatch(packets, ids);
      tmp := all;
      stored := Settle(all, total, buffersOk, memOk);
    }

    /** What becomes of the staged requests. */
    method Settle(all: seq<seq<Staged>>, total: nat, buffersOk: bool, memOk: bool) returns (stored: bool)
      requires window.Valid() && GoodBatch(Jobs.Concat(all)) && total == |Jobs.Concat(all)| && stagingGrowth > 0
      requires Unsettled(ledger, |window.Live()|, total)
      modifies this`ledger, window, window.reqs, window.reqs.data, window.tims, window.tims.data
      ensures Valid() && (window.tims.data == old(window.tims.data) || fresh(window.tims.data))
      ensures window.reqs.data == old(window.reqs.data)
      ensures var f := if buffersOk then Taken(Jobs.Concat(all), old(window.Room())) else [];
              && BecameLive(f, stored, old(window.reqs.inp), window.reqs.data.Length, old(window.counter), old(window.Live()), window.Live())
              && (stored <==> Merge.JobTimers(f, |f|) > 0 && (memOk || old(window.TimersFit(Merge.JobTimers(f, |f|)))))
              && ledger == Settled(old(ledger), Jobs.Concat(all), f, buffersOk)
    {
      if total > 0 && buffersOk {
        stored := SettleOffered(all, total, memOk);
      } else {
        stored := false;
        if total > 0 { ledger := ledger.(allocationDrops := ledger.allocationDrops + total); }
        NobodyNew([], window.reqs.inp, window.reqs.data.Length, window.counter, window.Live());
      }
    }

    method SettleOffered(all: seq<seq<Staged>>, total: nat, memOk: bool) returns (stored: bool)
      requires window.Valid() && GoodBatch(Jobs.Concat(all)) && total == |Jobs.Concat(all)| && stagingGrowth > 0
      requires Unsettled(ledger, |window.Live()|, total)
      modifies this`ledger, window, window.reqs, window.reqs.data, window.tims, window.tims.data
      ensures Valid() && (window.tims.data == old(window.tims.data) || fresh(window.tims.data))
      ensures window.reqs.data == old(window.reqs.data)
      ensures var f := Taken(Jobs.Concat(all), old(window.Room()));
              && BecameLive(f, stored, old(window.reqs.inp), window.reqs.data.Length, old(window.counter), old(window.Live()), window.Live())
              && (stored <==> Merge.JobTimers(f, |f|) > 0 && (memOk || old(window.TimersFit(Merge.JobTimers(f, |f|)))))
              && ledger == Settled(old(ledger), Jobs.Concat(all), f, true)
    {
      ghost var live := |window.Live()|;
      var admitted, lost, failed;
      admitted, lost, failed, stored := Offer(all, total, memOk);
      ledger := ledger.(allocationDrops := ledger.allocationDrops + failed,
                        admitted := ledger.admitted + admitted,
                        capacityDrops := ledger.capacityDrops + lost);
      assert Balanced(ledger, live + admitted);
    }

    /** One turn of the expiry thread. */
    method Expire(from: Timeval) returns (expired: seq<Entry>)
      requires Valid()
      modifies this`ledger, window.reqs, window.reqs.data, window.tims, window.tims.data
      ensures Valid() && window.reqs.data == old(window.reqs.data) && window.tims.data == old(window.tims.data)
      ensures ledger == old(ledger).(expired := ledger.expired)
      ensures ledger.expired - old(ledger.expired) == |old(window.Live())| - |window.Live()| >= 0
      ensures expired + window.Live() == old(window.Live()) && (forall k :: 0 <= k < |expired| ==> Less(expired[k].time, from))
      ensures window.Live() != [] ==> !Less(window.Live()[0].time, from)
    {
      expired := window.Expire(from);
      ledger := ledger.(expired := ledger.expired + |expired|);
    }
  }
}
