/** The double-buffered hand-off from the collectors to the data thread. Collectors push into
    the write pools under a shared lock; the data thread swaps write and read pools under the
    exclusive lock, works on the read pools with no lock at all, and then empties them. */
module HandOff {
  /** A collector between taking and releasing the shared lock. It captures its pool's side
      when it gets the lock, and publishes what it enqueued before it lets go. */
  datatype Collector = Out | Filling(side: bool, enqueued: nat) | Published(side: bool)

  /** One collector's pair of pools. The histories say what was pushed, worked on and freed. */
  datatype Lane<D> = Lane(
    collector: Collector, left: seq<D>, right: seq<D>, worked: bool,
    arrived: seq<D>, processed: seq<D>, freed: seq<D>)
  {
    function Pool(side: bool): seq<D> {
      if side then right else left
    }

    function WithPool(side: bool, ds: seq<D>): Lane<D> {
      if side then this.(right := ds) else this.(left := ds)
    }
  }

  /** Where the data thread is in its loop. */
  datatype Phase = Resting | Locked | Swapped | Working | Cleaning(next: nat)

  /** `side` is the write side; `live`, `enqueued` and `completed` are the shared counters. */
  datatype State<D> = State(lanes: seq<Lane<D>>, side: bool, phase: Phase, live: int, enqueued: nat, completed: nat)

  datatype Action<D> =
    | Enter(t: nat) | Push(t: nat, d: D) | Drop(t: nat) | Publish(t: nat) | Leave(t: nat)
    | Lock | Swap | Unlock | Work(t: nat) | Barrier | Clean | Finish

  ghost predicate Exclusive(p: Phase) {
    p.Locked? || p.Swapped?
  }

  ghost predicate IsLane<D>(s: State<D>, a: Action<D>) {
    (a.Enter? || a.Push? || a.Drop? || a.Publish? || a.Leave? || a.Work?) ==> a.t < |s.lanes|
  }

  ghost predicate Enabled<D>(s: State<D>, a: Action<D>) {
    && IsLane(s, a)
    && match a
       case Enter(t) => s.lanes[t].collector.Out? && !Exclusive(s.phase)
       case Push(t, _) => s.lanes[t].collector.Filling?
       case Drop(t) => s.lanes[t].collector.Filling?
       case Publish(t) => s.lanes[t].collector.Filling?
       case Leave(t) => s.lanes[t].collector.Published?
       case Lock => s.phase.Resting? && forall t :: 0 <= t < |s.lanes| ==> s.lanes[t].collector.Out?
       case Swap => s.phase.Locked?
       case Unlock => s.phase.Swapped?
       case Work(t) => s.phase.Working? && !s.lanes[t].worked
       case Barrier => s.phase.Working? && forall t :: 0 <= t < |s.lanes| ==> s.lanes[t].worked
       case Clean => s.phase.Cleaning? && s.phase.next < |s.lanes|
       case Finish => s.phase.Cleaning? && s.phase.next == |s.lanes|
  }

  /** The effect of a step on the lane it concerns. A push goes to the side captured on
      entry, and a pool that cannot grow drops the datagram. */
  ghost function LaneAfter<D>(l: Lane<D>, a: Action<D>, write: bool): Lane<D> {
    match a
    case Enter(_) => l.(collector := Filling(write, 0))
    case Push(_, d) =>
      if l.collector.Filling? then
        l.WithPool(l.collector.side, l.Pool(l.collector.side) + [d])
        .(collector := Filling(l.collector.side, l.collector.enqueued + 1), arrived := l.arrived + [d])
      else l
    case Publish(_) => if l.collector.Filling? then l.(collector := Published(l.collector.side)) else l
    case Leave(_) => l.(collector := Out)
    case Work(_) => l.(worked := true, processed := l.processed + l.Pool(!write))
    case Clean => l.WithPool(!write, []).(worked := false, freed := l.freed + l.Pool(!write))
    case _ => l
  }

  ghost function Do<D>(s: State<D>, a: Action<D>): State<D>
    requires Enabled(s, a)
  {
    match a
    case Lock => s.(phase := Locked)
    case Swap => s.(phase := Swapped, side := !s.side)
    case Unlock => s.(phase := Working)
    case Barrier => s.(phase := Cleaning(0))
    case Finish => s.(phase := Resting)
    case Clean =>
      var i := s.phase.next;
      var gone := |s.lanes[i].Pool(!s.side)|;
      s.(lanes := s.lanes[i := LaneAfter(s.lanes[i], a, s.side)], phase := Cleaning(i + 1),
         live := s.live - gone, completed := s.completed + gone)
    case Publish(t) =>
      var more := s.lanes[t].collector.enqueued;
      s.(lanes := s.lanes[t := LaneAfter(s.lanes[t], a, s.side)],
         live := s.live + more, enqueued := s.enqueued + more)
    case Drop(_) => s
    case _ => s.(lanes := s.lanes[a.t := LaneAfter(s.lanes[a.t], a, s.side)])
  }

  // The invariant.

  ghost function Unpublished<D>(l: Lane<D>): nat {
    if l.collector.Filling? then l.collector.enqueued else 0
  }

  /** A collector under the lock fills the pool that is now the write pool. */
  ghost predicate CollectorInv<D>(l: Lane<D>, side: bool, phase: Phase) {
    && (l.collector.Filling? || l.collector.Published? ==> l.collector.side == side && !Exclusive(phase))
    && Unpublished(l) <= |l.Pool(side)|
  }

  /** What arrived was freed, is being read, or waits to be read, in that order. */
  ghost predicate HistoryInv<D>(l: Lane<D>, side: bool) {
    && l.arrived == l.freed + l.Pool(!side) + l.Pool(side)
    && l.processed == l.freed + if l.worked then l.Pool(!side) else []
  }

  ghost predicate PhaseInv<D>(l: Lane<D>, t: nat, side: bool, phase: Phase) {
    match phase
    case Resting => l.Pool(!side) == [] && !l.worked
    case Locked => l.Pool(!side) == [] && !l.worked
    case Swapped => !l.worked
    case Working => true
    case Cleaning(i) => if t < i then l.Pool(!side) == [] && !l.worked else l.worked
  }

  ghost predicate LaneInv<D>(l: Lane<D>, t: nat, side: bool, phase: Phase) {
    CollectorInv(l, side, phase) && HistoryInv(l, side) && PhaseInv(l, t, side, phase)
  }

  /** Datagrams of a lane that the queue gauge includes. */
  ghost function Owed<D>(l: Lane<D>): int {
    |l.arrived| - Unpublished(l) - |l.freed|
  }

  ghost function Total<D>(ls: seq<Lane<D>>, n: nat): int
    requires n <= |ls|
  {
    if n == 0 then 0 else Total(ls, n - 1) + Owed(ls[n - 1])
  }

  lemma {:induction false} TotalUpdate<D>(ls: seq<Lane<D>>, n: nat, t: nat, l: Lane<D>)
    requires n <= |ls| && t < |ls|
    ensures Total(ls[t := l], n) == Total(ls, n) + if t < n then Owed(l) - Owed(ls[t]) else 0
  {
    if n > 0 { TotalUpdate(ls, n - 1, t, l); }
  }

  ghost predicate LanesInv<D>(s: State<D>) {
    forall t :: 0 <= t < |s.lanes| ==> LaneInv(s.lanes[t], t, s.side, s.phase)
  }

  ghost predicate Inv<D>(s: State<D>) {
    && LanesInv(s)
    && s.live == Total(s.lanes, |s.lanes|) == s.enqueued - s.completed
    && (s.phase.Cleaning? ==> s.phase.next <= |s.lanes|)
    && (Exclusive(s.phase) ==> forall t :: 0 <= t < |s.lanes| ==> s.lanes[t].collector.Out?)
  }

  ghost function Start<D>(n: nat): State<D> {
    State(seq(n, _ => Lane(Out, [], [], false, [], [], [])), false, Resting, 0, 0, 0)
  }

  lemma {:induction false} NothingOwed<D>(ls: seq<Lane<D>>, n: nat)
    requires n <= |ls| && forall t :: 0 <= t < |ls| ==> Owed(ls[t]) == 0
    ensures Total(ls, n) == 0
  {
    if n > 0 { NothingOwed(ls, n - 1); }
  }

  lemma EmptyPoolsAreSound<D>(n: nat)
    ensures Inv(Start<D>(n))
  {
    NothingOwed(Start<D>(n).lanes, n);
  }

  lemma PushKeepsLane<D>(l: Lane<D>, t: nat, d: D, side: bool, phase: Phase)
    requires LaneInv(l, t, side, phase) && l.collector.Filling?
    ensures var l' := LaneAfter(l, Push(t, d), side);
            LaneInv(l', t, side, phase) && Owed(l') == Owed(l)
  {
  }

  lemma CleanKeepsLane<D>(l: Lane<D>, t: nat, side: bool)
    requires LaneInv(l, t, side, Cleaning(t))
    ensures var l' := LaneAfter(l, Clean, side);
            LaneInv(l', t, side, Cleaning(t + 1)) && Owed(l') == Owed(l) - |l.Pool(!side)|
  {
  }

  /** A step keeps its own lane sound. */
  lemma LaneKept<D>(s: State<D>, a: Action<D>, t: nat)
    requires Inv(s) && Enabled(s, a) && t < |s.lanes|
    requires a.Clean? ==> t == s.phase.next
    requires !a.Clean? ==> !(a.Lock? || a.Swap? || a.Unlock? || a.Barrier? || a.Finish? || a.Drop?) && t == a.t
    ensures var l := LaneAfter(s.lanes[t], a, s.side);
            LaneInv(l, t, s.side, Do(s, a).phase)
            && Owed(l) - Owed(s.lanes[t]) == Do(s, a).live - s.live
  {
    assert LaneInv(s.lanes[t], t, s.side, s.phase);
    if a.Push? {
      PushKeepsLane(s.lanes[t], t, a.d, s.side, s.phase);
    } else if a.Clean? {
      CleanKeepsLane(s.lanes[t], t, s.side);
    }
  }

  /** A swap of sides finds every read pool empty, so what was written becomes what is read. */
  lemma SwapKeepsLane<D>(l: Lane<D>, t: nat, side: bool)
    requires LaneInv(l, t, side, Locked) && l.collector.Out?
    ensures LaneInv(l, t, !side, Swapped)
  {
  }

  /** Phase changes that touch no lane. */
  lemma PhaseKept<D>(s: State<D>, a: Action<D>, t: nat)
    requires Inv(s) && Enabled(s, a) && t < |s.lanes|
    requires a.Lock? || a.Swap? || a.Unlock? || a.Barrier? || a.Finish? || a.Drop?
    ensures LaneInv(s.lanes[t], t, Do(s, a).side, Do(s, a).phase)
  {
    assert LaneInv(s.lanes[t], t, s.side, s.phase);
    if a.Swap? { SwapKeepsLane(s.lanes[t], t, s.side); }
  }

  /** Moving on to the next pool leaves the other lanes' part of the invariant alone. */
  lemma CleanSparesOthers<D>(s: State<D>, t: nat)
    requires Inv(s) && s.phase.Cleaning? && t < |s.lanes| && t != s.phase.next
    ensures LaneInv(s.lanes[t], t, s.side, Cleaning(s.phase.next + 1))
  {
    assert LaneInv(s.lanes[t], t, s.side, s.phase);
  }

  ghost predicate MovesPhase<D>(a: Action<D>) {
    a.Lock? || a.Swap? || a.Unlock? || a.Barrier? || a.Finish? || a.Drop?
  }

  lemma PhaseStepKept<D>(s: State<D>, a: Action<D>)
    requires Inv(s) && Enabled(s, a) && MovesPhase(a)
    ensures Inv(Do(s, a))
  {
    var s' := Do(s, a);
    forall t | 0 <= t < |s.lanes| ensures LaneInv(s'.lanes[t], t, s'.side, s'.phase) {
      PhaseKept(s, a, t);
    }
  }

  lemma LaneStepKept<D>(s: State<D>, a: Action<D>, i: nat)
    requires Inv(s) && Enabled(s, a) && !MovesPhase(a) && i == if a.Clean? then s.phase.next else a.t
    ensures Inv(Do(s, a))
  {
    var s' := Do(s, a);
    LaneKept(s, a, i);
    TotalUpdate(s.lanes, |s.lanes|, i, LaneAfter(s.lanes[i], a, s.side));
    forall t | 0 <= t < |s.lanes| ensures LaneInv(s'.lanes[t], t, s'.side, s'.phase) {
      if t != i {
        assert LaneInv(s.lanes[t], t, s.side, s.phase);
        if a.Clean? { CleanSparesOthers(s, t); }
      }
    }
  }

  lemma HandOffKept<D>(s: State<D>, a: Action<D>)
    requires Inv(s) && Enabled(s, a)
    ensures Inv(Do(s, a))
  {
    if MovesPhase(a) {
      PhaseStepKept(s, a);
    } else {
      LaneStepKept(s, a, if a.Clean? then s.phase.next else a.t);
    }
  }

  // What the invariant gives in every reachable state.

  ghost predicate StepAt<D>(run: seq<Action<D>>, states: seq<State<D>>, i: nat)
    requires i < |run| && |states| == |run| + 1
  {
    Enabled(states[i], run[i]) && states[i + 1] == Do(states[i], run[i])
  }

  ghost predicate Run<D>(n: nat, run: seq<Action<D>>, states: seq<State<D>>) {
    && |states| == |run| + 1 && states[0] == Start<D>(n)
    && forall i :: 0 <= i < |run| ==> StepAt(run, states, i)
  }

  lemma {:induction false} EveryHandOffIsSound<D>(n: nat, run: seq<Action<D>>, states: seq<State<D>>, k: nat)
    requires Run(n, run, states) && k < |states|
    ensures Inv(states[k])
    decreases k
  {
    if k == 0 {
      EmptyPoolsAreSound<D>(n);
    } else {
      EveryHandOffIsSound(n, run, states, k - 1);
      assert StepAt(run, states, k - 1);
      HandOffKept(states[k - 1], run[k - 1]);
    }
  }

  /** The datagrams that collector `t` pushed in the first `k` steps of a run. */
  ghost function Pushed<D>(run: seq<Action<D>>, t: nat, k: nat): seq<D>
    requires k <= |run|
  {
    if k == 0 then []
    else Pushed(run, t, k - 1) + if run[k - 1].Push? && run[k - 1].t == t then [run[k - 1].d] else []
  }

  lemma {:induction false} ArrivedIsPushed<D>(n: nat, run: seq<Action<D>>, states: seq<State<D>>, k: nat, t: nat)
    requires Run(n, run, states) && k < |states| && t < n
    ensures |states[k].lanes| == n && states[k].lanes[t].arrived == Pushed(run, t, k)
    decreases k
  {
    if k > 0 {
      ArrivedIsPushed(n, run, states, k - 1, t);
      assert StepAt(run, states, k - 1);
    }
  }

  /** Each datagram is worked on once and freed once, both in the order its collector pushed
      them, and never freed before it was worked on; at rest nothing is left half done. */
  lemma ConsumedOnceInOrder<D>(n: nat, run: seq<Action<D>>, states: seq<State<D>>, k: nat, t: nat)
    requires Run(n, run, states) && k < |states| && t < n
    ensures |states[k].lanes| == n
    ensures var l := states[k].lanes[t];
            && l.freed <= l.processed <= Pushed(run, t, k)
            && (states[k].phase.Resting? ==> l.processed == l.freed && Pushed(run, t, k) == l.freed + l.Pool(states[k].side))
  {
    EveryHandOffIsSound(n, run, states, k);
    ArrivedIsPushed(n, run, states, k, t);
    assert LaneInv(states[k].lanes[t], t, states[k].side, states[k].phase);
  }

  /** A cycle of the data thread: a swap at `a`, the last pool emptied at `b`, no swap in between. */
  ghost predicate Cycle<D>(n: nat, run: seq<Action<D>>, states: seq<State<D>>, a: nat, b: nat) {
    && Run(n, run, states) && a < b < |run| && run[a].Swap? && run[b].Finish?
    && forall i :: a < i < b ==> !run[i].Swap?
  }

  /** What lane `t` has freed or still has to read. */
  ghost function Due<D>(l: Lane<D>, side: bool): seq<D> {
    l.freed + l.Pool(!side)
  }

  lemma DueStays<D>(s: State<D>, a: Action<D>, t: nat)
    requires Inv(s) && Enabled(s, a) && !a.Swap? && t < |s.lanes|
    ensures |Do(s, a).lanes| == |s.lanes| && Due(Do(s, a).lanes[t], Do(s, a).side) == Due(s.lanes[t], s.side)
  {
    assert LaneInv(s.lanes[t], t, s.side, s.phase);
    if a.Clean? && s.phase.next == t {
      assert s.lanes[t].freed + s.lanes[t].Pool(!s.side) + [] == s.lanes[t].freed + s.lanes[t].Pool(!s.side);
    }
  }

  lemma {:induction false} DueInCycle<D>(n: nat, run: seq<Action<D>>, states: seq<State<D>>, a: nat, b: nat, t: nat, i: nat)
    requires Cycle(n, run, states, a, b) && a < i <= b && t < n
    ensures |states[i].lanes| == n && Due(states[i].lanes[t], states[i].side) == Pushed(run, t, a)
    decreases i
  {
    EveryHandOffIsSound(n, run, states, i - 1);
    assert StepAt(run, states, i - 1);
    if i == a + 1 {
      ArrivedIsPushed(n, run, states, a, t);
      SwapFindsReadPoolsEmpty(n, run, states, a, t);
      var l := states[a].lanes[t];
      assert LaneInv(l, t, states[a].side, states[a].phase);
      assert l.freed + [] + l.Pool(states[a].side) == l.freed + l.Pool(states[a].side);
    } else {
      DueInCycle(n, run, states, a, b, t, i - 1);
      DueStays(states[i - 1], run[i - 1], t);
    }
  }

  /** When a cycle ends, exactly what was pushed before its swap has been freed. */
  lemma CycleFrees<D>(n: nat, run: seq<Action<D>>, states: seq<State<D>>, a: nat, b: nat, t: nat)
    requires Cycle(n, run, states, a, b) && t < n
    ensures |states[b + 1].lanes| == n && states[b + 1].lanes[t].freed == states[b + 1].lanes[t].processed == Pushed(run, t, a)
  {
    DueInCycle(n, run, states, a, b, t, b);
    EveryHandOffIsSound(n, run, states, b);
    assert StepAt(run, states, b);
    var l := states[b].lanes[t];
    assert LaneInv(l, t, states[b].side, states[b].phase);
    assert l.freed + [] == l.freed;
  }

  /** How many of its datagrams collector `t` has counted: all it had pushed when it last
      published. */
  ghost function Announced<D>(run: seq<Action<D>>, t: nat, k: nat): nat
    requires k <= |run|
  {
    if k == 0 then 0
    else if run[k - 1].Publish? && run[k - 1].t == t then |Pushed(run, t, k - 1)|
    else Announced(run, t, k - 1)
  }

  ghost function AllAnnounced<D>(run: seq<Action<D>>, n: nat, k: nat): nat
    requires k <= |run|
  {
    if n == 0 then 0 else AllAnnounced(run, n - 1, k) + Announced(run, n - 1, k)
  }

  lemma {:induction false} UnpublishedIsRest<D>(n: nat, run: seq<Action<D>>, states: seq<State<D>>, k: nat, t: nat)
    requires Run(n, run, states) && k < |states| && t < n
    ensures |states[k].lanes| == n && |Pushed(run, t, k)| == Announced(run, t, k) + Unpublished(states[k].lanes[t])
    decreases k
  {
    if k > 0 {
      UnpublishedIsRest(n, run, states, k - 1, t);
      assert StepAt(run, states, k - 1);
    }
  }

  lemma {:induction false} PublishedNext<D>(run: seq<Action<D>>, n: nat, k: nat)
    requires k < |run|
    ensures AllAnnounced(run, n, k + 1) == AllAnnounced(run, n, k) +
              if run[k].Publish? && run[k].t < n then |Pushed(run, run[k].t, k)| - Announced(run, run[k].t, k) else 0
  {
    if n > 0 { PublishedNext(run, n - 1, k); }
  }

  /** The counter of enqueued datagrams is the number of those pushed and published. */
  lemma {:induction false} EnqueuedIsPublished<D>(n: nat, run: seq<Action<D>>, states: seq<State<D>>, k: nat)
    requires Run(n, run, states) && k < |states|
    ensures |states[k].lanes| == n && states[k].enqueued == AllAnnounced(run, n, k)
    decreases k
  {
    if k == 0 {
      NothingPublished(run, n);
    } else {
      EnqueuedIsPublished(n, run, states, k - 1);
      assert StepAt(run, states, k - 1);
      PublishedNext(run, n, k - 1);
      if run[k - 1].Publish? { UnpublishedIsRest(n, run, states, k - 1, run[k - 1].t); }
    }
  }

  lemma {:induction false} NothingPublished<D>(run: seq<Action<D>>, n: nat)
    ensures AllAnnounced(run, n, 0) == 0
  {
    if n > 0 { NothingPublished(run, n - 1); }
  }

  /** No datagram is overtaken or overwritten by a swap: the pools that become write pools
      are empty, and no collector is in the middle of a push. */
  lemma SwapFindsReadPoolsEmpty<D>(n: nat, run: seq<Action<D>>, states: seq<State<D>>, k: nat, t: nat)
    requires Run(n, run, states) && k < |run| && run[k].Swap? && t < |states[k].lanes|
    ensures states[k].lanes[t].Pool(!states[k].side) == [] && states[k].lanes[t].collector.Out?
    ensures t < |states[k + 1].lanes| && states[k + 1].lanes[t].Pool(states[k + 1].side) == []
  {
    EveryHandOffIsSound(n, run, states, k);
    assert StepAt(run, states, k);
    assert LaneInv(states[k].lanes[t], t, states[k].side, states[k].phase);
  }

  /** The part of the total that one lane owns. */
  lemma {:induction false} LaneWithinTotal<D>(s: State<D>, n: nat, t: nat)
    requires Inv(s) && t < n <= |s.lanes|
    ensures |s.lanes[t].Pool(!s.side)| <= Owed(s.lanes[t]) <= Total(s.lanes, n)
    decreases n
  {
    assert LaneInv(s.lanes[t], t, s.side, s.phase);
    assert LaneInv(s.lanes[n - 1], n - 1, s.side, s.phase);
    if t < n - 1 {
      LaneWithinTotal(s, n - 1, t);
    } else {
      TotalNonNegative(s, n - 1);
    }
  }

  lemma {:induction false} TotalNonNegative<D>(s: State<D>, n: nat)
    requires Inv(s) && n <= |s.lanes|
    ensures Total(s.lanes, n) >= 0
  {
    if n > 0 {
      TotalNonNegative(s, n - 1);
      assert LaneInv(s.lanes[n - 1], n - 1, s.side, s.phase);
    }
  }

  /** The gauge is what was enqueued minus what was completed; the unsigned subtraction that
      follows a batch never takes away more than the gauge shows. */
  lemma QueueGaugeIsExact<D>(n: nat, run: seq<Action<D>>, states: seq<State<D>>, k: nat)
    requires Run(n, run, states) && k < |states|
    ensures 0 <= states[k].live == states[k].enqueued - states[k].completed
    ensures k < |run| && run[k].Clean? ==>
              && Enabled(states[k], run[k])
              && |states[k].lanes[states[k].phase.next].Pool(!states[k].side)| <= states[k].live
  {
    EveryHandOffIsSound(n, run, states, k);
    var s := states[k];
    TotalNonNegative(s, |s.lanes|);
    if k < |run| && run[k].Clean? {
      assert StepAt(run, states, k);
      LaneWithinTotal(s, |s.lanes|, s.phase.next);
    }
  }
}
