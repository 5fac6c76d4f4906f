/** Collectors read the kernel's cumulative 32-bit count of dropped datagrams and fold it into
    one shared cursor with a compare-and-swap loop; whoever moves the cursor counts the
    difference. Steps of several collectors interleave freely. */
module KernelDrops {
  const WORD: int := 0x1_0000_0000
  const HALF: int := 0x8000_0000

  /** The 32-bit difference `a - b`. */
  function Ahead(a: nat, b: nat): (d: nat)
    ensures d < WORD
  {
    (a - b) % WORD
  }

  /** Where a collector is. `sample` is the true cumulative count, of which the collector
      sees 32 bits; `previous` is the cursor word it last read, when the true count was `seen`. */
  datatype Collector =
    | Idle
    | Sampled(sample: nat)
    | Looping(sample: nat, previous: nat, seen: nat)
    | Won(delta: nat)

  /** `word` is the shared cursor; `cursor` is the true count it stands for, `counted` the
      metric and `done` the samples that were dealt with. */
  datatype State = State(word: nat, counted: nat, at: seq<Collector>, cursor: nat, done: set<nat>)

  datatype Action = Receive(t: nat, sample: nat) | Load(t: nat) | GiveUp(t: nat) | Swap(t: nat) | Retry(t: nat) | Count(t: nat)

  ghost predicate Ready(c: Collector) {
    c.Looping? && 0 < Ahead(c.sample, c.previous) < HALF
  }

  ghost predicate Enabled(s: State, a: Action) {
    && a.t < |s.at|
    && var c := s.at[a.t];
       match a
       case Receive(_, _) => c.Idle?
       case Load(_) => c.Sampled?
       case GiveUp(_) => c.Looping? && !Ready(c)
       case Swap(_) => Ready(c) && s.word == c.previous
       case Retry(_) => Ready(c)
       case Count(_) => c.Won?
  }

  /** A failed swap, spurious or not, reloads the cursor word. */
  ghost function Do(s: State, a: Action): State
    requires Enabled(s, a)
  {
    var c := s.at[a.t];
    match a
    case Receive(t, x) => s.(at := s.at[t := Sampled(x)])
    case Load(t) => s.(at := s.at[t := Looping(c.sample, s.word, s.cursor)])
    case GiveUp(t) => s.(at := s.at[t := Idle], done := s.done + {c.sample})
    case Swap(t) => s.(at := s.at[t := Won(Ahead(c.sample, c.previous))], word := c.sample % WORD,
                       cursor := c.sample, done := s.done + {c.sample})
    case Retry(t) => s.(at := s.at[t := Looping(c.sample, s.word, s.cursor)])
    case Count(t) => s.(at := s.at[t := Idle], counted := s.counted + c.delta)
  }

  ghost function Start(n: nat): State {
    State(0, 0, seq(n, _ => Idle), 0, {})
  }

  /** A sample less than half the counter's range away from the cursor. */
  ghost predicate Close(x: nat, cursor: nat) {
    -HALF < x - cursor < HALF
  }

  /** Every sample being dealt with is close to the cursor. */
  ghost predicate Near(s: State) {
    forall t :: 0 <= t < |s.at| && (s.at[t].Looping? || s.at[t].Sampled?) ==> Close(s.at[t].sample, s.cursor)
  }

  /** Differences that were won and are not yet counted. */
  ghost function Pending(at: seq<Collector>, n: nat): nat
    requires n <= |at|
  {
    if n == 0 then 0 else Pending(at, n - 1) + if at[n - 1].Won? then at[n - 1].delta else 0
  }

  ghost function Share(c: Collector): nat {
    if c.Won? then c.delta else 0
  }

  lemma {:induction false} PendingUpdate(at: seq<Collector>, n: nat, t: nat, c: Collector)
    requires n <= |at| && t < |at|
    ensures Pending(at[t := c], n) == Pending(at, n) + if t < n then Share(c) - Share(at[t]) else 0
  {
    if n > 0 { PendingUpdate(at, n - 1, t, c); }
  }

  lemma {:induction false} PendingIdle(at: seq<Collector>, n: nat)
    requires n <= |at| && forall t :: 0 <= t < |at| ==> at[t].Idle?
    ensures Pending(at, n) == 0
  {
    if n > 0 { PendingIdle(at, n - 1); }
  }

  /** What a collector remembers is a past cursor, close to its sample. */
  ghost predicate Remembers(c: Collector, cursor: nat) {
    c.Looping? ==> c.previous == c.seen % WORD && c.seen <= cursor && Close(c.sample, c.seen)
  }

  ghost predicate Inv(s: State) {
    && s.word == s.cursor % WORD
    && s.counted + Pending(s.at, |s.at|) == s.cursor
    && (s.cursor == 0 || s.cursor in s.done)
    && (forall x :: x in s.done ==> x <= s.cursor)
    && (forall t :: 0 <= t < |s.at| ==> Remembers(s.at[t], s.cursor))
  }

  lemma Reduce(d: int)
    requires -HALF < d < HALF
    ensures d % WORD == if d >= 0 then d else d + WORD
  {
  }

  lemma ModSubtract(a: int, b: int)
    ensures (a - b % WORD) % WORD == (a - b) % WORD
  {
  }

  /** Close counts are ordered correctly by their 32-bit difference, across wrap-around. */
  lemma AheadIsExact(x: nat, y: nat)
    requires Close(x, y)
    ensures 0 < Ahead(x, y % WORD) < HALF <==> x > y
    ensures x > y ==> Ahead(x, y % WORD) == x - y
  {
    ModSubtract(x, y);
    Reduce(x - y);
  }

  lemma InvKept(s: State, a: Action)
    requires Inv(s) && Near(s) && Enabled(s, a) && Near(Do(s, a))
    ensures Inv(Do(s, a))
  {
    var s' := Do(s, a);
    var c := s.at[a.t];
    PendingUpdate(s.at, |s.at|, a.t, s'.at[a.t]);
    assert Remembers(c, s.cursor);
    if a.GiveUp? {
      AheadIsExact(c.sample, c.seen);
    } else if a.Swap? {
      AheadIsExact(c.sample, s.cursor);
    }
    forall t | 0 <= t < |s'.at| ensures Remembers(s'.at[t], s'.cursor) {
      assert Remembers(s.at[t], s.cursor);
    }
  }

  ghost predicate StepAt(run: seq<Action>, states: seq<State>, i: nat)
    requires i < |run| && |states| == |run| + 1
  {
    Enabled(states[i], run[i]) && states[i + 1] == Do(states[i], run[i])
  }

  /** The states of a run in which every sample stays close to the cursor. */
  ghost predicate Run(n: nat, run: seq<Action>, states: seq<State>) {
    && |states| == |run| + 1 && states[0] == Start(n)
    && (forall i :: 0 <= i < |states| ==> Near(states[i]))
    && (forall i :: 0 <= i < |run| ==> StepAt(run, states, i))
  }

  /** However the collectors interleave, drops counted plus drops about to be counted are the
      largest cumulative sample dealt with. */
  lemma {:induction false} DropsAreExact(n: nat, run: seq<Action>, states: seq<State>, k: nat)
    requires Run(n, run, states) && k < |states|
    ensures var s := states[k];
            && Inv(s)
            && s.counted + Pending(s.at, |s.at|) == s.cursor
            && (s.cursor == 0 || s.cursor in s.done)
            && (forall x :: x in s.done ==> x <= s.cursor)
    decreases k
  {
    if k == 0 {
      PendingIdle(states[0].at, n);
    } else {
      DropsAreExact(n, run, states, k - 1);
      assert StepAt(run, states, k - 1);
      InvKept(states[k - 1], run[k - 1]);
    }
  }

  /** The samples that the first `k` steps of a run delivered. */
  ghost function Received(run: seq<Action>, k: nat): set<nat>
    requires k <= |run|
  {
    if k == 0 then {} else Received(run, k - 1) + if run[k - 1].Receive? then {run[k - 1].sample} else {}
  }

  /** The samples that collectors are still dealing with. */
  ghost function InHand(at: seq<Collector>): set<nat> {
    set t | 0 <= t < |at| && (at[t].Sampled? || at[t].Looping?) :: at[t].sample
  }

  lemma HandUpdate(at: seq<Collector>, t: nat, c: Collector, x: nat)
    requires t < |at| && (c.Sampled? || c.Looping? ==> c.sample == x)
    requires at[t].Sampled? || at[t].Looping? ==> at[t].sample == x
    ensures InHand(at[t := c]) + {x} == InHand(at) + {x}
    ensures c.Sampled? || c.Looping? ==> x in InHand(at[t := c])
    ensures !(at[t].Sampled? || at[t].Looping? || c.Sampled? || c.Looping?) ==> InHand(at[t := c]) == InHand(at)
  {
    var at' := at[t := c];
    forall y | y in InHand(at) && y != x ensures y in InHand(at') {
      var u :| 0 <= u < |at| && (at[u].Sampled? || at[u].Looping?) && at[u].sample == y;
      assert at'[u] == at[u];
    }
    forall y | y in InHand(at') && y != x ensures y in InHand(at) {
      var u :| 0 <= u < |at'| && (at'[u].Sampled? || at'[u].Looping?) && at'[u].sample == y;
      assert at[u] == at'[u];
    }
    if c.Sampled? || c.Looping? { assert at'[t] == c; }
    if !(at[t].Sampled? || at[t].Looping? || c.Sampled? || c.Looping?) {
      forall y ensures y in InHand(at') <==> y in InHand(at) {
        if u :| 0 <= u < |at| && (at[u].Sampled? || at[u].Looping?) && at[u].sample == y { assert at'[u] == at[u]; }
        if u :| 0 <= u < |at'| && (at'[u].Sampled? || at'[u].Looping?) && at'[u].sample == y { assert at[u] == at'[u]; }
      }
    }
  }

  /** Every sample that was delivered has been dealt with or is being dealt with, and no other. */
  lemma {:induction false} SamplesAccounted(n: nat, run: seq<Action>, states: seq<State>, k: nat)
    requires Run(n, run, states) && k < |states|
    ensures Received(run, k) == states[k].done + InHand(states[k].at)
    decreases k
  {
    if k == 0 {
      assert InHand(states[0].at) == {};
    } else {
      SamplesAccounted(n, run, states, k - 1);
      assert StepAt(run, states, k - 1);
      SampleMoves(states[k - 1], run[k - 1]);
    }
  }

  lemma SampleMoves(s: State, a: Action)
    requires Enabled(s, a)
    ensures var s' := Do(s, a);
            s'.done + InHand(s'.at) == s.done + InHand(s.at) + if a.Receive? then {a.sample} else {}
  {
    var s', c := Do(s, a), s.at[a.t];
    var x := if a.Receive? then a.sample else if c.Sampled? || c.Looping? then c.sample else 0;
    HandUpdate(s.at, a.t, s'.at[a.t], x);
    if c.Sampled? || c.Looping? { assert x in InHand(s.at); }
  }

  /** At rest nothing is pending: the metric itself is the largest sample the kernel delivered. */
  lemma RestingMetricIsExact(n: nat, run: seq<Action>, states: seq<State>, k: nat)
    requires Run(n, run, states) && k < |states| && forall t :: 0 <= t < |states[k].at| ==> states[k].at[t].Idle?
    ensures states[k].counted == states[k].cursor
    ensures forall x :: x in Received(run, k) ==> x <= states[k].counted
    ensures states[k].counted == 0 || states[k].counted in Received(run, k)
  {
    DropsAreExact(n, run, states, k);
    PendingIdle(states[k].at, |states[k].at|);
    SamplesAccounted(n, run, states, k);
    assert InHand(states[k].at) == {};
  }

  /** What the loop decides for a lone sample on a cursor at `y`. */
  function Counted(x: nat, y: nat): nat {
    var d := Ahead(x, y % WORD);
    if 0 < d < HALF then d else 0
  }

  /** A kernel count that has moved on is folded in exactly if it moved by less than half the
      counter's range; a longer silence loses drops. */
  lemma LongSilenceLosesDrops(x: nat, y: nat)
    requires x >= y
    ensures Counted(x, y) == x - y <==> x - y < HALF
    ensures x - y >= HALF ==> Counted(x, y) < x - y
  {
    if x - y < HALF {
      AheadIsExact(x, y);
    }
  }
}
