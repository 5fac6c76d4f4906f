/** Runs of the dictionary: which text every reference stands for, said of the steps alone, and
    what a whole sweep reclaims. */
module DictionaryRuns {
  import opened Wrappers
  import opened Dictionary

  ghost predicate StepAt(steps: seq<Step>, states: seq<State>, i: nat)
    requires i < |steps| && |states| == |steps| + 1
  {
    Enabled(states[i], steps[i]) && states[i + 1] == Apply(states[i], steps[i])
  }

  /** The states of a run that starts with an empty dictionary. */
  ghost predicate Run(steps: seq<Step>, states: seq<State>) {
    && |states| == |steps| + 1 && states[0] == START
    && forall i :: 0 <= i < |steps| ==> StepAt(steps, states, i)
  }

  lemma {:induction false} RunIsSound(steps: seq<Step>, states: seq<State>, n: nat)
    requires Run(steps, states) && n < |states|
    ensures Inv(states[n])
    decreases n
  {
    if n == 0 {
      assert Inv(START);
    } else {
      RunIsSound(steps, states, n - 1);
      assert StepAt(steps, states, n - 1);
      InvKept(states[n - 1], steps[n - 1]);
    }
  }

  // Which text a reference stands for.

  /** Interned names are cut off after 64 characters. */
  ghost function Cut(str: string): string {
    if |str| <= 64 then str else str[..64]
  }

  /** What thread `t` last asked for: the cut-off name of an intern, or the whole name of a lookup. */
  ghost function Asked(steps: seq<Step>, n: nat, t: Thread): Option<string>
    requires n <= |steps|
  {
    if n == 0 then None
    else match steps[n - 1]
      case Lookup(u, str, _) => if u == t then Some(Cut(str)) else Asked(steps, n - 1, t)
      case Peek(u, str) => if u == t then Some(str) else Asked(steps, n - 1, t)
      case _ => Asked(steps, n - 1, t)
  }

  /** The text that owner slot `o` got hold of and has not passed on or let go since. */
  ghost function Text(steps: seq<Step>, n: nat, o: Owner): Option<string>
    requires n <= |steps|
  {
    if n == 0 then None
    else match steps[n - 1]
      case Take(t, to) => if to == o then Asked(steps, n - 1, t) else Text(steps, n - 1, o)
      case Move(from, to) =>
        if to == o then Text(steps, n - 1, from) else if from == o then None else Text(steps, n - 1, o)
      case Release(from) => if from == o then None else Text(steps, n - 1, o)
      case _ => Text(steps, n - 1, o)
  }

  ghost predicate HasKey(pc: Pc) {
    !(pc.Idle? || pc.Reading? || pc.Sweeping?)
  }

  ghost predicate AskedOk(pc: Pc, asked: Option<string>) {
    HasKey(pc) ==> asked == Some(pc.key)
  }

  /** The key in a thread's hand is what it asked for. */
  lemma {:induction false} HandIsAsked(steps: seq<Step>, states: seq<State>, n: nat, t: Thread)
    requires Run(steps, states) && n < |states|
    ensures AskedOk(PcOf(states[n], t), Asked(steps, n, t))
    decreases n
  {
    if n > 0 {
      HandIsAsked(steps, states, n - 1, t);
      assert StepAt(steps, states, n - 1);
      HandStep(states[n - 1], steps[n - 1], t, Asked(steps, n - 1, t), Asked(steps, n, t));
    }
  }

  lemma HandStep(s: State, step: Step, t: Thread, asked: Option<string>, asked': Option<string>)
    requires Enabled(s, step) && AskedOk(PcOf(s, t), asked)
    requires asked' == if step.Lookup? && step.t == t then Some(Cut(step.str)) else if step.Peek? && step.t == t then Some(step.str) else asked
    ensures AskedOk(PcOf(Apply(s, step), t), asked')
  {
    if !ActsFor(step, t) {
      OthersHands(s, step, t);
    } else if step.Lookup? {
      CutIsKey(step.str);
    }
  }

  lemma CutIsKey(str: string)
    ensures Cut(str) == KeyOf(str)
  {
    assert |str| > 64 ==> KeyOf(str) == str[..64];
  }

  /** Owner slot `o` owns the word of exactly the text the steps say, or nothing if they say so. */
  ghost predicate TextOk(s: State, o: Owner, text: Option<string>) {
    && (o in s.owners <==> text.Some?)
    && (o in s.owners ==> s.owners[o] in s.heap && s.heap[s.owners[o]].key == text.value)
  }

  lemma {:induction false} OwnersHoldTheirTexts(steps: seq<Step>, states: seq<State>, n: nat, o: Owner)
    requires Run(steps, states) && n < |states| && !o.Local?
    ensures TextOk(states[n], o, Text(steps, n, o))
    decreases n
  {
    if n > 0 {
      var step := steps[n - 1];
      OwnersHoldTheirTexts(steps, states, n - 1, o);
      RunIsSound(steps, states, n - 1);
      assert StepAt(steps, states, n - 1);
      if step.Take? { HandIsAsked(steps, states, n - 1, step.t); }
      if step.Move? { OwnersHoldTheirTexts(steps, states, n - 1, step.from); }
      TextStep(states[n - 1], step, o, Text(steps, n - 1, o),
               if step.Take? then Asked(steps, n - 1, step.t) else if step.Move? then Text(steps, n - 1, step.from) else None);
    }
  }

  /** One step, seen from slot `o`: it gets hold of `got` if the step hands something to it. */
  lemma TextStep(s: State, step: Step, o: Owner, text: Option<string>, got: Option<string>)
    requires Inv(s) && Enabled(s, step) && !o.Local? && TextOk(s, o, text)
    requires step.Take? ==> AskedOk(PcOf(s, step.t), got)
    requires step.Move? ==> TextOk(s, step.from, got)
    ensures TextOk(Apply(s, step), o,
                   if (step.Take? || step.Move?) && step.to == o then got
                   else if (step.Move? && step.from == o) || (step.Release? && step.o == o) then None
                   else text)
  {
    if step.Take? && step.to == o {
      TakenText(s, step.t, o);
    } else if !Hands(step, o) && !(step.Move? && step.to == o) {
      OtherText(s, step, o);
    }
  }

  lemma TakenText(s: State, t: Thread, to: Owner)
    requires Inv(s) && Enabled(s, Take(t, to))
    ensures TextOk(Apply(s, Take(t, to)), to, Some(PcOf(s, t).key))
  {
    assert PcOk(s, t);
  }

  /** A step that does not concern slot `o` leaves it its word, and gives it none. */
  lemma OtherText(s: State, step: Step, o: Owner)
    requires Inv(s) && Enabled(s, step) && !o.Local? && !Hands(step, o)
    requires (step.Take? || step.Move?) ==> step.to != o
    ensures o in Apply(s, step).owners <==> o in s.owners
    ensures o in s.owners ==>
              && Apply(s, step).owners[o] == s.owners[o]
              && s.owners[o] in Apply(s, step).heap && s.owners[o] in s.heap
              && Apply(s, step).heap[s.owners[o]].key == s.heap[s.owners[o]].key
  {
    if o in s.owners { OwnedStays(s, step, o); } else { GivesNone(s, step, o); }
  }

  lemma GivesNone(s: State, step: Step, o: Owner)
    requires Enabled(s, step) && !o.Local? && o !in s.owners && ((step.Take? || step.Move?) ==> step.to != o)
    ensures o !in Apply(s, step).owners
  {
  }

  /** A successful intern hands over the word of the name that was asked for, cut off after 64
      characters; a successful lookup that of the whole name. */
  lemma DeliversWhatWasAsked(steps: seq<Step>, states: seq<State>, n: nat, t: Thread)
    requires Run(steps, states) && n < |states| && PcOf(states[n], t).Returned? && PcOf(states[n], t).ok
    ensures var s := states[n];
            && Local(t) in s.owners && s.owners[Local(t)] in s.heap
            && Asked(steps, n, t) == Some(s.heap[s.owners[Local(t)]].key)
  {
    RunIsSound(steps, states, n);
    HandIsAsked(steps, states, n, t);
    assert PcOk(states[n], t);
  }

  /** Two slots own the same word exactly if their texts are equal: comparing pointers is comparing
      the names that were asked for. */
  lemma SameWordIffSameText(steps: seq<Step>, states: seq<State>, n: nat, o: Owner, o': Owner)
    requires Run(steps, states) && n < |states| && !o.Local? && !o'.Local?
    requires o in states[n].owners && o' in states[n].owners
    ensures states[n].owners[o] == states[n].owners[o'] <==> Text(steps, n, o) == Text(steps, n, o')
  {
    RunIsSound(steps, states, n);
    OwnersHoldTheirTexts(steps, states, n, o);
    OwnersHoldTheirTexts(steps, states, n, o');
    PointerEqualityIsKeyEquality(states[n], o, o');
  }

  ghost predicate Delivers(s: State, t: Thread, key: string, w: WordId) {
    PcOf(s, t) == Returned(key, true) && Local(t) in s.owners && s.owners[Local(t)] == w
  }

  /** A lookup finds exactly the names that are there, and ends with a reference to their word. */
  lemma LookupFindsWhatIsThere(s: State, t: Thread, str: string)
    requires Inv(s) && Enabled(s, Peek(t, str))
    ensures var s' := Apply(s, Peek(t, str));
            && s'.dict == s.dict
            && (str !in s.dict ==> PcOf(s', t) == Returned(str, false))
            && (str in s.dict ==> Enabled(s', RetainR(t)) && Delivers(Apply(s', RetainR(t)), t, str, s.dict[str]))
  {
  }

  /** So does an intern of a name that is there; only one that is not there makes it give up the
      read lock. */
  lemma InternFindsWhatIsThere(s: State, t: Thread, str: string, b: Budget)
    requires Inv(s) && Enabled(s, Lookup(t, str, b))
    ensures var s' := Apply(s, Lookup(t, str, b));
            && s'.dict == s.dict
            && (Cut(str) !in s.dict ==> PcOf(s', t) == Missed(Cut(str), b))
            && (Cut(str) in s.dict ==> Enabled(s', RetainR(t)) && Delivers(Apply(s', RetainR(t)), t, Cut(str), s.dict[Cut(str)]))
  {
    CutIsKey(str);
  }

  // What a sweep reclaims.

  /** From `a` on a sweep of thread `t` is under way, and it is about to end at `b`. */
  ghost predicate Sweep(steps: seq<Step>, states: seq<State>, a: nat, b: nat, t: Thread) {
    && Run(steps, states) && a < b < |steps|
    && steps[a] == SweepStart(t) && steps[b] == SweepEnd(t)
    && forall i :: a < i < b ==> steps[i] != SweepEnd(t)
  }

  ghost predicate Unowned(s: State, key: string) {
    key in s.dict && OwnersOf(s.owners, s.dict[key]) == {}
  }

  /** While the sweep is under way, a word nobody owned is gone or still to be visited. */
  ghost predicate Doomed(s: State, t: Thread, key: string) {
    PcOf(s, t).Sweeping? && (key in s.dict ==> Unowned(s, key) && key in PcOf(s, t).todo)
  }

  lemma DoomedStep(s: State, step: Step, t: Thread, key: string)
    requires Inv(s) && Enabled(s, step) && Doomed(s, t, key) && step != SweepEnd(t)
    ensures Doomed(Apply(s, step), t, key)
  {
    assert s.writer == Some(t) && s.readers == {};
    if ActsFor(step, t) {
      DoomedVisit(s, step, t, key);
    } else {
      OthersHands(s, step, t);
      Bystanders(s, step, t);
      if step.Move? { UnownedMove(s, step, key); }
    }
  }

  /** With the write lock taken, other threads can only pass references on or drop them. */
  lemma Bystanders(s: State, step: Step, t: Thread)
    requires Inv(s) && Enabled(s, step) && s.writer == Some(t) && s.readers == {} && !ActsFor(step, t)
    ensures step.Move? || step.Release?
  {
    assert forall v :: !HoldsRead(PcOf(s, v)) && (v != t ==> !HoldsWrite(PcOf(s, v)));
  }

  lemma UnownedMove(s: State, step: Step, key: string)
    requires Enabled(s, step) && step.Move? && (key in s.dict ==> Unowned(s, key))
    ensures key in s.dict ==> OwnersOf(Apply(s, step).owners, s.dict[key]) == {}
  {
    if key in s.dict {
      var w := s.dict[key];
      assert forall o :: o in s.owners && s.owners[o] == w ==> o in OwnersOf(s.owners, w);
    }
  }

  lemma DoomedVisit(s: State, step: Step, t: Thread, key: string)
    requires Inv(s) && Enabled(s, step) && Doomed(s, t, key) && step != SweepEnd(t) && ActsFor(step, t)
    ensures Doomed(Apply(s, step), t, key)
  {
    assert step.SweepOne?;
    if key in s.dict { assert s.heap[s.dict[key]].refs == 0; }
  }

  lemma {:induction false} DoomedUntil(steps: seq<Step>, states: seq<State>, a: nat, b: nat, t: Thread, key: string, i: nat)
    requires Sweep(steps, states, a, b, t) && a < i <= b
    requires key in states[a].dict ==> Unowned(states[a], key)
    ensures Doomed(states[i], t, key)
    decreases i
  {
    assert StepAt(steps, states, i - 1);
    if i > a + 1 {
      DoomedUntil(steps, states, a, b, t, key, i - 1);
      RunIsSound(steps, states, i - 1);
      DoomedStep(states[i - 1], steps[i - 1], t, key);
    }
  }

  /** A whole sweep leaves only words that were there and had an owner when it began, whatever is
      passed on or dropped meanwhile. */
  lemma SweepReclaims(steps: seq<Step>, states: seq<State>, a: nat, b: nat, t: Thread, key: string)
    requires Sweep(steps, states, a, b, t) && key in states[b + 1].dict
    ensures key in states[a].dict && !Unowned(states[a], key)
  {
    assert StepAt(steps, states, b);
    if key in states[a].dict ==> Unowned(states[a], key) {
      DoomedUntil(steps, states, a, b, t, key, b);
    }
  }
}
