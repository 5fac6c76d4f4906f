/** The shared dictionary of interned words: interning upgrades a read lock to a write lock,
    owners pass references on or drop them without any lock, and a collector sweeps the words
    nobody owns. Every atomic action of every thread is one step. */
module Dictionary {
  import opened Wrappers

  type Thread = nat
  type WordId = nat

  /** Everything that can hold a reference: a thread returning from an intern, the staging
      record of a batch, a raw record in the request ring, a report's condition. */
  datatype Owner =
    | Local(t: Thread)
    | Staging(record: nat, i: nat)
    | Raw(slot: nat, i: nat)
    | Selector(report: nat, i: nat)

  datatype Word = Word(key: string, refs: int)

  const WORD64: int := 0x1_0000_0000_0000_0000

  /** A 64-bit unsigned counter. */
  type U64 = x: int | 0 <= x < 0x1_0000_0000_0000_0000

  /** 64-bit arithmetic wraps around. */
  function Wrap(x: int): U64 {
    x % WORD64
  }

  lemma WrapAdd(x: int, c: int)
    ensures Wrap(Wrap(x) + c) == Wrap(x + c)
    ensures 0 <= x < WORD64 ==> Wrap(x) == x
  {
  }

  /** Zero means unlimited. */
  datatype Budget = Budget(maxWords: U64, maxBytes: U64)

  /** Where a thread is in `intern`, `lookup` or `collect`. */
  datatype Pc =
    | Idle
    | Reading                                // holds the read lock
    | FoundR(key: string, w: WordId)         // holds it, about to retain
    | Missed(key: string, budget: Budget)    // holds it, about to give it up
    | Upgrading(key: string, budget: Budget) // holds nothing
    | Writing(key: string, budget: Budget)   // holds the write lock, about to look again
    | Created(key: string, w: WordId)        // holds it, word inserted, gauges not yet
    | FoundW(key: string, w: WordId)         // holds it, about to retain
    | Held(key: string, ok: bool)            // holds it, about to give it up
    | Relocking(key: string, ok: bool)       // holds nothing
    | Returned(key: string, ok: bool)        // holds the read lock, has the result
    | Sweeping(todo: set<string>)            // collector, holds the write lock

  datatype State = State(
    dict: map<string, WordId>, heap: map<WordId, Word>, next: WordId,
    owners: map<Owner, WordId>,
    readers: set<Thread>, writer: Option<Thread>, pcs: map<Thread, Pc>,
    words: U64, bytes: U64)

  const WORD_SIZE: nat := 24
  const KEY_MAX: nat := 64

  function Charge(key: string): nat {
    WORD_SIZE + 2 * (|key| + 1)
  }

  /** Keys are truncated to the dictionary's entry size. */
  function KeyOf(str: string): (key: string)
    ensures key <= str && |key| == if |str| < KEY_MAX then |str| else KEY_MAX
  {
    if |str| > KEY_MAX then str[..KEY_MAX] else str
  }

  function PcOf(s: State, t: Thread): Pc {
    if t in s.pcs then s.pcs[t] else Idle
  }

  predicate HoldsRead(pc: Pc) {
    pc.Reading? || pc.FoundR? || pc.Missed? || pc.Returned?
  }

  predicate HoldsWrite(pc: Pc) {
    pc.Writing? || pc.Created? || pc.FoundW? || pc.Held? || pc.Sweeping?
  }

  /** Has the thread a word in hand? */
  predicate HasResult(pc: Pc) {
    (pc.Held? || pc.Relocking? || pc.Returned?) && pc.ok
  }

  datatype Step =
    | RdLock(t: Thread)
    | RdUnlock(t: Thread)
    | Lookup(t: Thread, str: string, budget: Budget)
    | Peek(t: Thread, str: string)
    | RetainR(t: Thread)
    | DropRead(t: Thread)
    | WrLock(t: Thread)
    | Recheck(t: Thread, memOk: bool)
    | Count(t: Thread)
    | RetainW(t: Thread)
    | WrUnlock(t: Thread)
    | ReRead(t: Thread)
    | Take(t: Thread, to: Owner)
    | Move(from: Owner, to: Owner)
    | Release(o: Owner)
    | SweepStart(t: Thread)
    | SweepOne(t: Thread, key: string)
    | SweepEnd(t: Thread)

  ghost predicate Enabled(s: State, step: Step) {
    match step
    case RdLock(t) => PcOf(s, t).Idle? && s.writer.None?
    case RdUnlock(t) => PcOf(s, t).Reading? || (PcOf(s, t).Returned? && !PcOf(s, t).ok)
    case Lookup(t, _, _) => PcOf(s, t).Reading?
    case Peek(t, _) => PcOf(s, t).Reading?
    case RetainR(t) => PcOf(s, t).FoundR?
    case DropRead(t) => PcOf(s, t).Missed?
    case WrLock(t) => PcOf(s, t).Upgrading? && s.writer.None? && s.readers == {}
    case Recheck(t, _) => PcOf(s, t).Writing?
    case Count(t) => PcOf(s, t).Created?
    case RetainW(t) => PcOf(s, t).FoundW?
    case WrUnlock(t) => PcOf(s, t).Held?
    case ReRead(t) => PcOf(s, t).Relocking? && s.writer.None?
    case Take(t, to) => PcOf(s, t).Returned? && Local(t) in s.owners && !to.Local? && to !in s.owners
    case Move(from, to) => from in s.owners && to !in s.owners && !from.Local? && !to.Local?
    case Release(o) => o in s.owners && !o.Local?
    case SweepStart(t) => PcOf(s, t).Idle? && s.writer.None? && s.readers == {}
    case SweepOne(t, key) => PcOf(s, t).Sweeping? && key in PcOf(s, t).todo
    case SweepEnd(t) => PcOf(s, t).Sweeping? && PcOf(s, t).todo == {}
  }

  /** The byte test, with an unsigned subtraction that could wrap around. */
  predicate OverBytes(bytes: U64, charge: nat, maxBytes: U64) {
    charge > maxBytes || bytes > Wrap(maxBytes - charge)
  }

  predicate OverBudget(s: State, key: string, b: Budget) {
    || (b.maxWords != 0 && |s.dict| >= b.maxWords)
    || (b.maxBytes != 0 && OverBytes(s.bytes, Charge(key), b.maxBytes))
  }

  function At(s: State, t: Thread, pc: Pc): State {
    s.(pcs := s.pcs[t := pc])
  }

  function Adjusted(heap: map<WordId, Word>, w: WordId, delta: int): map<WordId, Word> {
    if w in heap then heap[w := heap[w].(refs := heap[w].refs + delta)] else heap
  }

  function Retained(s: State, w: WordId, o: Owner): State {
    s.(heap := Adjusted(s.heap, w, 1), owners := s.owners[o := w])
  }

  function Handed(owners: map<Owner, WordId>, from: Owner, to: Owner): map<Owner, WordId>
    requires from in owners
  {
    (owners - {from})[to := owners[from]]
  }

  function AfterRecheck(s: State, t: Thread, key: string, budget: Budget, memOk: bool): State {
    if key in s.dict then At(s, t, FoundW(key, s.dict[key]))
    else if OverBudget(s, key, budget) || !memOk then At(s, t, Held(key, false))
    else
      var w := s.next;
      At(s.(dict := s.dict[key := w], heap := s.heap[w := Word(key, 0)], next := w + 1), t, Created(key, w))
  }

  function AfterSweep(s: State, t: Thread, key: string, todo: set<string>): State {
    var s' := At(s, t, Sweeping(todo - {key}));
    if key !in s.dict || s.dict[key] !in s.heap || s.heap[s.dict[key]].refs != 0 then s'
    else s'.(dict := s.dict - {key}, heap := s.heap - {s.dict[key]}, words := Wrap(s.words - 1), bytes := Wrap(s.bytes - Charge(key)))
  }

  /** The state after an enabled step. */
  ghost function Apply(s: State, step: Step): State
    requires Enabled(s, step)
  {
    match step
    case RdLock(t) => At(s.(readers := s.readers + {t}), t, Reading)
    case RdUnlock(t) => At(s.(readers := s.readers - {t}), t, Idle)
    case Lookup(t, str, b) =>
      var key := KeyOf(str);
      At(s, t, if key in s.dict then FoundR(key, s.dict[key]) else Missed(key, b))
    case Peek(t, str) => At(s, t, if str in s.dict then FoundR(str, s.dict[str]) else Returned(str, false))
    case RetainR(t) => At(Retained(s, PcOf(s, t).w, Local(t)), t, Returned(PcOf(s, t).key, true))
    case DropRead(t) => At(s.(readers := s.readers - {t}), t, Upgrading(PcOf(s, t).key, PcOf(s, t).budget))
    case WrLock(t) => At(s.(writer := Some(t)), t, Writing(PcOf(s, t).key, PcOf(s, t).budget))
    case Recheck(t, memOk) => AfterRecheck(s, t, PcOf(s, t).key, PcOf(s, t).budget, memOk)
    case Count(t) =>
      At(s.(words := Wrap(s.words + 1), bytes := Wrap(s.bytes + Charge(PcOf(s, t).key))), t, FoundW(PcOf(s, t).key, PcOf(s, t).w))
    case RetainW(t) => At(Retained(s, PcOf(s, t).w, Local(t)), t, Held(PcOf(s, t).key, true))
    case WrUnlock(t) => At(s.(writer := None), t, Relocking(PcOf(s, t).key, PcOf(s, t).ok))
    case ReRead(t) => At(s.(readers := s.readers + {t}), t, Returned(PcOf(s, t).key, PcOf(s, t).ok))
    case Take(t, to) => At(s.(owners := Handed(s.owners, Local(t), to)), t, Reading)
    case Move(from, to) => s.(owners := Handed(s.owners, from, to))
    case Release(o) => s.(owners := s.owners - {o}, heap := Adjusted(s.heap, s.owners[o], -1))
    case SweepStart(t) => At(s.(writer := Some(t)), t, Sweeping(s.dict.Keys))
    case SweepOne(t, key) => AfterSweep(s, t, key, PcOf(s, t).todo)
    case SweepEnd(t) => At(s.(writer := None), t, Idle)
  }

  // ---- The invariant ----

  ghost predicate LockInv(s: State) {
    && (s.writer.Some? ==> s.readers == {})
    && forall t :: (t in s.readers <==> HoldsRead(PcOf(s, t))) && (s.writer == Some(t) <==> HoldsWrite(PcOf(s, t)))
  }

  /** Each key has one live word and each live word is found under its key. */
  ghost predicate DictInv(s: State) {
    && (forall k :: k in s.dict ==> s.dict[k] in s.heap && s.heap[s.dict[k]].key == k)
    && (forall w :: w in s.heap ==> w < s.next && s.heap[w].key in s.dict && s.dict[s.heap[w].key] == w)
  }

  ghost function OwnersOf(owners: map<Owner, WordId>, w: WordId): set<Owner> {
    set o | o in owners && owners[o] == w
  }

  /** Owned words are live, and a word's count is the number of its owners. */
  ghost predicate OwnerInv(s: State) {
    && (forall o :: o in s.owners ==> s.owners[o] in s.heap)
    && (forall w :: w in s.heap ==> s.heap[w].refs == |OwnersOf(s.owners, w)|)
  }

  /** What a thread holds in hand is still there. */
  ghost predicate PcOk(s: State, t: Thread) {
    var pc := PcOf(s, t);
    && (pc.FoundR? || pc.FoundW? || pc.Created? ==> pc.w in s.heap && s.heap[pc.w].key == pc.key)
    && (pc.Sweeping? ==> pc.todo <= s.dict.Keys)
    && (HasResult(pc) <==> Local(t) in s.owners)
    && (HasResult(pc) ==> s.owners[Local(t)] in s.heap && s.heap[s.owners[Local(t)]].key == pc.key)
  }

  ghost predicate PcInv(s: State) {
    forall t :: PcOk(s, t)
  }

  ghost function Bytes(keys: set<string>): nat {
    if keys == {} then 0 else var k :| k in keys; Charge(k) + Bytes(keys - {k})
  }

  /** A word inserted by the lock holder but not yet counted. */
  ghost predicate Uncounted(s: State) {
    s.writer.Some? && PcOf(s, s.writer.value).Created?
  }

  /** The gauges while nothing is left uncounted. */
  ghost predicate Gauged(dict: map<string, WordId>, words: U64, bytes: U64) {
    words == Wrap(|dict|) && bytes == Wrap(Bytes(dict.Keys))
  }

  /** The gauges while the word just inserted under `key` is not yet counted. */
  ghost predicate Lagging(dict: map<string, WordId>, key: string, words: U64, bytes: U64) {
    words == Wrap(|dict| - 1) && bytes == Wrap(Bytes(dict.Keys) - Charge(key))
  }

  ghost predicate GaugeInv(s: State) {
    if Uncounted(s)
    then Lagging(s.dict, PcOf(s, s.writer.value).key, s.words, s.bytes)
    else Gauged(s.dict, s.words, s.bytes)
  }

  ghost predicate Inv(s: State) {
    LockInv(s) && DictInv(s) && OwnerInv(s) && PcInv(s) && GaugeInv(s)
  }

  // ---- Every step keeps it ----

  lemma ReaderStep(s: State, step: Step)
    requires Enabled(s, step) && LockInv(s) && (step.RdLock? || step.RdUnlock? || step.DropRead? || step.ReRead?)
    ensures LockInv(Apply(s, step))
  {
  }

  lemma WriterStep(s: State, step: Step)
    requires Enabled(s, step) && LockInv(s) && (step.WrLock? || step.WrUnlock? || step.SweepStart? || step.SweepEnd?)
    ensures LockInv(Apply(s, step))
  {
  }

  lemma LockKept(s: State, step: Step)
    requires Enabled(s, step) && LockInv(s)
    ensures LockInv(Apply(s, step))
  {
    if step.RdLock? || step.RdUnlock? || step.DropRead? || step.ReRead? {
      ReaderStep(s, step);
    } else if step.WrLock? || step.WrUnlock? || step.SweepStart? || step.SweepEnd? {
      WriterStep(s, step);
    }
  }

  lemma DictKept(s: State, step: Step)
    requires Enabled(s, step) && DictInv(s)
    ensures DictInv(Apply(s, step))
  {
    if step.Recheck? {
      DictKeptRecheck(s, step.t, PcOf(s, step.t).key, PcOf(s, step.t).budget, step.memOk);
    } else if step.SweepOne? {
      DictKeptSweep(s, step.t, step.key, PcOf(s, step.t).todo);
    }
  }

  lemma DictKeptRecheck(s: State, t: Thread, key: string, budget: Budget, memOk: bool)
    requires DictInv(s)
    ensures DictInv(AfterRecheck(s, t, key, budget, memOk))
  {
  }

  lemma DictKeptSweep(s: State, t: Thread, key: string, todo: set<string>)
    requires DictInv(s)
    ensures DictInv(AfterSweep(s, t, key, todo))
  {
  }

  // Reference counts

  lemma OneMoreOwner(owners: map<Owner, WordId>, o: Owner, w: WordId, v: WordId)
    requires o !in owners
    ensures |OwnersOf(owners[o := w], v)| == |OwnersOf(owners, v)| + if v == w then 1 else 0
  {
    if v == w {
      assert OwnersOf(owners[o := w], v) == OwnersOf(owners, v) + {o};
    } else {
      assert OwnersOf(owners[o := w], v) == OwnersOf(owners, v);
    }
  }

  lemma OneOwnerLess(owners: map<Owner, WordId>, o: Owner, v: WordId)
    requires o in owners
    ensures |OwnersOf(owners - {o}, v)| == |OwnersOf(owners, v)| - if v == owners[o] then 1 else 0
  {
    if v == owners[o] {
      assert OwnersOf(owners, v) == OwnersOf(owners - {o}, v) + {o};
    } else {
      assert OwnersOf(owners - {o}, v) == OwnersOf(owners, v);
    }
  }

  lemma OwnersHanded(owners: map<Owner, WordId>, from: Owner, to: Owner, v: WordId)
    requires from in owners && to !in owners
    ensures |OwnersOf(Handed(owners, from, to), v)| == |OwnersOf(owners, v)|
  {
    OneOwnerLess(owners, from, v);
    OneMoreOwner(owners - {from}, to, owners[from], v);
  }

  lemma OwnerKeptRetain(s: State, t: Thread, w: WordId)
    requires OwnerInv(s) && w in s.heap && Local(t) !in s.owners
    ensures OwnerInv(Retained(s, w, Local(t)))
  {
    forall v | v in s.heap
      ensures Retained(s, w, Local(t)).heap[v].refs == |OwnersOf(s.owners[Local(t) := w], v)|
    {
      OneMoreOwner(s.owners, Local(t), w, v);
    }
  }

  lemma OwnerKeptHanded(s: State, from: Owner, to: Owner)
    requires OwnerInv(s) && from in s.owners && to !in s.owners
    ensures OwnerInv(s.(owners := Handed(s.owners, from, to)))
  {
    forall v | v in s.heap
      ensures s.heap[v].refs == |OwnersOf(Handed(s.owners, from, to), v)|
    {
      OwnersHanded(s.owners, from, to, v);
    }
  }

  /** A reference count never drops below zero: whoever releases a word owns it. */
  lemma OwnerKeptRelease(s: State, o: Owner)
    requires OwnerInv(s) && o in s.owners
    ensures s.heap[s.owners[o]].refs > 0
    ensures OwnerInv(s.(owners := s.owners - {o}, heap := Adjusted(s.heap, s.owners[o], -1)))
  {
    var w := s.owners[o];
    assert o in OwnersOf(s.owners, w);
    var heap' := Adjusted(s.heap, w, -1);
    forall v | v in heap'
      ensures heap'[v].refs == |OwnersOf(s.owners - {o}, v)|
    {
      OneOwnerLess(s.owners, o, v);
    }
  }

  lemma NewWordUnowned(s: State, w: WordId)
    requires OwnerInv(s) && DictInv(s) && w == s.next
    ensures |OwnersOf(s.owners, w)| == 0
  {
    assert OwnersOf(s.owners, w) == {};
  }

  /** The collector takes only words without owners. */
  lemma OwnerKeptSweep(s: State, w: WordId)
    requires OwnerInv(s) && w in s.heap && s.heap[w].refs == 0
    ensures forall o :: o in s.owners ==> s.owners[o] != w
  {
    forall o | o in s.owners
      ensures s.owners[o] != w
    {
      assert s.owners[o] == w ==> o in OwnersOf(s.owners, w);
    }
  }

  lemma OwnerKeptRecheck(s: State, step: Step)
    requires Enabled(s, step) && Inv(s) && step.Recheck?
    ensures OwnerInv(Apply(s, step))
  {
    NewWordUnowned(s, s.next);
  }

  lemma OwnerKeptSweepStep(s: State, step: Step)
    requires Enabled(s, step) && Inv(s) && step.SweepOne?
    ensures OwnerInv(Apply(s, step))
  {
    assert PcOk(s, step.t);
    var w := s.dict[step.key];
    if s.heap[w].refs == 0 { OwnerKeptSweep(s, w); }
  }

  lemma OwnerKept(s: State, step: Step)
    requires Enabled(s, step) && Inv(s)
    ensures OwnerInv(Apply(s, step))
  {
    match step
    case RetainR(t) =>
      assert PcOk(s, t);
      OwnerKeptRetain(s, t, PcOf(s, t).w);
    case RetainW(t) =>
      assert PcOk(s, t);
      OwnerKeptRetain(s, t, PcOf(s, t).w);
    case Take(t, to) => OwnerKeptHanded(s, Local(t), to);
    case Move(from, to) => OwnerKeptHanded(s, from, to);
    case Release(o) => OwnerKeptRelease(s, o);
    case Recheck(_, _) => OwnerKeptRecheck(s, step);
    case SweepOne(_, _) => OwnerKeptSweepStep(s, step);
    case _ =>
  }

  // What threads hold in hand

  /** Nothing is reclaimed: words keep their keys and the dictionary only grows. */
  ghost predicate Grows(s: State, s': State) {
    && s.dict.Keys <= s'.dict.Keys
    && forall w :: w in s.heap ==> w in s'.heap && s'.heap[w].key == s.heap[w].key
  }

  ghost predicate SameHand(s: State, s': State, t: Thread) {
    && PcOf(s', t) == PcOf(s, t)
    && (Local(t) in s'.owners <==> Local(t) in s.owners)
    && (Local(t) in s.owners ==> s'.owners[Local(t)] == s.owners[Local(t)])
  }

  lemma HandKept(s: State, s': State, t: Thread)
    requires PcOk(s, t) && Grows(s, s') && SameHand(s, s', t)
    ensures PcOk(s', t)
  {
  }

  /** Most steps leave the words alone. */
  lemma QuietStep(s: State, step: Step)
    requires Enabled(s, step) && !(step.Recheck? || step.RetainR? || step.RetainW? || step.Release? || step.SweepOne?)
    ensures Apply(s, step).heap == s.heap && Apply(s, step).dict == s.dict
  {
  }

  lemma OnlySweepsShrink(s: State, step: Step)
    requires Enabled(s, step) && DictInv(s) && !step.SweepOne?
    ensures Grows(s, Apply(s, step))
  {
    if !(step.Recheck? || step.RetainR? || step.RetainW? || step.Release?) {
      QuietStep(s, step);
    }
  }

  ghost predicate ActsFor(step: Step, t: Thread) {
    !step.Move? && !step.Release? && step.t == t
  }

  lemma OthersHands(s: State, step: Step, t: Thread)
    requires Enabled(s, step) && !ActsFor(step, t)
    ensures SameHand(s, Apply(s, step), t)
  {
  }

  /** The collector works alone: nobody else holds the lock, and a thread waiting for it may
      hold a word only as its owner. */
  lemma SweepSparesHands(s: State, step: Step, t: Thread)
    requires Enabled(s, step) && Inv(s) && step.SweepOne? && step.t != t
    ensures PcOk(Apply(s, step), t)
  {
    assert PcOk(s, t) && PcOk(s, step.t);
    OthersHands(s, step, t);
    assert !HoldsRead(PcOf(s, t)) && !HoldsWrite(PcOf(s, t));
    var w := s.dict[step.key];
    if s.heap[w].refs == 0 { OwnerKeptSweep(s, w); }
  }

  lemma RetainedHand(s: State, t: Thread, pc: Pc)
    requires Inv(s) && (PcOf(s, t).FoundR? || PcOf(s, t).FoundW?)
    requires HasResult(pc) && pc.key == PcOf(s, t).key
    ensures PcOk(At(Retained(s, PcOf(s, t).w, Local(t)), t, pc), t)
  {
    assert PcOk(s, t);
  }

  lemma ReaderHand(s: State, step: Step, t: Thread)
    requires Enabled(s, step) && Inv(s) && ActsFor(step, t)
    requires step.RdLock? || step.RdUnlock? || step.DropRead? || step.ReRead?
    ensures PcOk(Apply(s, step), t)
  {
    assert PcOk(s, t);
  }

  lemma WriterHand(s: State, step: Step, t: Thread)
    requires Enabled(s, step) && Inv(s) && ActsFor(step, t)
    requires step.WrLock? || step.WrUnlock? || step.SweepStart? || step.SweepEnd?
    ensures PcOk(Apply(s, step), t)
  {
    assert PcOk(s, t);
  }

  lemma LookupHand(s: State, step: Step, t: Thread)
    requires Enabled(s, step) && Inv(s) && ActsFor(step, t)
    requires step.Lookup? || step.Peek?
    ensures PcOk(Apply(s, step), t)
  {
    assert PcOk(s, t);
  }

  lemma CreatedHand(s: State, step: Step, t: Thread)
    requires Enabled(s, step) && Inv(s) && ActsFor(step, t)
    requires step.Recheck? || step.Count?
    ensures PcOk(Apply(s, step), t)
  {
    assert PcOk(s, t);
  }

  lemma EmptiedHand(s: State, step: Step, t: Thread)
    requires Enabled(s, step) && Inv(s) && ActsFor(step, t) && step.Take?
    ensures PcOk(Apply(s, step), t)
  {
    assert PcOk(s, t);
  }

  lemma SweepingHand(s: State, step: Step, t: Thread)
    requires Enabled(s, step) && Inv(s) && ActsFor(step, t) && step.SweepOne?
    ensures PcOk(Apply(s, step), t)
  {
    assert PcOk(s, t);
  }

  /** A thread's own step leaves it with a sound hand. */
  lemma OwnHand(s: State, step: Step, t: Thread)
    requires Enabled(s, step) && Inv(s) && ActsFor(step, t)
    ensures PcOk(Apply(s, step), t)
  {
    match step
    case RetainR(_) => RetainedHand(s, t, Returned(PcOf(s, t).key, true));
    case RetainW(_) => RetainedHand(s, t, Held(PcOf(s, t).key, true));
    case Lookup(_, _, _) => LookupHand(s, step, t);
    case Peek(_, _) => LookupHand(s, step, t);
    case Recheck(_, _) => CreatedHand(s, step, t);
    case Count(_) => CreatedHand(s, step, t);
    case Take(_, _) => EmptiedHand(s, step, t);
    case SweepOne(_, _) => SweepingHand(s, step, t);
    case WrLock(_) => WriterHand(s, step, t);
    case WrUnlock(_) => WriterHand(s, step, t);
    case SweepStart(_) => WriterHand(s, step, t);
    case SweepEnd(_) => WriterHand(s, step, t);
    case _ => ReaderHand(s, step, t);
  }

  lemma PcKept(s: State, step: Step)
    requires Enabled(s, step) && Inv(s)
    ensures PcInv(Apply(s, step))
  {
    forall t
      ensures PcOk(Apply(s, step), t)
    {
      assert PcOk(s, t);
      if ActsFor(step, t) {
        OwnHand(s, step, t);
      } else if step.SweepOne? {
        SweepSparesHands(s, step, t);
      } else {
        OnlySweepsShrink(s, step);
        OthersHands(s, step, t);
        HandKept(s, Apply(s, step), t);
      }
    }
  }

  // The gauges

  lemma {:induction false} BytesWithout(keys: set<string>, k: string)
    requires k in keys
    ensures Bytes(keys) == Charge(k) + Bytes(keys - {k})
  {
    var j :| j in keys && Bytes(keys) == Charge(j) + Bytes(keys - {j});
    if j != k {
      BytesWithout(keys - {j}, k);
      BytesWithout(keys - {k}, j);
      assert keys - {j} - {k} == keys - {k} - {j};
    }
  }

  lemma OneMoreKey(dict: map<string, WordId>, key: string, w: WordId)
    requires key !in dict
    ensures |dict[key := w]| == |dict| + 1
    ensures Bytes(dict[key := w].Keys) == Bytes(dict.Keys) + Charge(key)
  {
    BytesWithout(dict.Keys + {key}, key);
    assert dict.Keys + {key} - {key} == dict.Keys;
    assert dict[key := w].Keys == dict.Keys + {key};
  }

  lemma GaugedWithout(dict: map<string, WordId>, key: string, words: U64, bytes: U64)
    requires key in dict && Gauged(dict, words, bytes)
    ensures Gauged(dict - {key}, Wrap(words - 1), Wrap(bytes - Charge(key)))
  {
    BytesWithout(dict.Keys, key);
    assert (dict - {key}).Keys == dict.Keys - {key};
    assert |(dict - {key}).Keys| == |dict.Keys| - 1;
    WrapAdd(|dict|, -1);
    WrapAdd(Bytes(dict.Keys), 0 - Charge(key));
  }

  lemma GaugedAgain(dict: map<string, WordId>, key: string, words: U64, bytes: U64)
    requires Lagging(dict, key, words, bytes)
    ensures Gauged(dict, Wrap(words + 1), Wrap(bytes + Charge(key)))
  {
    WrapAdd(|dict| - 1, 1);
    WrapAdd(Bytes(dict.Keys) - Charge(key), Charge(key));
  }

  lemma GaugeKeptSweep(s: State, t: Thread, key: string)
    requires LockInv(s) && PcOk(s, t) && GaugeInv(s) && PcOf(s, t).Sweeping? && key in PcOf(s, t).todo
    ensures GaugeInv(AfterSweep(s, t, key, PcOf(s, t).todo))
  {
    assert s.writer == Some(t);
    GaugedWithout(s.dict, key, s.words, s.bytes);
  }

  lemma GaugeKeptCount(s: State, step: Step)
    requires step.Count? && Enabled(s, step) && LockInv(s) && GaugeInv(s)
    ensures GaugeInv(Apply(s, step))
  {
    assert s.writer == Some(step.t);
    GaugedAgain(s.dict, PcOf(s, step.t).key, s.words, s.bytes);
    assert !Uncounted(Apply(s, step));
  }

  lemma GaugedBut(dict: map<string, WordId>, key: string, w: WordId, words: U64, bytes: U64)
    requires key !in dict && Gauged(dict, words, bytes)
    ensures Lagging(dict[key := w], key, words, bytes)
  {
    OneMoreKey(dict, key, w);
  }

  lemma GaugeKeptRecheck(s: State, step: Step)
    requires step.Recheck? && Enabled(s, step) && LockInv(s) && GaugeInv(s)
    ensures GaugeInv(Apply(s, step))
  {
    assert s.writer == Some(step.t);
    if PcOf(s, step.t).key !in s.dict {
      GaugedBut(s.dict, PcOf(s, step.t).key, s.next, s.words, s.bytes);
    }
  }

  lemma GaugeKept(s: State, step: Step)
    requires Enabled(s, step) && Inv(s)
    ensures GaugeInv(Apply(s, step))
  {
    if step.Recheck? {
      GaugeKeptRecheck(s, step);
    } else if step.Count? {
      GaugeKeptCount(s, step);
    } else if step.SweepOne? {
      assert PcOk(s, step.t);
      GaugeKeptSweep(s, step.t, step.key);
    }
  }

  lemma InvKept(s: State, step: Step)
    requires Enabled(s, step) && Inv(s)
    ensures Inv(Apply(s, step))
  {
    LockKept(s, step);
    DictKept(s, step);
    OwnerKept(s, step);
    PcKept(s, step);
    GaugeKept(s, step);
  }

  const START := State(map[], map[], 0, map[], {}, None, map[], 0, 0)

  ghost predicate Schedulable(s: State, steps: seq<Step>)
    decreases |steps|
  {
    steps == [] || (Enabled(s, steps[0]) && Schedulable(Apply(s, steps[0]), steps[1..]))
  }

  ghost function Reached(s: State, steps: seq<Step>): State
    requires Schedulable(s, steps)
    decreases |steps|
  {
    if steps == [] then s else Reached(Apply(s, steps[0]), steps[1..])
  }

  /** Every interleaving of interns, lookups, hand-overs, releases and sweeps keeps the
      dictionary sound. */
  lemma {:induction false} EveryInterleavingIsSound(s: State, steps: seq<Step>)
    requires Inv(s) && Schedulable(s, steps)
    ensures Inv(Reached(s, steps))
    decreases |steps|
  {
    if steps != [] {
      InvKept(s, steps[0]);
      EveryInterleavingIsSound(Apply(s, steps[0]), steps[1..]);
    }
  }

  /** Every run from an empty dictionary is sound. */
  lemma EveryRunIsSound(steps: seq<Step>)
    requires Schedulable(START, steps)
    ensures Inv(Reached(START, steps))
  {
    assert Inv(START);
    EveryInterleavingIsSound(START, steps);
  }

  // ---- What it means for the users of the dictionary ----

  /** Conditions compare pointers; on owned words that is comparing keys. */
  lemma PointerEqualityIsKeyEquality(s: State, o: Owner, o': Owner)
    requires Inv(s) && o in s.owners && o' in s.owners
    ensures s.owners[o] in s.heap && s.owners[o'] in s.heap
    ensures s.owners[o] == s.owners[o'] <==> s.heap[s.owners[o]].key == s.heap[s.owners[o']].key
  {
  }

  /** At every unlocked state the gauges are, modulo their width, the number of words and the
      summed charges of the live words; they are exact while the charges fit the width. */
  lemma GaugesAreExact(s: State)
    requires Inv(s) && s.writer.None?
    ensures s.words == Wrap(|s.dict|) && s.bytes == Wrap(Bytes(s.dict.Keys))
    ensures Bytes(s.dict.Keys) < WORD64 ==> s.words == |s.dict| && s.bytes == Bytes(s.dict.Keys)
    ensures |s.dict.Keys| == |s.heap.Keys|
  {
    OneWordPerKey(s.dict, s.heap);
    if Bytes(s.dict.Keys) < WORD64 { SmallGauges(s.dict); }
  }

  lemma SmallGauges(dict: map<string, WordId>)
    requires Bytes(dict.Keys) < WORD64
    ensures Wrap(|dict|) == |dict| && Wrap(Bytes(dict.Keys)) == Bytes(dict.Keys)
  {
    ChargesCoverWords(dict.Keys);
    assert |dict| == |dict.Keys|;
    WrapAdd(|dict|, 0);
    WrapAdd(Bytes(dict.Keys), 0);
  }

  lemma {:induction false} ChargesCoverWords(keys: set<string>)
    ensures |keys| <= Bytes(keys)
  {
    if keys != {} {
      var k :| k in keys;
      BytesWithout(keys, k);
      ChargesCoverWords(keys - {k});
    }
  }

  lemma {:induction false} OneWordPerKey(dict: map<string, WordId>, heap: map<WordId, Word>)
    requires forall k :: k in dict ==> dict[k] in heap && heap[dict[k]].key == k
    requires forall w :: w in heap ==> heap[w].key in dict && dict[heap[w].key] == w
    ensures |dict.Keys| == |heap.Keys|
    decreases |dict|
  {
    if dict.Keys == {} {
      assert heap.Keys == {};
    } else {
      var k :| k in dict;
      var w := dict[k];
      OneWordPerKey(dict - {k}, heap - {w});
      assert dict.Keys == (dict - {k}).Keys + {k} && heap.Keys == (heap - {w}).Keys + {w};
    }
  }

  /** On 64-bit values the byte test never wraps: it is the comparison of the true sum. */
  lemma ByteTestDoesNotWrap(bytes: U64, charge: nat, maxBytes: U64)
    ensures OverBytes(bytes, charge, maxBytes) <==> bytes + charge > maxBytes
  {
  }

  /** A budgeted intern creates a word only within its limits, and otherwise changes no word. */
  lemma BudgetIsRespected(s: State, t: Thread, memOk: bool)
    requires Inv(s) && PcOf(s, t).Writing? && Bytes(s.dict.Keys) < WORD64
    ensures var pc, s' := PcOf(s, t), Apply(s, Recheck(t, memOk));
            if pc.key !in s.dict && memOk && !OverBudget(s, pc.key, pc.budget)
            then
              && s'.dict == s.dict[pc.key := s.next]
              && (pc.budget.maxWords != 0 ==> |s'.dict| <= pc.budget.maxWords)
              && (pc.budget.maxBytes != 0 ==> Bytes(s'.dict.Keys) <= pc.budget.maxBytes < WORD64)
            else
              && s'.dict == s.dict && s'.heap == s.heap && s'.owners == s.owners
              && s'.words == s.words && s'.bytes == s.bytes
              && (PcOf(s', t).FoundW? <==> pc.key in s.dict)
  {
    var pc := PcOf(s, t);
    BudgetTest(s, t);
    if pc.key !in s.dict { OneMoreKey(s.dict, pc.key, s.next); }
  }

  /** The test compares what the dictionary would hold with the limits. */
  lemma BudgetTest(s: State, t: Thread)
    requires LockInv(s) && GaugeInv(s) && PcOf(s, t).Writing? && Bytes(s.dict.Keys) < WORD64
    ensures var pc := PcOf(s, t);
            OverBudget(s, pc.key, pc.budget) <==>
              || (pc.budget.maxWords != 0 && |s.dict| + 1 > pc.budget.maxWords)
              || (pc.budget.maxBytes != 0 && Bytes(s.dict.Keys) + Charge(pc.key) > pc.budget.maxBytes)
  {
    var pc := PcOf(s, t);
    assert s.writer == Some(t);
    SmallGauges(s.dict);
    ByteTestDoesNotWrap(s.bytes, Charge(pc.key), pc.budget.maxBytes);
  }

  // Runs in which every intern has a byte budget.

  ghost predicate BytesBudgeted(pc: Pc) {
    pc.Missed? || pc.Upgrading? || pc.Writing? ==> pc.budget.maxBytes != 0
  }

  ghost predicate WithinWidth(s: State) {
    Bytes(s.dict.Keys) < WORD64 && forall t :: BytesBudgeted(PcOf(s, t))
  }

  lemma WidthKept(s: State, step: Step)
    requires Enabled(s, step) && Inv(s) && WithinWidth(s) && (step.Lookup? ==> step.budget.maxBytes != 0)
    ensures WithinWidth(Apply(s, step))
  {
    forall t ensures BytesBudgeted(PcOf(Apply(s, step), t)) {
      BudgetsKept(s, step, t);
    }
    BytesKept(s, step);
  }

  lemma BudgetsKept(s: State, step: Step, t: Thread)
    requires Enabled(s, step) && WithinWidth(s) && (step.Lookup? ==> step.budget.maxBytes != 0)
    ensures BytesBudgeted(PcOf(Apply(s, step), t))
  {
    assert BytesBudgeted(PcOf(s, t));
    if ActsFor(step, t) {
      assert BytesBudgeted(PcOf(s, step.t));
    } else {
      OthersHands(s, step, t);
    }
  }

  lemma BytesKept(s: State, step: Step)
    requires Enabled(s, step) && Inv(s) && WithinWidth(s)
    ensures Bytes(Apply(s, step).dict.Keys) < WORD64
  {
    if step.Recheck? {
      assert BytesBudgeted(PcOf(s, step.t));
      BudgetIsRespected(s, step.t, step.memOk);
    } else if step.SweepOne? {
      SweepLightens(s, step);
    } else if !(step.RetainR? || step.RetainW? || step.Release?) {
      QuietStep(s, step);
    }
  }

  lemma SweepLightens(s: State, step: Step)
    requires Enabled(s, step) && Inv(s) && step.SweepOne?
    ensures Bytes(Apply(s, step).dict.Keys) <= Bytes(s.dict.Keys)
  {
    assert PcOk(s, step.t);
    BytesWithout(s.dict.Keys, step.key);
    assert (s.dict - {step.key}).Keys == s.dict.Keys - {step.key};
  }

  /** If every intern carries a byte budget, the charges of the live words never outgrow the
      gauge, so the gauges are exact at every unlocked state of every run. */
  lemma {:induction false} BudgetedRunsStayExact(s: State, steps: seq<Step>)
    requires Inv(s) && Schedulable(s, steps) && WithinWidth(s)
    requires forall i :: 0 <= i < |steps| && steps[i].Lookup? ==> steps[i].budget.maxBytes != 0
    ensures var s' := Reached(s, steps);
            && Bytes(s'.dict.Keys) < WORD64
            && (s'.writer.None? ==> s'.words == |s'.dict| && s'.bytes == Bytes(s'.dict.Keys))
    decreases |steps|
  {
    if steps == [] {
      if s.writer.None? { GaugesAreExact(s); }
    } else {
      InvKept(s, steps[0]);
      WidthKept(s, steps[0]);
      assert forall i :: 0 <= i < |steps[1..]| ==> steps[1..][i] == steps[i + 1];
      BudgetedRunsStayExact(Apply(s, steps[0]), steps[1..]);
    }
  }

  ghost predicate Hands(step: Step, o: Owner) {
    || (step.Release? && step.o == o)
    || (step.Move? && step.from == o)
    || (step.Take? && Local(step.t) == o)
  }

  lemma OwnedStays(s: State, step: Step, o: Owner)
    requires Enabled(s, step) && Inv(s) && o in s.owners && !Hands(step, o)
    ensures o in Apply(s, step).owners && Apply(s, step).owners[o] == s.owners[o]
    ensures s.owners[o] in Apply(s, step).heap && Apply(s, step).heap[s.owners[o]].key == s.heap[s.owners[o]].key
  {
    if step.RetainR? || step.RetainW? {
      assert PcOk(s, step.t);
    } else if step.SweepOne? {
      SweepSparesOwned(s, step, o);
    } else if !step.Recheck? && !step.Release? {
      QuietStep(s, step);
    }
  }

  lemma SweepSparesOwned(s: State, step: Step, o: Owner)
    requires Enabled(s, step) && Inv(s) && o in s.owners && step.SweepOne?
    ensures Apply(s, step).owners == s.owners && s.owners[o] in Apply(s, step).heap
    ensures Apply(s, step).heap[s.owners[o]] == s.heap[s.owners[o]]
  {
    assert PcOk(s, step.t);
    var w := s.dict[step.key];
    if s.heap[w].refs == 0 { OwnerKeptSweep(s, w); }
  }

  /** Whoever owns a word keeps that very word, alive and with its key, through any
      interleaving, until it hands the word on or releases it. In particular a thread that
      interned a word still has it after giving up the write lock and queueing for the read
      lock again, whatever the collector did in between. */
  lemma {:induction false} OwnedWordSurvives(s: State, steps: seq<Step>, o: Owner)
    requires Inv(s) && Schedulable(s, steps) && o in s.owners
    requires forall i :: 0 <= i < |steps| ==> !Hands(steps[i], o)
    ensures var s' := Reached(s, steps);
            && o in s'.owners && s'.owners[o] == s.owners[o]
            && s.owners[o] in s.heap && s.owners[o] in s'.heap
            && s'.heap[s.owners[o]].key == s.heap[s.owners[o]].key
    decreases |steps|
  {
    if steps != [] {
      assert !Hands(steps[0], o);
      OwnedStays(s, steps[0], o);
      InvKept(s, steps[0]);
      assert forall i :: 0 <= i < |steps[1..]| ==> steps[1..][i] == steps[i + 1];
      OwnedWordSurvives(Apply(s, steps[0]), steps[1..], o);
    }
  }

  /** An intern that returns a word returns the one live word for the requested key, owned. */
  lemma InternDelivers(s: State, t: Thread)
    requires Inv(s) && PcOf(s, t).Returned? && PcOf(s, t).ok
    ensures var key := PcOf(s, t).key;
            && key in s.dict && Local(t) in s.owners && s.owners[Local(t)] == s.dict[key]
            && s.heap[s.dict[key]].refs > 0
  {
    assert PcOk(s, t);
    assert Local(t) in OwnersOf(s.owners, s.owners[Local(t)]);
  }
}
