/** Reports grouped by two keys are kept as a map of maps. It behaves as one flat map keyed by
    the pair, as long as no empty inner map is left behind. */
module NestedMap {
  type Nested<G> = map<string, map<string, G>>

  type Pairs<G> = map<(string, string), G>

  /** The flat map and the nested map agree on one pair. */
  ghost predicate PairIs<G>(f: Pairs<G>, m: Nested<G>, s: string, v: string) {
    && ((s, v) in f <==> s in m && v in m[s])
    && ((s, v) in f ==> f[(s, v)] == m[s][v])
  }

  /** `f` is `m` flattened. */
  ghost predicate IsFlat<G(!new)>(f: Pairs<G>, m: Nested<G>) {
    forall s, v :: PairIs(f, m, s, v)
  }

  ghost predicate NoEmpty<G>(m: Nested<G>) {
    forall s :: s in m ==> m[s] != map[]
  }

  function Inner<G>(m: Nested<G>, s: string): map<string, G> {
    if s in m then m[s] else map[]
  }

  lemma FlatPut<G(!new)>(f: Pairs<G>, m: Nested<G>, s: string, v: string, g: G)
    requires IsFlat(f, m) && NoEmpty(m)
    ensures IsFlat(f[(s, v) := g], m[s := Inner(m, s)[v := g]]) && NoEmpty(m[s := Inner(m, s)[v := g]])
  {
    var f', m' := f[(s, v) := g], m[s := Inner(m, s)[v := g]];
    forall s', v'
      ensures PairIs(f', m', s', v')
    {
      assert PairIs(f, m, s', v');
    }
    assert v in Inner(m, s)[v := g];
  }

  /** Delete a pair; an inner map that runs empty goes with it. */
  function Drop<G(==)>(m: Nested<G>, s: string, v: string): Nested<G>
    requires s in m
  {
    var inner := m[s] - {v};
    if inner == map[] then m - {s} else m[s := inner]
  }

  lemma FlatDrop<G(!new)>(f: Pairs<G>, m: Nested<G>, s: string, v: string)
    requires s in m && IsFlat(f, m) && NoEmpty(m)
    ensures IsFlat(f - {(s, v)}, Drop(m, s, v)) && NoEmpty(Drop(m, s, v))
  {
    var inner := m[s] - {v};
    forall s', v'
      ensures PairIs(f - {(s, v)}, Drop(m, s, v), s', v')
    {
      assert PairIs(f, m, s', v');
      assert s' == s && v' != v && v' in m[s] ==> v' in inner;
    }
  }

  /** `results_cnt` adds up inner map by inner map. */
  lemma FlatSize<G(!new)>(f: Pairs<G>, m: Nested<G>, s: string)
    requires IsFlat(f, m) && s in m
    ensures var f' := f - KeysUnder(m, s);
            IsFlat(f', m - {s}) && |f| == |f'| + |m[s]|
  {
    var ks := KeysUnder(m, s);
    var f' := f - ks;
    forall s', v'
      ensures PairIs(f', m - {s}, s', v')
    {
      assert PairIs(f, m, s', v');
    }
    forall v | v in m[s]
      ensures (s, v) in f
    {
      assert PairIs(f, m, s, v);
    }
    assert f.Keys == f'.Keys + ks && f'.Keys !! ks;
    assert |f.Keys| == |f'.Keys| + |ks|;
    PairsSize(m[s].Keys, s);
  }

  ghost function KeysUnder<G>(m: Nested<G>, s: string): set<(string, string)>
    requires s in m
  {
    PairsWith(m[s].Keys, s)
  }

  ghost function PairsWith(vs: set<string>, s: string): set<(string, string)> {
    set v | v in vs :: (s, v)
  }

  lemma {:induction false} PairsSize(vs: set<string>, s: string)
    ensures |PairsWith(vs, s)| == |vs|
  {
    if vs != {} {
      var v :| v in vs;
      PairsSize(vs - {v}, s);
      assert PairsWith(vs, s) == PairsWith(vs - {v}, s) + {(s, v)};
    }
  }

  /** The sizes of the inner maps listed in `outer`. */
  ghost function InnerSizes<G>(m: Nested<G>, outer: seq<string>): nat
    requires forall i :: 0 <= i < |outer| ==> outer[i] in m
  {
    if outer == [] then 0 else |m[outer[0]]| + InnerSizes(m, outer[1..])
  }

  lemma {:induction false} SizesWithout<G>(m: Nested<G>, s: string, outer: seq<string>)
    requires s !in outer && forall i :: 0 <= i < |outer| ==> outer[i] in m
    ensures forall i :: 0 <= i < |outer| ==> outer[i] in m - {s}
    ensures InnerSizes(m - {s}, outer) == InnerSizes(m, outer)
  {
    if outer != [] { SizesWithout(m, s, outer[1..]); }
  }

  /** Flattening counts every inner entry once, in whatever order the outer keys are listed. */
  lemma {:induction false} SizeIsSumOfInner<G(!new)>(f: Pairs<G>, m: Nested<G>, outer: seq<string>)
    requires IsFlat(f, m) && (forall s :: s in outer <==> s in m)
    requires forall i, j :: 0 <= i < j < |outer| ==> outer[i] != outer[j]
    ensures |f| == InnerSizes(m, outer)
    decreases |outer|
  {
    if outer == [] {
      NothingFlat(f, m);
    } else {
      var s, rest := outer[0], outer[1..];
      assert s in outer && outer == [s] + rest;
      FlatSize(f, m, s);
      assert s !in rest;
      SizesWithout(m, s, rest);
      SizeIsSumOfInner(f - KeysUnder(m, s), m - {s}, rest);
    }
  }

  lemma NothingFlat<G(!new)>(f: Pairs<G>, m: Nested<G>)
    requires IsFlat(f, m) && forall s :: s !in m
    ensures |f| == 0
  {
    forall k ensures k !in f {
      assert PairIs(f, m, k.0, k.1);
    }
  }
}
