/** Wrap-around arithmetic shared by the request ring and the timer ring. */
module Ring {

  /** The slot reached `k` steps after slot `p`. One conditional subtraction is enough
      because no caller steps more than a full turn. */
  function Slot(p: nat, k: nat, size: nat): (s: nat)
    requires p < size && k <= size
    ensures s < size
  {
    if p + k >= size then p + k - size else p + k
  }

  /** Number of occupied slots; equal cursors always mean an empty ring. */
  function Count(inp: nat, out: nat, size: nat): (n: nat)
    requires inp <= size && out <= size
    ensures inp < size && out < size ==> n < size && Slot(out, n, size) == inp
  {
    if inp == out then 0
    else if inp > out then inp - out
    else size - (out - inp)
  }

  /** The `n` values read forward from slot `p`. */
  function Window<T>(data: seq<T>, p: nat, n: nat): (w: seq<T>)
    requires p < |data| && n <= |data|
    ensures |w| == n
    ensures forall k :: 0 <= k < n ==> w[k] == data[Slot(p, k, |data|)]
  {
    seq(n, k requires 0 <= k < n => data[Slot(p, k, |data|)])
  }

  /** Stepping `a` and then `b` is stepping `a + b`. */
  lemma SlotCompose(p: nat, a: nat, b: nat, size: nat)
    requires p < size && a + b <= size
    ensures Slot(Slot(p, a, size), b, size) == Slot(p, a + b, size)
  {
  }

  /** A window is read piece by piece. */
  lemma WindowSplit<T>(data: seq<T>, p: nat, n: nat, m: nat)
    requires p < |data| && n + m <= |data|
    ensures Window(data, p, n + m) == Window(data, p, n) + Window(data, Slot(p, n, |data|), m)
  {
    forall k | 0 <= k < m
      ensures Slot(Slot(p, n, |data|), k, |data|) == Slot(p, n + k, |data|)
    {
      SlotCompose(p, n, k, |data|);
    }
  }

  /** Fewer than a full turn apart, distinct distances reach distinct slots. */
  lemma SlotInjective(p: nat, a: nat, b: nat, size: nat)
    requires p < size && a < size && b < size
    ensures Slot(p, a, size) == Slot(p, b, size) <==> a == b
  {
  }
}
