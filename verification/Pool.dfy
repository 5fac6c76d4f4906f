/** The generic pool: a growable slot buffer used as a queue by the collectors and as a
    ring by the request and timer stores. */
module Pools {
  import opened Ring

  function NewSize(size: nat, limit: nat, growBy: nat, more: nat): (n: nat)
    ensures var step := if more > 0 then more else growBy;
            && n <= size + step && (limit > 0 ==> n <= limit)
            && (n == size + step || (limit > 0 && n == limit))
  {
    var wanted := size + if more != 0 then more else growBy;
    if limit > 0 && wanted > limit then limit else wanted
  }

  /** What growth does to the slots: a wrapped ring has its tail moved to the new end,
      and the gap that opens is zeroed. */
  ghost function Grown<T>(data: seq<T>, inp: nat, out: nat, more: nat, zero: T): (d: seq<T>)
    requires inp <= |data| && out <= |data|
    ensures |d| == |data| + more
  {
    var gap := seq(more, _ => zero);
    if out > inp then data[..out] + gap + data[out..] else data + gap
  }

  ghost function GrownOut(inp: nat, out: nat, more: nat): nat {
    if out > inp then out + more else out
  }

  /** Growth neither loses nor duplicates a slot: the new slots are the old ones plus zeros. */
  lemma GrowthKeepsEverySlot<T>(data: seq<T>, inp: nat, out: nat, more: nat, zero: T)
    requires inp <= |data| && out <= |data|
    ensures multiset(Grown(data, inp, out, more, zero))
            == multiset(data) + multiset(seq(more, _ => zero))
  {
    assert data == data[..out] + data[out..];
  }

  /** Growth is invisible to a reader of the ring: the occupied slots, read from the moved
      `out` cursor, are the same sequence. */
  lemma {:induction false} GrowthKeepsContents<T>(data: seq<T>, inp: nat, out: nat, more: nat, zero: T)
    requires inp < |data| && out < |data|
    ensures var d := Grown(data, inp, out, more, zero);
            var out' := GrownOut(inp, out, more);
            && out' < |d| && inp < |d|
            && Count(inp, out', |d|) == Count(inp, out, |data|)
            && Window(d, out', Count(inp, out', |d|)) == Window(data, out, Count(inp, out, |data|))
  {
    var d := Grown(data, inp, out, more, zero);
    var out' := GrownOut(inp, out, more);
    var n := Count(inp, out, |data|);
    forall k | 0 <= k < n
      ensures Window(d, out', n)[k] == Window(data, out, n)[k]
    {
      assert d[Slot(out', k, |d|)] == data[Slot(out, k, |data|)];
    }
  }

  /** The reallocation: the old slots keep their positions. */
  method CopyInto<T>(src: array<T>, dst: array<T>)
    requires src != dst && src.Length <= dst.Length
    modifies dst
    ensures dst[..] == src[..] + old(dst[src.Length..])
  {
    forall i | 0 <= i < src.Length {
      dst[i] := src[i];
    }
  }

  /** Move slots `out..used` to the end of the buffer and zero the gap they leave. */
  method MoveTail<T>(a: array<T>, out: nat, used: nat, zero: T)
    requires out <= used <= a.Length
    modifies a
    ensures a[..] == old(a[..out]) + seq(a.Length - used, _ => zero) + old(a[out..used])
  {
    var more := a.Length - used;
    forall i | out <= i < used {
      a[i + more] := a[i];
    }
    forall i | out <= i < out + more {
      a[i] := zero;
    }
  }

  class Pool<T> {
    const zero: T
    const limit: nat
    const growBy: nat
    var data: array<T>
    var inp: nat
    var out: nat

    ghost predicate Valid()
      reads this
    {
      inp <= data.Length && out <= data.Length
    }

    /** As a ring both cursors name a slot. */
    ghost predicate IsRing()
      reads this
    {
      inp < data.Length && out < data.Length
    }

    function NumRecords(): (n: nat)
      requires Valid()
      reads this
    {
      Count(inp, out, data.Length)
    }

    constructor (size: nat, limit: nat, growBy: nat, zero: T)
      ensures Valid() && fresh(data) && data.Length == size
      ensures this.zero == zero && this.limit == limit
      ensures this.growBy == (if growBy != 0 then growBy else size)
      ensures inp == 0 && out == 0
      ensures forall i :: 0 <= i < size ==> data[i] == zero
    {
      this.zero := zero;
      this.limit := limit;
      this.growBy := if growBy != 0 then growBy else size;
      data := new T[size](_ => zero);
      inp, out := 0, 0;
    }

    /** Enlarge the buffer; `memOk` says whether the allocator delivered. */
    method Grow(request: nat, memOk: bool) returns (ok: bool)
      requires Valid()
      modifies this
      ensures Valid() && inp == old(inp)
      ensures ok <==> memOk && old(data.Length) < NewSize(old(data.Length), limit, growBy, request)
      ensures !ok ==> data == old(data) && out == old(out)
      ensures ok ==> fresh(data)
      ensures ok ==>
        var more := NewSize(old(data.Length), limit, growBy, request) - old(data.Length);
        && data[..] == Grown(old(data[..]), inp, old(out), more, zero)
        && out == GrownOut(inp, old(out), more)
    {
      var oldSize := data.Length;
      var newSize := NewSize(oldSize, limit, growBy, request);
      if newSize <= oldSize || !memOk {
        return false;
      }
      var more := newSize - oldSize;
      var bigger := new T[newSize](_ => zero);
      CopyInto(data, bigger);
      if out > inp {
        MoveTail(bigger, out, oldSize, zero);
        out := out + more;
      }
      data := bigger;
      ok := true;
    }

    /** Append at `inp`, growing first when the buffer is full. */
    method Push(x: T, memOk: bool) returns (ok: bool)
      requires Valid() && out == 0
      modifies this, data
      ensures Valid() && out == 0
      ensures ok <==> old(inp) < old(data.Length)
                      || (memOk && old(data.Length) < NewSize(old(data.Length), limit, growBy, 0))
      ensures data[..inp] == old(data[..inp]) + (if ok then [x] else [])
      ensures data == old(data) || fresh(data)
    {
      ghost var was := data[..inp];
      if inp == data.Length {
        ok := Grow(0, memOk);
        if !ok {
          return;
        }
      }
      assert data[..inp] == was;
      data[inp] := x;
      inp := inp + 1;
      ok := true;
      assert data[..inp] == was + [x];
    }
  }
}
