/** Second/microsecond pairs: the engine adds and subtracts them field by field and
    carries or borrows one second by hand. */
module Time {
  const MILLION: int := 1000000

  datatype Timeval = Timeval(sec: int, usec: int)

  const ZERO := Timeval(0, 0)

  predicate Normal(t: Timeval) {
    0 <= t.usec < MILLION
  }

  function Micros(t: Timeval): int {
    t.sec * MILLION + t.usec
  }

  /** The one normalised pair that denotes `us` microseconds. */
  function FromMicros(us: int): (t: Timeval)
    ensures Normal(t) && Micros(t) == us
  {
    Timeval(us / MILLION, us % MILLION)
  }

  lemma MicrosInjective(a: Timeval, b: Timeval)
    requires Normal(a) && Normal(b) && Micros(a) == Micros(b)
    ensures a == b
  {
  }

  /** Carrying once keeps the sum normalised and exact. */
  function Plus(a: Timeval, b: Timeval): (r: Timeval)
    ensures Micros(r) == Micros(a) + Micros(b)
    ensures Normal(a) && Normal(b) ==> Normal(r)
  {
    var s, u := a.sec + b.sec, a.usec + b.usec;
    if u >= MILLION then Timeval(s + 1, u - MILLION) else Timeval(s, u)
  }

  /** Borrowing once keeps the difference normalised and exact. */
  function Minus(a: Timeval, b: Timeval): (r: Timeval)
    ensures Micros(r) == Micros(a) - Micros(b)
    ensures Normal(a) && Normal(b) ==> Normal(r)
  {
    var s, u := a.sec - b.sec, a.usec - b.usec;
    if u < 0 then Timeval(s - 1, u + MILLION) else Timeval(s, u)
  }

  /** Comparing seconds first is comparing microseconds, on normalised pairs. */
  predicate Less(a: Timeval, b: Timeval)
    ensures Normal(a) && Normal(b) ==> (Less(a, b) <==> Micros(a) < Micros(b))
  {
    if a.sec == b.sec then a.usec < b.usec else a.sec < b.sec
  }
}
