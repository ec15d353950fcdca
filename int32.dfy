/** Java's 32-bit `int`: the range, and two's-complement wrap-around of the
    exact mathematical result, which is what `+`, `*` and `++` produce. */
module Int32 {
  const MIN: int := -0x8000_0000
  const MAX: int := 0x7fff_ffff
  const MODULUS: int := 0x1_0000_0000

  predicate InRange(x: int) {
    MIN <= x <= MAX
  }

  /** The `int` that Java keeps of the exact value `x`. */
  function Wrap(x: int): (r: int)
    ensures InRange(r)
    ensures (x - r) % MODULUS == 0
    ensures InRange(x) ==> r == x
  {
    (x - MIN) % MODULUS + MIN
  }

  /** Wrapping an intermediate result does not change the final one, so a
      running sum kept in an `int` is the wrapped exact sum. */
  lemma WrapAdd(x: int, y: int)
    ensures Wrap(Wrap(x) + y) == Wrap(x + y)
  {
    var k := (x - MIN) / MODULUS;
    assert Wrap(x) == x - k * MODULUS;
    assert (Wrap(x) + y - MIN) == (x + y - MIN) - k * MODULUS;
  }

  /** `x++` on an `int`. */
  function Increment(x: int): (r: int)
    requires InRange(x)
    ensures InRange(r)
    ensures x < MAX ==> r == x + 1
    ensures x == MAX ==> r == MIN
  {
    Wrap(x + 1)
  }
}
