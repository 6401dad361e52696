/** 32-bit signed integers with two's-complement wrap-around, as
    `std::atomic_int` increments them. */
module Int32 {

  const TwoTo31: int := 0x8000_0000
  const TwoTo32: int := 0x1_0000_0000

  type Int32 = x: int | -0x8000_0000 <= x < 0x8000_0000

  /** The 32-bit value congruent to x. */
  function Wrap(x: int): (r: Int32)
    ensures (r - x) % TwoTo32 == 0
  {
    (x + TwoTo31) % TwoTo32 - TwoTo31
  }

  /** `++c` on an atomic int: one more, except that the largest value goes to the smallest. */
  function Increment(c: Int32): (r: Int32)
    ensures r == Wrap(c + 1)
  {
    if c == TwoTo31 - 1 then -TwoTo31 else c + 1
  }

  lemma IncrementWraps(x: int)
    ensures Increment(Wrap(x)) == Wrap(x + 1)
  {
    var w := Wrap(x);
    assert (x + TwoTo31) % TwoTo32 == w + TwoTo31;
    if w == TwoTo31 - 1 {
      assert (x + 1 + TwoTo31) % TwoTo32 == 0;
    } else {
      assert (x + 1 + TwoTo31) % TwoTo32 == w + 1 + TwoTo31;
    }
  }

  /** Counter values fewer than 2^32 increments apart are different. */
  lemma WrapDistinct(i: int, j: int)
    requires i < j < i + TwoTo32
    ensures Wrap(i) != Wrap(j)
  {
  }

  /** Exactly 2^32 increments bring the counter back to the same value. */
  lemma WrapPeriod(i: int)
    ensures Wrap(i) == Wrap(i + TwoTo32)
  {
  }
}
