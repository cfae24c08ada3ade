/** Java's 64-bit `long` and its wrap-around addition, which is how
    `System.currentTimeMillis() + duration` is computed. */
module JavaLong {

  const LongMin: int := -0x8000_0000_0000_0000
  const LongMax: int := 0x7fff_ffff_ffff_ffff
  const Modulus: int := 0x1_0000_0000_0000_0000

  type Long = x: int | LongMin <= x <= LongMax

  /** Two's-complement truncation of an integer to 64 bits. */
  function Wrap(x: int): (r: Long)
    ensures LongMin <= x <= LongMax ==> r == x
    ensures LongMax < x < LongMax + Modulus ==> r == x - Modulus
    ensures LongMin - Modulus <= x < LongMin ==> r == x + Modulus
  {
    (x - LongMin) % Modulus + LongMin
  }

  /** Java's `a + b` on two `long` values. */
  function Add(a: Long, b: Long): (r: Long)
    ensures LongMin <= a + b <= LongMax ==> r == a + b
    ensures a + b > LongMax ==> r == a + b - Modulus
    ensures a + b < LongMin ==> r == a + b + Modulus
  {
    Wrap(a + b)
  }

  /** For a clock reading at or after the epoch, `now + d` lies in the future
      exactly when `d` is positive and the sum does not overflow. */
  lemma AddIsLaterIff(now: Long, d: Long)
    requires 0 <= now
    ensures Add(now, d) > now <==> 0 < d && now + d <= LongMax
  {
  }
}
