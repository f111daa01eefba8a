/**
 * Java's fixed-width integer types and the narrowing conversions the model
 * needs: `(int)`, `(short)` and `(byte)` casts keep the low 32, 16 or 8 bits
 * as a two's-complement number (`(long)` the low 64), and `(int)` and
 * `(long)` on a finite double truncate toward zero and saturate at the ends
 * of the target range.
 */
module JavaInts {

  const IntMin: int := -0x8000_0000
  const IntMax: int := 0x7fff_ffff
  const LongMin: int := -0x8000_0000_0000_0000
  const LongMax: int := 0x7fff_ffff_ffff_ffff

  /** A Java `int`. */
  type Int32 = x: int | -0x8000_0000 <= x <= 0x7fff_ffff

  /** A Java `long`. */
  type Int64 = x: int | -0x8000_0000_0000_0000 <= x <= 0x7fff_ffff_ffff_ffff

  /** `(int) x` for a wider integer, also `BigInteger.intValue()` and `Long.intValue()`. */
  function ToInt(x: int): (r: Int32)
    ensures IntMin <= x <= IntMax ==> r == x
    ensures (r - x) % 0x1_0000_0000 == 0
  {
    (x + 0x8000_0000) % 0x1_0000_0000 - 0x8000_0000
  }

  /** `(long) x` for a wider integer, also `BigInteger.longValue()`. */
  function ToLong(x: int): (r: Int64)
    ensures LongMin <= x <= LongMax ==> r == x
    ensures (r - x) % 0x1_0000_0000_0000_0000 == 0
  {
    (x + 0x8000_0000_0000_0000) % 0x1_0000_0000_0000_0000 - 0x8000_0000_0000_0000
  }

  /** `(short) x`. */
  function ToShort(x: int): (r: int)
    ensures -32768 <= r <= 32767
    ensures -32768 <= x <= 32767 ==> r == x
    ensures (r - x) % 65536 == 0
  {
    (x + 32768) % 65536 - 32768
  }

  /** `(byte) x`. */
  function ToByte(x: int): (r: int)
    ensures -128 <= r <= 127
    ensures -128 <= x <= 127 ==> r == x
    ensures (r - x) % 256 == 0
  {
    (x + 128) % 256 - 128
  }

  /** Truncation toward zero of a real number. */
  function Truncate(d: real): int
  {
    if d >= 0.0 then d.Floor else -((-d).Floor)
  }

  /** Truncation drops the fraction: the result is the integer next to `d` on the side of zero. */
  lemma TruncateTowardZero(d: real)
    ensures 0.0 <= d ==> 0 <= Truncate(d) && Truncate(d) as real <= d < Truncate(d) as real + 1.0
    ensures d < 0.0 ==> Truncate(d) <= 0 && Truncate(d) as real - 1.0 < d <= Truncate(d) as real
  {
  }

  /** `(int) d` for a finite double `d`: truncation toward zero, then saturation. */
  function DoubleToInt(d: real): (r: Int32)
    ensures IntMin <= Truncate(d) <= IntMax ==> r == Truncate(d)
    ensures Truncate(d) < IntMin ==> r == IntMin
    ensures Truncate(d) > IntMax ==> r == IntMax
  {
    var t := Truncate(d);
    if t < IntMin then IntMin else if t > IntMax then IntMax else t
  }

  /** `(long) d` for a finite double `d`: truncation toward zero, then saturation. */
  function DoubleToLong(d: real): Int64
  {
    var t := Truncate(d);
    if t < LongMin then LongMin else if t > LongMax then LongMax else t
  }

  /** `(long) d` is the truncation when that fits in a long and the nearer end of the range otherwise. */
  lemma DoubleToLongSaturates(d: real)
    ensures LongMin <= Truncate(d) <= LongMax ==> DoubleToLong(d) == Truncate(d)
    ensures Truncate(d) < LongMin ==> DoubleToLong(d) == LongMin
    ensures Truncate(d) > LongMax ==> DoubleToLong(d) == LongMax
  {
  }
}
