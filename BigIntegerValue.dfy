/**
 * The `biginteger` library: Lua values wrapping arbitrary-precision
 * integers, one native function per operation, each dispatching on its
 * opcode, and the table through which scripts reach them.
 *
 * Java's BigInteger is Dafny's `int`. A BigIntegerValue is `Big(n)`; the
 * metatable every such value carries is the one `makeTable` builds and is
 * left implicit in the value.
 */
module BigIntegerValue {
  import opened Wrappers
  import opened JavaInts

  /** The Lua values the library consumes and produces. */
  datatype LuaValue =
    | Nil
    | Boolean(b: bool)
    | Integer(i: Int32)          // a LuaInteger
    | Double(d: real)            // a finite LuaDouble
    | Infinite(negative: bool)   // LuaDouble's infinities
    | NaN                        // LuaDouble.NAN, the result of failed arithmetic
    | Str(s: string)             // a LuaString
    | Big(n: int)                // a BigIntegerValue
    | Other(typeName: string)    // a table, function, thread or other userdata, with its type name

  /** luaj's `typename()` of each kind of value. */
  function TypeName(v: LuaValue): string
  {
    match v
    case Nil => "nil"
    case Boolean(_) => "boolean"
    case Integer(_) => "number"
    case Double(_) => "number"
    case Infinite(_) => "number"
    case NaN => "number"
    case Str(_) => "string"
    case Big(_) => "userdata"
    case Other(name) => name
  }

  /** The Java exceptions an operation can raise. */
  datatype Thrown = LuaError(message: Message) | ArithmeticException | NumberFormatException(input: string)

  /** The messages of the LuaErrors raised here, kept by their parts; `MessageText` spells them out. */
  datatype Message =
    | NumberExpected(got: string)   // luaj's argument error, with the offending value's type name
    | NoSuchMethod(opcode: int)     // the switch's `default` case

  /** The message text: luaj's wording for a bad argument, "No such method " and the opcode otherwise. */
  function MessageText(m: Message): string
  {
    match m
    case NumberExpected(got) => "bad argument: number expected, got " + got
    case NoSuchMethod(opcode) => "No such method " + IntToDecimal(opcode)
  }

  // ---------------------------------------------------------------------
  // BigInteger's supported range

  /** `BigInteger.bitLength()` of a magnitude: the number of binary digits of `m`. */
  function BitLength(m: nat): nat
  {
    if m == 0 then 0 else 1 + BitLength(m / 2)
  }

  /**
   * The values BigInteger supports (Java 8 and later): magnitudes of at
   * most Integer.MAX_VALUE bits, that is -2^Integer.MAX_VALUE < n <
   * 2^Integer.MAX_VALUE. Constructing a value outside it raises
   * ArithmeticException.
   */
  predicate InRange(n: int)
  {
    BitLength(Abs(n)) <= IntMax
  }

  /** A bit length of at most `k` means exactly a magnitude below 2^k. */
  lemma {:induction false} BitLengthBound(m: nat, k: nat)
    ensures BitLength(m) <= k <==> m < Power(2, k)
    decreases k
  {
    if k > 0 && m > 0 {
      BitLengthBound(m / 2, k - 1);
    }
  }

  /** The supported range, as a bound on the magnitude. */
  lemma RangeBound(n: int, k: nat)
    requires k == IntMax
    ensures InRange(n) <==> -Power(2, k) < n < Power(2, k)
  {
    BitLengthBound(Abs(n), k);
  }

  /** A smaller magnitude never has a longer bit length. */
  lemma {:induction false} BitLengthMonotone(a: nat, b: nat)
    requires a <= b
    ensures BitLength(a) <= BitLength(b)
    decreases b
  {
    if a > 0 {
      BitLengthMonotone(a / 2, b / 2);
    }
  }

  /** A BigInteger result: the number when BigInteger supports it, ArithmeticException otherwise. */
  function Checked(n: int): (r: Outcome)
    ensures r == Return(Big(n)) <==> InRange(n)
    ensures r == Throw(ArithmeticException) <==> !InRange(n)
  {
    if InRange(n) then Return(Big(n)) else Throw(ArithmeticException)
  }

  /** What `call` returns for a computed number: the BigIntegerValue, or NaN once the range is exceeded. */
  function BigOrNaN(n: int): (v: LuaValue)
    ensures v == Big(n) <==> InRange(n)
    ensures v == NaN <==> !InRange(n)
  {
    if InRange(n) then Big(n) else NaN
  }

  /** A checked result, once caught, is what BigOrNaN says. */
  lemma CaughtChecked(n: int)
    ensures Caught(Checked(n)) == Return(BigOrNaN(n))
  {
  }

  // ---------------------------------------------------------------------
  // Decimal text, as `new BigInteger(String)` reads it and `toString()` writes it

  predicate IsDigit(c: char)
  {
    '0' <= c <= '9'
  }

  /** Every character of `s` is a decimal digit (checked from the last one back). */
  predicate AllDigits(s: string)
  {
    |s| == 0 || (AllDigits(s[..|s| - 1]) && IsDigit(s[|s| - 1]))
  }

  function DigitChar(d: nat): (c: char)
    requires d < 10
    ensures IsDigit(c) && (c as int) - ('0' as int) == d
  {
    ('0' as int + d) as char
  }

  /** The number a string of decimal digits denotes (most significant first). */
  function DigitsValue(s: string): nat
    requires AllDigits(s)
  {
    if |s| == 0 then 0 else DigitsValue(s[..|s| - 1]) * 10 + ((s[|s| - 1] as int) - ('0' as int))
  }

  /** The text `new BigInteger(String)` accepts: one optional sign, only in front, then at least one digit. */
  predicate WellFormedDecimal(s: string)
  {
    |s| > 0 && (if s[0] == '-' || s[0] == '+' then |s| >= 2 && AllDigits(s[1..]) else AllDigits(s))
  }

  /**
   * `new BigInteger(String)`: the value of well-formed text, negated after
   * a `-`; None where Java raises NumberFormatException.
   */
  function ParseDecimal(s: string): (r: Option<int>)
    ensures r.Some? <==> WellFormedDecimal(s)
    ensures r.Some? && IsDigit(s[0]) ==> AllDigits(s) && r.value == DigitsValue(s)
    ensures r.Some? && s[0] == '-' ==> AllDigits(s[1..]) && r.value == -(DigitsValue(s[1..]) as int)
    ensures r.Some? && s[0] == '+' ==> AllDigits(s[1..]) && r.value == DigitsValue(s[1..])
  {
    if |s| > 0 && (s[0] == '-' || s[0] == '+') then
      var digits := s[1..];
      if |digits| > 0 && AllDigits(digits) then
        var magnitude: int := DigitsValue(digits);
        Some(if s[0] == '-' then -magnitude else magnitude)
      else None
    else if |s| > 0 && AllDigits(s) then Some(DigitsValue(s))
    else None
  }

  /** Decimal digits of `n` without leading zeros. */
  function NatToDecimal(n: nat): string
  {
    if n < 10 then [DigitChar(n)] else NatToDecimal(n / 10) + [DigitChar(n % 10)]
  }

  /** The digits of `n` denote `n`, and the first is a zero only for zero itself. */
  lemma {:induction false} NatToDecimalDigits(n: nat)
    ensures |NatToDecimal(n)| > 0 && AllDigits(NatToDecimal(n)) && DigitsValue(NatToDecimal(n)) == n
    ensures IsDigit(NatToDecimal(n)[0]) && (NatToDecimal(n)[0] == '0' ==> n == 0)
  {
    if n >= 10 {
      NatToDecimalDigits(n / 10);
      var s := NatToDecimal(n);
      assert s[..|s| - 1] == NatToDecimal(n / 10);
    }
  }

  /** `BigInteger.toString()`: a minus sign for negative numbers, then the digits. */
  function IntToDecimal(n: int): string
  {
    if n < 0 then "-" + NatToDecimal(-n) else NatToDecimal(n)
  }

  /** Reading back what `toString()` printed gives the same number; the text starts with '-' exactly for negative numbers. */
  lemma DecimalRoundTrip(n: int)
    ensures |IntToDecimal(n)| > 0 && (IntToDecimal(n)[0] == '-' <==> n < 0)
    ensures ParseDecimal(IntToDecimal(n)) == Some(n)
  {
    var s := IntToDecimal(n);
    if n < 0 {
      NatToDecimalDigits(-n);
      assert s[1..] == NatToDecimal(-n);
    } else {
      NatToDecimalDigits(n);
      assert IsDigit(s[0]);
    }
  }

  // ---------------------------------------------------------------------
  // Argument coercion

  /**
   * `checklong`: a BigIntegerValue gives `longValue()` (its low 64 bits), a
   * LuaInteger itself, a double `(long)` of it (NaN 0, the infinities the
   * ends of the long range), a decimal string its value cut to a long;
   * anything else is a bad argument.
   */
  function CheckLong(v: LuaValue): Result<Int64, Thrown>
  {
    match v
    case Big(n) => Ok(ToLong(n))
    case Str(s) =>
      (match ParseDecimal(s)
       case Some(n) => Ok(ToLong(n))
       case None => Err(LuaError(NumberExpected(TypeName(v)))))
    case _ => CheckLongOther(v)
  }

  /** `checklong` on the values that are neither a BigIntegerValue nor a string, which getValue and `new` also send there. */
  function CheckLongOther(v: LuaValue): Result<Int64, Thrown>
  {
    match v
    case Integer(i) => Ok(i)
    case Double(d) => Ok(DoubleToLong(d))
    case Infinite(negative) => Ok(if negative then LongMin else LongMax)
    case NaN => Ok(0)
    case _ => Err(LuaError(NumberExpected(TypeName(v))))
  }

  /** What `checklong` gives for each kind of value, and which values are bad arguments. */
  lemma CheckLongCases(v: LuaValue)
    ensures v.Big? ==> CheckLong(v) == Ok(ToLong(v.n))
    ensures v.Integer? ==> CheckLong(v) == Ok(v.i)
    ensures v.Double? ==> CheckLong(v) == Ok(DoubleToLong(v.d))
    ensures v.Infinite? ==> CheckLong(v) == Ok(if v.negative then LongMin else LongMax)
    ensures CheckLong(v).Err? <==> v.Nil? || v.Boolean? || v.Other? || (v.Str? && !WellFormedDecimal(v.s))
    ensures CheckLong(v).Err? ==> CheckLong(v).error == LuaError(NumberExpected(TypeName(v)))
  {
  }

  /**
   * `getValue`: a BigIntegerValue gives its own number, a string is parsed
   * as a decimal integer, anything else goes through `checklong`. Text
   * outside BigInteger's range raises ArithmeticException, which getValue
   * does not catch.
   */
  function GetValue(v: LuaValue): Result<int, Thrown>
  {
    match v
    case Big(n) => Ok(n)
    case Str(s) =>
      (match ParseDecimal(s)
       case Some(n) => if InRange(n) then Ok(n) else Err(ArithmeticException)
       case None => Err(LuaError(NumberExpected(TypeName(v)))))
    case _ =>
      (match CheckLongOther(v)
       case Ok(n) => Ok(n)
       case Err(e) => Err(e))
  }

  /** What `getValue` gives for each kind of value, and which values raise. */
  lemma GetValueCases(v: LuaValue)
    ensures v.Big? ==> GetValue(v) == Ok(v.n)
    ensures v.Str? && WellFormedDecimal(v.s) ==>
      GetValue(v) == (if InRange(ParseDecimal(v.s).value) then Ok(ParseDecimal(v.s).value) else Err(ArithmeticException))
    ensures !v.Big? && !v.Str? ==> GetValue(v).Ok? == CheckLong(v).Ok? && (GetValue(v).Ok? ==> GetValue(v).value == CheckLong(v).value)
    ensures GetValue(v).Err? <==> v.Nil? || v.Boolean? || v.Other? || (v.Str? && !(WellFormedDecimal(v.s) && InRange(ParseDecimal(v.s).value)))
    ensures GetValue(v).Err? && GetValue(v).error != ArithmeticException ==> GetValue(v).error == LuaError(NumberExpected(TypeName(v)))
  {
  }

  /**
   * `checkint` on an argument: a BigIntegerValue gives `intValue()` (its low
   * 32 bits), a LuaInteger itself, a double `(int) (long)` of it, a decimal
   * string its value cut to an int; anything else is a bad argument.
   */
  function CheckInt(v: LuaValue): Result<Int32, Thrown>
  {
    match v
    case Big(n) => Ok(ToInt(n))
    case Integer(i) => Ok(i)
    case Double(d) => Ok(ToInt(DoubleToLong(d)))
    case Infinite(negative) => Ok(ToInt(if negative then LongMin else LongMax))
    case NaN => Ok(0)
    case Str(s) =>
      (match ParseDecimal(s)
       case Some(n) => Ok(ToInt(n))
       case None => Err(LuaError(NumberExpected(TypeName(v)))))
    case Nil => Err(LuaError(NumberExpected(TypeName(v))))
    case Boolean(_) => Err(LuaError(NumberExpected(TypeName(v))))
    case Other(_) => Err(LuaError(NumberExpected(TypeName(v))))
  }

  /** What `checkint` gives: the low 32 bits of what checklong reads, failing exactly where checklong fails. */
  lemma CheckIntCases(v: LuaValue)
    ensures v.Big? ==> CheckInt(v) == Ok(ToInt(v.n))
    ensures v.Integer? ==> CheckInt(v) == Ok(v.i)
    ensures v.Double? ==> CheckInt(v) == Ok(ToInt(DoubleToLong(v.d)))
    ensures CheckInt(v).Err? <==> CheckLong(v).Err?
    ensures CheckInt(v).Err? ==> CheckInt(v).error == LuaError(NumberExpected(TypeName(v)))
  {
  }

  // ---------------------------------------------------------------------
  // Integer arithmetic with BigInteger's meaning

  function Abs(x: int): nat
  {
    if x < 0 then -x else x
  }

  /**
   * `BigInteger.divide`: the quotient rounded toward zero, so its magnitude
   * is the largest q with |b| * q <= |a|, and it is negative only when the
   * signs differ.
   */
  function TDiv(a: int, b: int): (q: int)
    requires b != 0
    ensures Abs(b) * Abs(q) <= Abs(a) < Abs(b) * (Abs(q) + 1)
    ensures q < 0 ==> (a < 0) != (b < 0)
    ensures q > 0 ==> (a < 0) == (b < 0)
  {
    var q := Abs(a) / Abs(b);
    NaturalDivision(Abs(a), Abs(b));
    assert Abs(b) * (q + 1) == Abs(b) * q + Abs(b);
    if (a < 0) == (b < 0) then q else -q
  }

  /** `BigInteger.remainder`: smaller in magnitude than the divisor, with the sign of the dividend. */
  function TRem(a: int, b: int): (m: int)
    requires b != 0
    ensures Abs(m) < Abs(b) && Abs(m) <= Abs(a)
    ensures m == 0 || (m < 0 <==> a < 0)
  {
    var m := Abs(a) % Abs(b);
    RemainderAtMost(Abs(a), Abs(b));
    if a < 0 then -m else m
  }

  /** `BigInteger.pow` for a non-negative exponent: zero only for a zero base, negative exactly for a negative base and an odd exponent. */
  function Power(b: int, e: nat): (r: int)
    ensures b > 0 ==> r > 0
    ensures r == 0 <==> b == 0 && e > 0
    ensures r < 0 <==> b < 0 && e % 2 == 1
  {
    if e == 0 then 1
    else
      var p := Power(b, e - 1);
      ProductSign(b, p);
      b * p
  }

  /** The sign of a product from the signs of its factors. */
  lemma ProductSign(x: int, y: int)
    ensures x * y == 0 <==> x == 0 || y == 0
    ensures x * y < 0 <==> (x < 0 && y > 0) || (x > 0 && y < 0)
  {
    if x > 0 && y > 0 {
      MulAtLeast(x, y);
    } else if x < 0 && y < 0 {
      MulAtLeast(-x, -y);
    } else if x > 0 && y < 0 {
      MulAtLeast(x, -y);
    } else if x < 0 && y > 0 {
      MulAtLeast(-x, y);
    }
  }

  /** `BigInteger.shiftLeft(n)`: floor(x * 2^n), so a negative n shifts right; the sign is kept. */
  function ShiftLeft(x: int, n: int): (r: int)
    ensures r < 0 <==> x < 0
  {
    if n >= 0 then
      ProductSign(x, Power(2, n));
      x * Power(2, n)
    else
      var p := Power(2, -n);
      NaturalDivision(Abs(x), p);
      x / p
  }

  /** `BigInteger.shiftRight(n)`: floor(x / 2^n), so a negative n shifts left; the sign is kept. */
  function ShiftRight(x: int, n: int): (r: int)
    ensures r < 0 <==> x < 0
  {
    ShiftLeft(x, -n)
  }

  /** Greatest common divisor of two naturals, by Euclid's algorithm; zero only when both are. */
  function EuclidGcd(a: nat, b: nat): (g: nat)
    ensures g == 0 <==> a == 0 && b == 0
    decreases b
  {
    if b == 0 then a else EuclidGcd(b, a % b)
  }

  /** Two's-complement bit `k` of `x` (x >> k & 1 == 1); negative numbers have infinitely many leading ones. */
  function Bit(x: int, k: nat): bool
    decreases k
  {
    if k == 0 then x % 2 == 1 else Bit(x / 2, k - 1)
  }

  datatype BitOp = And | Or | Xor

  function ApplyBit(op: BitOp, p: bool, q: bool): bool
  {
    match op
    case And => p && q
    case Or => p || q
    case Xor => p != q
  }

  /** `BigInteger.and`, `or`, `xor`: the operation applied to every two's-complement bit. */
  function Bitwise(op: BitOp, a: int, b: int): int
    decreases Abs(a) + Abs(b)
  {
    if (a == 0 || a == -1) && (b == 0 || b == -1) then
      (if ApplyBit(op, a == -1, b == -1) then -1 else 0)
    else
      assert Abs(a / 2) + Abs(b / 2) < Abs(a) + Abs(b) by { HalfShrinks(a); HalfShrinks(b); }
      2 * Bitwise(op, a / 2, b / 2) + (if ApplyBit(op, a % 2 == 1, b % 2 == 1) then 1 else 0)
  }

  lemma HalfShrinks(x: int)
    ensures Abs(x / 2) <= Abs(x)
    ensures x != 0 && x != -1 ==> Abs(x / 2) < Abs(x)
  {
  }

  /** A remainder is below the divisor and never above the dividend. */
  lemma RemainderAtMost(A: nat, B: nat)
    requires B > 0
    ensures A % B < B && A % B <= A
  {
    NaturalDivision(A, B);
    if A / B > 0 {
      MulAtLeast(B, A / B);
    }
  }

  lemma MulAtLeast(d: int, k: int)
    requires d > 0 && k >= 1
    ensures d * k >= d
  {
    assert d * k == d * (k - 1) + d;
    assert d * (k - 1) >= 0;
  }

  /** Euclidean division is determined by its defining equation. */
  lemma DivModUnique(x: int, d: int, q: int, r: int)
    requires d > 0 && 0 <= r < d && x == d * q + r
    ensures x / d == q && x % d == r
  {
    var q', r' := x / d, x % d;
    assert x == d * q' + r';
    assert d * q' - d * q == r - r';
    assert d * q' - d * q == d * (q' - q);
    if q' > q {
      MulAtLeast(d, q' - q);
    } else if q' < q {
      assert d * (q - q') == -(d * (q' - q));
      MulAtLeast(d, q - q');
    }
  }

  /** Sign rules for products. */
  lemma MulSigns(x: int, y: int)
    ensures (-x) * y == -(x * y) && x * (-y) == -(x * y) && (-x) * (-y) == x * y
  {
  }

  /** Division of naturals: the quotient times the divisor never exceeds the dividend. */
  lemma NaturalDivision(A: nat, B: nat)
    requires B > 0
    ensures A / B >= 0 && 0 <= A % B < B
    ensures (A / B) * B >= 0 && A == (A / B) * B + A % B
  {
  }

  /** Truncating division and remainder fit together: a = q*b + r, |r| < |b|, r has the dividend's sign, |q*b| <= |a|. */
  lemma TruncatedDivision(a: int, b: int)
    requires b != 0
    ensures a == TDiv(a, b) * b + TRem(a, b)
    ensures Abs(TRem(a, b)) < Abs(b)
    ensures TRem(a, b) == 0 || (TRem(a, b) < 0 <==> a < 0)
    ensures Abs(TDiv(a, b) * b) <= Abs(a)
  {
    var A: int, B: int := Abs(a), Abs(b);
    NaturalDivision(A, B);
    var q: int, m: int := A / B, A % B;
    MulSigns(q, B);
    if a >= 0 && b > 0 {
      assert TDiv(a, b) == q && TRem(a, b) == m && b == B;
    } else if a >= 0 {
      assert TDiv(a, b) == -q && TRem(a, b) == m && b == -B;
    } else if b > 0 {
      assert TDiv(a, b) == -q && TRem(a, b) == -m && b == B;
    } else {
      assert TDiv(a, b) == q && TRem(a, b) == -m && b == -B;
    }
  }

  /** A multiple of `d` stays one when another multiple of `d`, scaled, is added. */
  lemma MultipleCombination(x: int, y: int, c: int, d: int)
    requires d > 0 && x % d == 0 && y % d == 0
    ensures (x + c * y) % d == 0
  {
    var i, j := x / d, y / d;
    assert x == d * i && y == d * j;
    assert x + c * y == d * (i + c * j);
    DivModUnique(x + c * y, d, i + c * j, 0);
  }

  /** Euclid's algorithm yields a common divisor of both arguments, 0 only for gcd(0, 0). */
  lemma {:induction false} GcdDivides(a: nat, b: nat)
    ensures EuclidGcd(a, b) == 0 <==> a == 0 && b == 0
    ensures EuclidGcd(a, b) > 0 ==> a % EuclidGcd(a, b) == 0 && b % EuclidGcd(a, b) == 0
    decreases b
  {
    if b > 0 {
      var g := EuclidGcd(b, a % b);
      GcdDivides(b, a % b);
      assert a == (a % b) + (a / b) * b;
      MultipleCombination(a % b, b, a / b, g);
    } else if a > 0 {
      DivModUnique(a, a, 1, 0);
    }
  }

  /** Every common divisor of the arguments divides what Euclid's algorithm yields. */
  lemma {:induction false} GcdGreatest(a: nat, b: nat, d: int)
    requires d > 0 && a % d == 0 && b % d == 0
    ensures EuclidGcd(a, b) % d == 0
    decreases b
  {
    if b > 0 {
      assert a % b == a + (-(a / b)) * b;
      MultipleCombination(a, b, -(a / b), d);
      GcdGreatest(b, a % b, d);
    }
  }

  lemma {:induction false} BitOfSign(x: int, k: nat)
    requires x == 0 || x == -1
    ensures Bit(x, k) == (x == -1)
    decreases k
  {
    if k > 0 {
      BitOfSign(x / 2, k - 1);
    }
  }

  /** Bit `k` of `and`/`or`/`xor` is the operation applied to bit `k` of each operand. */
  lemma {:induction false} BitwiseBits(op: BitOp, a: int, b: int, k: nat)
    ensures Bit(Bitwise(op, a, b), k) == ApplyBit(op, Bit(a, k), Bit(b, k))
    decreases Abs(a) + Abs(b)
  {
    if (a == 0 || a == -1) && (b == 0 || b == -1) {
      var r := Bitwise(op, a, b);
      BitOfSign(r, k);
      BitOfSign(a, k);
      BitOfSign(b, k);
    } else {
      HalfShrinks(a);
      HalfShrinks(b);
      var rest := Bitwise(op, a / 2, b / 2);
      var low := if ApplyBit(op, a % 2 == 1, b % 2 == 1) then 1 else 0;
      var r := 2 * rest + low;
      assert Bitwise(op, a, b) == r;
      assert r / 2 == rest && r % 2 == low;
      if k > 0 {
        BitwiseBits(op, a / 2, b / 2, k - 1);
      }
    }
  }

  /** The result of `and`/`or`/`xor` is negative exactly when the operation on the two sign bits gives one. */
  lemma {:induction false} BitwiseSign(op: BitOp, a: int, b: int)
    ensures Bitwise(op, a, b) < 0 <==> ApplyBit(op, a < 0, b < 0)
    decreases Abs(a) + Abs(b)
  {
    if !((a == 0 || a == -1) && (b == 0 || b == -1)) {
      HalfShrinks(a);
      HalfShrinks(b);
      BitwiseSign(op, a / 2, b / 2);
    }
  }

  /** `bnot` (-x-1) flips every two's-complement bit. */
  lemma {:induction false} NotBits(x: int, k: nat)
    ensures Bit(-x - 1, k) == !Bit(x, k)
    decreases k
  {
    assert (-x - 1) / 2 == -(x / 2) - 1 && (-x - 1) % 2 == 1 - x % 2;
    if k > 0 {
      NotBits(x / 2, k - 1);
    }
  }

  /** Shifting left by `n` and back right by `n` restores the number. */
  lemma ShiftRoundTrip(x: int, n: nat)
    ensures ShiftRight(ShiftLeft(x, n), n) == x
  {
    var p := Power(2, n);
    assert ShiftLeft(x, n) == x * p;
    assert ShiftRight(x * p, n) == (x * p) / p;
    DivModUnique(x * p, p, x, 0);
  }

  /** The remainder and the quotient of a supported dividend are supported: mod, div and idiv never leave the range. */
  lemma DivisionStaysInRange(x: int, y: int)
    requires y != 0 && InRange(x)
    ensures InRange(TRem(x, y)) && InRange(TDiv(x, y))
  {
    BitLengthMonotone(Abs(TRem(x, y)), Abs(x));
    var q := TDiv(x, y);
    if q != 0 {
      MulAtLeast(Abs(q), Abs(y));
      assert Abs(q) * Abs(y) == Abs(y) * Abs(q);
    }
    BitLengthMonotone(Abs(q), Abs(x));
  }

  /** 1 shifted left by Integer.MAX_VALUE is 2^Integer.MAX_VALUE, just outside the range. */
  lemma ShiftOneOutOfRange(k: nat)
    requires k == IntMax
    ensures !InRange(ShiftLeft(1, k))
  {
    BitLengthBound(Power(2, k), k);
    assert ShiftLeft(1, k) == Power(2, k);
  }

  /** So `shl(1, 2147483647)` gives NaN. */
  lemma ShiftPastRange(k: Int32, third: LuaValue)
    requires k == IntMax
    ensures Call(11, Big(1), Integer(k), third) == Return(NaN)
  {
    ShiftOneOutOfRange(k);
    ShlCase(Big(1), Integer(k), third, 1, k);
  }

  // ---------------------------------------------------------------------
  // The early size test of BigInteger.pow

  /** BigInteger's MAX_MAG_LENGTH: the most 32-bit words a magnitude may have. */
  const MaxMagLength: int := 0x400_0000

  /** `bitLength()` of a signed BigInteger: the two's-complement length without the sign bit. */
  function SignedBitLength(x: int): nat
  {
    if x < 0 then BitLength(-x - 1) else BitLength(x)
  }

  /** `getLowestSetBit()` of a positive magnitude: how many times 2 divides it. */
  function LowestSetBit(m: nat): nat
    requires m > 0
  {
    if m % 2 == 0 then 1 + LowestSetBit(m / 2) else 0
  }

  /** A positive magnitude with its factors of two removed, which `pow` goes on to square. */
  function OddPart(m: nat): nat
    requires m > 0
  {
    if m % 2 == 0 then OddPart(m / 2) else m
  }

  /**
   * The tests `BigInteger.pow(k)` makes before computing anything, for a
   * non-zero base. It raises ArithmeticException when the shift for the
   * factors of two would exceed Integer.MAX_VALUE bits, or when the base is
   * not plus or minus a power of two, its odd part does not fit the long
   * fast path (one word and at most 62 bits of result), and
   * bitLength() * k / 32 exceeds MaxMagLength. The last test overestimates,
   * so it also rejects some powers within the range.
   */
  predicate PowOverflowsEarly(x: int, k: nat)
  {
    x != 0 &&
    (LowestSetBit(Abs(x)) * k > IntMax ||
     (OddPart(Abs(x)) != 1 &&
      !(OddPart(Abs(x)) < 0x1_0000_0000 && BitLength(OddPart(Abs(x))) * k <= 62) &&
      SignedBitLength(x) * k / 32 > MaxMagLength))
  }

  /** 2^n has n + 1 bits. */
  lemma {:induction false} BitLengthOfPower(n: nat)
    ensures BitLength(Power(2, n)) == n + 1
  {
    if n > 0 {
      BitLengthOfPower(n - 1);
      assert Power(2, n) / 2 == Power(2, n - 1);
    }
  }

  /** A positive magnitude is at least 2 to the power of its lowest set bit. */
  lemma {:induction false} LowestSetBitBound(m: nat)
    requires m > 0
    ensures m >= Power(2, LowestSetBit(m))
  {
    if m % 2 == 0 {
      LowestSetBitBound(m / 2);
    }
  }

  /** A magnitude that is not a power of two is at least 3. */
  lemma OddPartOfSmall(m: nat)
    requires 0 < m < 3
    ensures OddPart(m) == 1
  {
    if m == 2 {
      assert OddPart(2) == OddPart(1);
    }
  }

  /** The magnitude of a power is the power of the magnitude. */
  lemma {:induction false} PowerAbs(x: int, k: nat)
    ensures Abs(Power(x, k)) == Power(Abs(x), k)
  {
    if k > 0 {
      PowerAbs(x, k - 1);
      AbsMul(x, Power(x, k - 1));
    }
  }

  /** The magnitude of a product is the product of the magnitudes. */
  lemma AbsMul(x: int, y: int)
    ensures Abs(x * y) == Abs(x) * Abs(y)
  {
    if x < 0 && y < 0 {
      assert x * y == (-x) * (-y);
    } else if x < 0 {
      ProductSign(x, y);
      assert -(x * y) == (-x) * y;
    } else if y < 0 {
      ProductSign(x, y);
      assert -(x * y) == x * (-y);
    } else {
      ProductSign(x, y);
    }
  }

  /** Raising to a power keeps the order of non-negative bases. */
  lemma {:induction false} PowerMonotone(a: nat, c: nat, k: nat)
    requires a <= c
    ensures 0 <= Power(a, k) <= Power(c, k)
  {
    if k > 0 {
      PowerMonotone(a, c, k - 1);
      MulBothAtMost(a, Power(a, k - 1), c, Power(c, k - 1));
    }
  }

  /** Products of non-negative numbers keep the order of their factors. */
  lemma MulBothAtMost(a: nat, b: nat, c: nat, d: nat)
    requires a <= c && b <= d
    ensures 0 <= a * b <= c * d
  {
    assert (c - a) * b >= 0;
    assert c * (d - b) >= 0;
    assert c * d - a * b == (c - a) * b + c * (d - b);
  }

  /** (2^e)^k is 2^(e * k). */
  lemma {:induction false} PowerOfPower(e: nat, k: nat)
    ensures Power(Power(2, e), k) == Power(2, e * k)
  {
    if k > 0 {
      PowerOfPower(e, k - 1);
      assert e * k == e * (k - 1) + e;
      PowerAdd(e * (k - 1), e);
    }
  }

  /** 2^(a + b) is 2^a * 2^b. */
  lemma {:induction false} PowerAdd(a: nat, b: nat)
    ensures Power(2, a + b) == Power(2, a) * Power(2, b)
  {
    if b > 0 {
      PowerAdd(a, b - 1);
      var pa, q := Power(2, a), Power(2, b - 1);
      assert Power(2, a + b) == 2 * (pa * q);
      assert 2 * (pa * q) == pa * (2 * q);
    }
  }

  /** A magnitude of at least 2^e has more than e bits. */
  lemma AtLeastPowerBits(m: nat, e: nat)
    requires m >= Power(2, e)
    ensures BitLength(m) > e
  {
    BitLengthBound(m, e);
  }

  /** The exponent bound behind the early test's first check: the factors of two alone exceed the range. */
  lemma EarlyShiftExponent(x: int, k: nat, n: nat) returns (e: nat)
    requires n == 0x4000_0000 && x != 0
    requires LowestSetBit(Abs(x)) * k > IntMax
    ensures Abs(x) >= Power(2, e) && e * k > n
  {
    e := LowestSetBit(Abs(x));
    LowestSetBitBound(Abs(x));
  }

  /** The exponent bound behind the early test's size estimate: the base has at least 2 bits, so halving the estimate is safe. */
  lemma EarlyEstimateExponent(x: int, k: nat, n: nat) returns (e: nat)
    requires n == 0x4000_0000 && x != 0
    requires OddPart(Abs(x)) != 1 && SignedBitLength(x) * k / 32 > MaxMagLength
    ensures Abs(x) >= Power(2, e) && e * k > n
  {
    var m := Abs(x);
    if m < 3 {
      OddPartOfSmall(m);
    }
    var m' := if x < 0 then m - 1 else m;
    var b := BitLength(m');
    BitLengthMonotone(2, m');
    assert BitLength(2) == 2;
    BitLengthBound(m', b - 1);
    e := b - 1;
    var t := b * k;
    assert t > 0x8000_0000;
    assert t >= 2 * k by {
      assert b * k >= 2 * k;
    }
    assert e * k == t - k;
  }

  /**
   * The early test only rejects enormous powers: whatever it rejects has
   * more than 2^30 bits, so every power of at most 2^30 bits gets past it.
   */
  lemma PowEarlyRejectsOnlyHuge(x: int, k: nat, n: nat)
    requires n == 0x4000_0000
    requires PowOverflowsEarly(x, k)
    ensures BitLength(Abs(Power(x, k))) > n
  {
    var m := Abs(x);
    PowerAbs(x, k);
    var e: nat;
    if LowestSetBit(m) * k > IntMax {
      e := EarlyShiftExponent(x, k, n);
    } else {
      e := EarlyEstimateExponent(x, k, n);
    }
    PowerMonotone(Power(2, e), m, k);
    PowerOfPower(e, k);
    AtLeastPowerBits(Power(m, k), e * k);
  }

  // ---------------------------------------------------------------------
  // The switch in BigIntegerFunction.call

  /** The operation each case of the switch implements, in case order. */
  datatype Op =
    | Unm | Add | Sub | Mul | Mod | Pow | Div | IDiv | BAnd | BOr | BXor | Shl | Shr | BNot
    | Eq | Lt | Le | ToString | ToNumber
    | New | ModInv | Gcd | ModPow | AbsOp | Min | Max | IsProbPrime | NextProbPrime | NewProbPrime

  /** How a case reads its arguments before computing. */
  datatype Arguments =
    | OneNumber      // getValue(left)
    | TwoNumbers     // getValue(left), getValue(right)
    | NumberAndInt   // getValue(left), right.checkint()
    | ThreeNumbers   // getValue of all three
    | TwoInts        // left.checkint(), right.checkint()
    | Conversion     // `new`: its own coercion of left

  function ArgumentsOf(op: Op): Arguments
  {
    match op
    case Unm | BNot | AbsOp | ToString | ToNumber | IsProbPrime | NextProbPrime => OneNumber
    case Pow | Shl | Shr => NumberAndInt
    case ModPow => ThreeNumbers
    case NewProbPrime => TwoInts
    case New => Conversion
    case _ => TwoNumbers
  }

  /** The case labels of the switch: opcode to operation; other opcodes reach `default`. */
  function CaseOp(opcode: int): (r: Option<Op>)
    ensures r.Some? <==> 0 <= opcode <= 28
  {
    match opcode
    case 0 => Some(Unm)
    case 1 => Some(Add)
    case 2 => Some(Sub)
    case 3 => Some(Mul)
    case 4 => Some(Mod)
    case 5 => Some(Pow)
    case 6 => Some(Div)
    case 7 => Some(IDiv)
    case 8 => Some(BAnd)
    case 9 => Some(BOr)
    case 10 => Some(BXor)
    case 11 => Some(Shl)
    case 12 => Some(Shr)
    case 13 => Some(BNot)
    case 14 => Some(Eq)
    case 15 => Some(Lt)
    case 16 => Some(Le)
    case 17 => Some(ToString)
    case 18 => Some(ToNumber)
    case 19 => Some(New)
    case 20 => Some(ModInv)
    case 21 => Some(Gcd)
    case 22 => Some(ModPow)
    case 23 => Some(AbsOp)
    case 24 => Some(Min)
    case 25 => Some(Max)
    case 26 => Some(IsProbPrime)
    case 27 => Some(NextProbPrime)
    case 28 => Some(NewProbPrime)
    case _ => None
  }

  /** The Lua-side name of each operation, as the comment on its case gives it. */
  function OpName(op: Op): string
  {
    match op
    case Unm => "unm"
    case Add => "add"
    case Sub => "sub"
    case Mul => "mul"
    case Mod => "mod"
    case Pow => "pow"
    case Div => "div"
    case IDiv => "idiv"
    case BAnd => "band"
    case BOr => "bor"
    case BXor => "bxor"
    case Shl => "shl"
    case Shr => "shr"
    case BNot => "bnot"
    case Eq => "eq"
    case Lt => "lt"
    case Le => "le"
    case ToString => "tostring"
    case ToNumber => "tonumber"
    case New => "new"
    case ModInv => "modinv"
    case Gcd => "gcd"
    case ModPow => "modpow"
    case AbsOp => "abs"
    case Min => "min"
    case Max => "max"
    case IsProbPrime => "isProbPrime"
    case NextProbPrime => "nextProbPrime"
    case NewProbPrime => "newProbPrime"
  }

  /** The inverse of CaseOp on the operations: the opcode of each case. */
  function OpIndex(op: Op): (i: int)
    ensures CaseOp(i) == Some(op)
  {
    match op
    case Unm => 0
    case Add => 1
    case Sub => 2
    case Mul => 3
    case Mod => 4
    case Pow => 5
    case Div => 6
    case IDiv => 7
    case BAnd => 8
    case BOr => 9
    case BXor => 10
    case Shl => 11
    case Shr => 12
    case BNot => 13
    case Eq => 14
    case Lt => 15
    case Le => 16
    case ToString => 17
    case ToNumber => 18
    case New => 19
    case ModInv => 20
    case Gcd => 21
    case ModPow => 22
    case AbsOp => 23
    case Min => 24
    case Max => 25
    case IsProbPrime => 26
    case NextProbPrime => 27
    case NewProbPrime => 28
  }

  /** The operation a name stands for: reads OpName backwards. */
  function OpByName(name: string): Option<Op>
  {
    if |name| == 2 then
      if name == "eq" then Some(Eq)
      else if name == "lt" then Some(Lt)
      else if name == "le" then Some(Le)
      else None
    else if |name| == 3 then
      if name == "unm" then Some(Unm)
      else if name == "add" then Some(Add)
      else if name == "sub" then Some(Sub)
      else if name == "mul" then Some(Mul)
      else if name == "mod" then Some(Mod)
      else if name == "pow" then Some(Pow)
      else if name == "div" then Some(Div)
      else if name == "bor" then Some(BOr)
      else if name == "shl" then Some(Shl)
      else if name == "shr" then Some(Shr)
      else if name == "new" then Some(New)
      else if name == "gcd" then Some(Gcd)
      else if name == "abs" then Some(AbsOp)
      else if name == "min" then Some(Min)
      else if name == "max" then Some(Max)
      else None
    else if |name| == 4 then
      if name == "idiv" then Some(IDiv)
      else if name == "band" then Some(BAnd)
      else if name == "bxor" then Some(BXor)
      else if name == "bnot" then Some(BNot)
      else None
    else if |name| == 6 then
      if name == "modinv" then Some(ModInv)
      else if name == "modpow" then Some(ModPow)
      else None
    else if |name| == 8 then
      if name == "tostring" then Some(ToString)
      else if name == "tonumber" then Some(ToNumber)
      else None
    else if |name| == 11 then
      if name == "isProbPrime" then Some(IsProbPrime)
      else None
    else if |name| == 12 then
      if name == "newProbPrime" then Some(NewProbPrime)
      else None
    else if |name| == 13 then
      if name == "nextProbPrime" then Some(NextProbPrime)
      else None
    else None
  }

  /** Different operations have different names. */
  lemma OpNamesDistinct(op: Op)
    ensures OpByName(OpName(op)) == Some(op)
  {
  }

  /** The names published in both the table and the metatable; index i is opcode i. */
  const MetaNames: seq<string> := [
    "unm", "add", "sub", "mul", "mod", "pow", "div", "idiv",
    "band", "bor", "bxor", "shl", "shr", "bnot",
    "eq", "lt", "le",
    "tostring", "tonumber"
  ]

  /** The names published in the table only; index i is opcode i + |MetaNames|. */
  const MainNames: seq<string> := [
    "new", "modinv", "gcd", "modpow", "abs", "min", "max",
    "isProbPrime", "nextProbPrime", "newProbPrime"
  ]

  const CreateIndex: int := 19

  /** The function published under `name` with `opcode` runs the switch case for that name. */
  predicate Implements(name: string, opcode: int)
  {
    CaseOp(opcode).Some? && OpName(CaseOp(opcode).value) == name
  }

  /** Meta names 0 to 9 are the names of switch cases 0 to 9. */
  lemma MetaNameImplementsLow(i: int)
    requires 0 <= i < 10
    ensures Implements(MetaNames[i], i)
  {
    match i
    case 0 => assert MetaNames[0] == "unm" && CaseOp(0) == Some(Unm);
    case 1 => assert MetaNames[1] == "add" && CaseOp(1) == Some(Add);
    case 2 => assert MetaNames[2] == "sub" && CaseOp(2) == Some(Sub);
    case 3 => assert MetaNames[3] == "mul" && CaseOp(3) == Some(Mul);
    case 4 => assert MetaNames[4] == "mod" && CaseOp(4) == Some(Mod);
    case 5 => assert MetaNames[5] == "pow" && CaseOp(5) == Some(Pow);
    case 6 => assert MetaNames[6] == "div" && CaseOp(6) == Some(Div);
    case 7 => assert MetaNames[7] == "idiv" && CaseOp(7) == Some(IDiv);
    case 8 => assert MetaNames[8] == "band" && CaseOp(8) == Some(BAnd);
    case 9 => assert MetaNames[9] == "bor" && CaseOp(9) == Some(BOr);
  }

  /** Meta names 10 to 18 are the names of switch cases 10 to 18. */
  lemma MetaNameImplementsHigh(i: int)
    requires 10 <= i < |MetaNames|
    ensures Implements(MetaNames[i], i)
  {
    match i
    case 10 => assert MetaNames[10] == "bxor" && CaseOp(10) == Some(BXor);
    case 11 => assert MetaNames[11] == "shl" && CaseOp(11) == Some(Shl);
    case 12 => assert MetaNames[12] == "shr" && CaseOp(12) == Some(Shr);
    case 13 => assert MetaNames[13] == "bnot" && CaseOp(13) == Some(BNot);
    case 14 => assert MetaNames[14] == "eq" && CaseOp(14) == Some(Eq);
    case 15 => assert MetaNames[15] == "lt" && CaseOp(15) == Some(Lt);
    case 16 => assert MetaNames[16] == "le" && CaseOp(16) == Some(Le);
    case 17 => assert MetaNames[17] == "tostring" && CaseOp(17) == Some(ToString);
    case 18 => assert MetaNames[18] == "tonumber" && CaseOp(18) == Some(ToNumber);
  }

  /** Meta name i is the name of switch case i. */
  lemma MetaNameImplements(i: int)
    requires 0 <= i < |MetaNames|
    ensures Implements(MetaNames[i], i)
  {
    if i < 10 {
      MetaNameImplementsLow(i);
    } else {
      MetaNameImplementsHigh(i);
    }
  }

  /** Main names 0 to 4 are the names of switch cases 19 to 23. */
  lemma MainNameImplementsLow(j: int)
    requires 0 <= j < 5
    ensures Implements(MainNames[j], j + |MetaNames|)
  {
    match j
    case 0 => assert MainNames[0] == "new" && CaseOp(19) == Some(New);
    case 1 => assert MainNames[1] == "modinv" && CaseOp(20) == Some(ModInv);
    case 2 => assert MainNames[2] == "gcd" && CaseOp(21) == Some(Gcd);
    case 3 => assert MainNames[3] == "modpow" && CaseOp(22) == Some(ModPow);
    case 4 => assert MainNames[4] == "abs" && CaseOp(23) == Some(AbsOp);
  }

  /** Main names 5 to 9 are the names of switch cases 24 to 28. */
  lemma MainNameImplementsHigh(j: int)
    requires 5 <= j < |MainNames|
    ensures Implements(MainNames[j], j + |MetaNames|)
  {
    match j
    case 5 => assert MainNames[5] == "min" && CaseOp(24) == Some(Min);
    case 6 => assert MainNames[6] == "max" && CaseOp(25) == Some(Max);
    case 7 => assert MainNames[7] == "isProbPrime" && CaseOp(26) == Some(IsProbPrime);
    case 8 => assert MainNames[8] == "nextProbPrime" && CaseOp(27) == Some(NextProbPrime);
    case 9 => assert MainNames[9] == "newProbPrime" && CaseOp(28) == Some(NewProbPrime);
  }

  /** Main name j is the name of switch case j + 19. */
  lemma MainNameImplements(j: int)
    requires 0 <= j < |MainNames|
    ensures Implements(MainNames[j], j + |MetaNames|)
  {
    if j < 5 {
      MainNameImplementsLow(j);
    } else {
      MainNameImplementsHigh(j);
    }
  }

  /**
   * The name tables agree with the switch: meta name i runs case i, main
   * name j runs case j + 19, "new" is CREATE_INDEX (the number of meta
   * names), and no published name reaches `default`.
   */
  lemma NameTablesAgreeWithSwitch()
    ensures |MetaNames| == CreateIndex && |MainNames| == 10
    ensures forall i :: 0 <= i < |MetaNames| ==> Implements(MetaNames[i], i)
    ensures forall j :: 0 <= j < |MainNames| ==> Implements(MainNames[j], j + |MetaNames|)
    ensures MainNames[0] == "new" && Implements("new", CreateIndex)
  {
    forall i | 0 <= i < |MetaNames|
      ensures Implements(MetaNames[i], i)
    {
      MetaNameImplements(i);
    }
    forall j | 0 <= j < |MainNames|
      ensures Implements(MainNames[j], j + |MetaNames|)
    {
      MainNameImplements(j);
    }
    MainNameImplements(0);
  }

  /** A name pins down the opcode that implements it. */
  lemma ImplementsUnique(name: string, a: int, b: int)
    requires Implements(name, a) && Implements(name, b)
    ensures a == b
  {
    OpNamesDistinct(CaseOp(a).value);
    OpNamesDistinct(CaseOp(b).value);
    assert CaseOp(a) == CaseOp(b);
    assert OpIndex(CaseOp(a).value) == a by { CaseOpIndex(a); }
    assert OpIndex(CaseOp(b).value) == b by { CaseOpIndex(b); }
  }

  lemma CaseOpIndex(i: int)
    requires CaseOp(i).Some?
    ensures OpIndex(CaseOp(i).value) == i
  {
  }

  /** What `call` does: return a value, raise, or (for the operations outside this model) an unmodelled result. */
  datatype Outcome = Return(value: LuaValue) | Throw(exception: Thrown) | Unmodelled(opcode: int)

  /**
   * An operation of one coerced argument. unm and abs of a supported number
   * are supported; bnot of the largest one is not, and raises.
   */
  function Unary(op: Op, x: int): Outcome
    requires ArgumentsOf(op) == OneNumber
  {
    match op
    case Unm => Checked(-x)
    case BNot => Checked(-x - 1)
    case AbsOp => Checked(Abs(x))
    case ToString => Return(Str(IntToDecimal(x)))
    case ToNumber => Unmodelled(18)
    case IsProbPrime => Unmodelled(26)
    case NextProbPrime => Unmodelled(27)
  }

  /** What a one-number operation can give: never NaN, only numbers within the range, and ArithmeticException only from unm, bnot and abs (never from unm or abs of a supported number). */
  lemma UnaryOutcome(op: Op, x: int)
    requires ArgumentsOf(op) == OneNumber
    ensures Unary(op, x) != Return(NaN)
    ensures Unary(op, x).Return? && Unary(op, x).value.Big? ==> InRange(Unary(op, x).value.n)
    ensures Unary(op, x) == Throw(ArithmeticException) ==> op == Unm || op == BNot || op == AbsOp
    ensures InRange(x) && op != BNot ==> Unary(op, x) != Throw(ArithmeticException)
  {
  }

  /**
   * An operation of two coerced arguments; `y` came from `checkint` for
   * pow, shl and shr. A number it returns is a new value within BigInteger's
   * range, or one of the operands (min and max); a zero divisor and a
   * negative exponent raise ArithmeticException, and so do a power that
   * `pow`'s early size test rejects and a result outside the range.
   */
  function Binary(op: Op, x: int, y: int): Outcome
    requires ArgumentsOf(op) == TwoNumbers || ArgumentsOf(op) == NumberAndInt
  {
    match op
    case Add => Checked(x + y)
    case Sub => Checked(x - y)
    case Mul => Checked(x * y)
    case Mod => if y == 0 then Throw(ArithmeticException) else Checked(TRem(x, y))
    case Pow =>
      if y < 0 || PowOverflowsEarly(x, y) then Throw(ArithmeticException)
      else Checked(Power(x, y))
    case Div => if y == 0 then Throw(ArithmeticException) else Checked(TDiv(x, y))
    case IDiv => if y == 0 then Throw(ArithmeticException) else Checked(TDiv(x, y))
    case BAnd => Checked(Bitwise(And, x, y))
    case BOr => Checked(Bitwise(Or, x, y))
    case BXor => Checked(Bitwise(Xor, x, y))
    case Shl => Checked(ShiftLeft(x, y))
    case Shr => Checked(ShiftRight(x, y))
    case Eq => Return(Boolean(x == y))
    case Lt => Return(Boolean(x < y))
    case Le => Return(Boolean(x <= y))
    case ModInv => Unmodelled(20)
    case Gcd => Checked(EuclidGcd(Abs(x), Abs(y)))
    case Min => Return(Big(if x <= y then x else y))
    case Max => Return(Big(if x >= y then x else y))
  }

  /** What a two-argument operation can give: never NaN, a number within the range or one of the operands, ArithmeticException for a zero divisor or negative exponent, and always a value from the comparisons, min and max. */
  lemma BinaryOutcome(op: Op, x: int, y: int)
    requires ArgumentsOf(op) == TwoNumbers || ArgumentsOf(op) == NumberAndInt
    ensures Binary(op, x, y) != Return(NaN)
    ensures Binary(op, x, y).Return? && Binary(op, x, y).value.Big? ==> InRange(Binary(op, x, y).value.n) || Binary(op, x, y).value.n == x || Binary(op, x, y).value.n == y
    ensures ((op == Mod || op == Div || op == IDiv) && y == 0) || (op == Pow && y < 0) ==> Binary(op, x, y) == Throw(ArithmeticException)
    ensures op == Eq || op == Lt || op == Le || op == Min || op == Max ==> Binary(op, x, y).Return?
  {
  }

  /**
   * Case 19, `new`: a BigIntegerValue is returned itself; a string is
   * parsed without getValue's error wrapping; anything else goes through
   * `checklong`. Only text outside BigInteger's range raises
   * ArithmeticException.
   */
  function Create(left: LuaValue): Outcome
  {
    match left
    case Big(_) => Return(left)
    case Str(s) =>
      (match ParseDecimal(s)
       case Some(n) => Checked(n)
       case None => Throw(NumberFormatException(s)))
    case _ =>
      (match CheckLongOther(left)
       case Ok(n) => Return(Big(n))
       case Err(e) => Throw(e))
  }

  /** What case 19 (`new`) can give: a BigIntegerValue, never NaN, and ArithmeticException exactly for well-formed text outside the range. */
  lemma CreateOutcome(left: LuaValue)
    ensures Create(left) != Return(NaN)
    ensures Create(left).Return? ==> Create(left).value.Big?
    ensures Create(left) == Throw(ArithmeticException) <==> left.Str? && WellFormedDecimal(left.s) && !InRange(ParseDecimal(left.s).value)
  {
  }

  /** The body of the `try` in `call`: the switch, before ArithmeticException is caught. */
  function Switch(opcode: int, left: LuaValue, right: LuaValue, third: LuaValue): (r: Outcome)
    ensures r != Return(NaN)
  {
    match CaseOp(opcode)
    case None => Throw(LuaError(NoSuchMethod(opcode)))
    case Some(op) =>
      match ArgumentsOf(op)
      case Conversion => Create(left)
      case OneNumber =>
        (match GetValue(left)
         case Err(e) => Throw(e)
         case Ok(x) => Unary(op, x))
      case NumberAndInt =>
        (match GetValue(left)
         case Err(e) => Throw(e)
         case Ok(x) =>
           match CheckInt(right)
           case Err(e) => Throw(e)
           case Ok(k) => Binary(op, x, k))
      case ThreeNumbers =>
        (match GetValue(left)
         case Err(e) => Throw(e)
         case Ok(_) =>
           match GetValue(right)
           case Err(e) => Throw(e)
           case Ok(_) =>
             match GetValue(third)
             case Err(e) => Throw(e)
             case Ok(_) => Unmodelled(opcode))
      case TwoInts =>
        (match CheckInt(left)
         case Err(e) => Throw(e)
         case Ok(_) =>
           match CheckInt(right)
           case Err(e) => Throw(e)
           case Ok(_) => Unmodelled(opcode))
      case TwoNumbers =>
        (match GetValue(left)
         case Err(e) => Throw(e)
         case Ok(x) =>
           match GetValue(right)
           case Err(e) => Throw(e)
           case Ok(y) => Binary(op, x, y))
  }

  /** `BigIntegerFunction.call`: the switch, with every ArithmeticException turned into NaN. */
  function Call(opcode: int, left: LuaValue, right: LuaValue, third: LuaValue): (r: Outcome)
    ensures r != Throw(ArithmeticException)
    ensures r == Return(NaN) <==> Switch(opcode, left, right, third) == Throw(ArithmeticException)
    ensures r != Return(NaN) ==> r == Switch(opcode, left, right, third)
  {
    Caught(Switch(opcode, left, right, third))
  }

  /** The `catch (ArithmeticException e)` around the switch: that exception becomes NaN, any other outcome passes through. */
  function Caught(o: Outcome): (r: Outcome)
    ensures r != Throw(ArithmeticException)
    ensures o == Throw(ArithmeticException) ==> r == Return(NaN)
    ensures o != Throw(ArithmeticException) ==> r == o
  {
    if o == Throw(ArithmeticException) then Return(NaN) else o
  }

  /** `equals`: another BigIntegerValue, whose own number is this one. */
  predicate Equals(number: int, other: LuaValue): (r: bool)
    ensures r <==> other.Big? && GetValue(other) == Ok(number)
  {
    other.Big? && other.n == number
  }

  // ---------------------------------------------------------------------
  // What each published operation computes

  /** A case reading two numbers computes `Binary` on them, a thrown ArithmeticException becoming NaN. */
  lemma CallTwoNumbers(opcode: int, op: Op, left: LuaValue, right: LuaValue, third: LuaValue, x: int, y: int)
    requires CaseOp(opcode) == Some(op) && ArgumentsOf(op) == TwoNumbers
    requires GetValue(left) == Ok(x) && GetValue(right) == Ok(y)
    ensures Call(opcode, left, right, third) == Caught(Binary(op, x, y))
  {
  }

  /** A case reading a number and an int computes `Binary` on them, a thrown ArithmeticException becoming NaN. */
  lemma CallNumberAndInt(opcode: int, op: Op, left: LuaValue, right: LuaValue, third: LuaValue, x: int, k: Int32)
    requires CaseOp(opcode) == Some(op) && ArgumentsOf(op) == NumberAndInt
    requires GetValue(left) == Ok(x) && CheckInt(right) == Ok(k)
    ensures Call(opcode, left, right, third) == Caught(Binary(op, x, k))
  {
  }

  /** A case reading two numbers whose operation builds a new BigInteger gives it, or NaN outside the range. */
  lemma CallTwoChecked(opcode: int, op: Op, left: LuaValue, right: LuaValue, third: LuaValue, x: int, y: int, n: int)
    requires CaseOp(opcode) == Some(op) && ArgumentsOf(op) == TwoNumbers
    requires GetValue(left) == Ok(x) && GetValue(right) == Ok(y)
    requires Binary(op, x, y) == Checked(n)
    ensures Call(opcode, left, right, third) == Return(BigOrNaN(n))
  {
    CallTwoNumbers(opcode, op, left, right, third, x, y);
    CaughtChecked(n);
  }

  /** A case reading one number whose operation builds a new BigInteger gives it, or NaN outside the range. */
  lemma CallOneChecked(opcode: int, op: Op, left: LuaValue, right: LuaValue, third: LuaValue, x: int, n: int)
    requires CaseOp(opcode) == Some(op) && ArgumentsOf(op) == OneNumber
    requires GetValue(left) == Ok(x)
    requires Unary(op, x) == Checked(n)
    ensures Call(opcode, left, right, third) == Return(BigOrNaN(n))
  {
    CallOneNumber(opcode, op, left, right, third, x);
    CaughtChecked(n);
  }

  /** A case reading one number computes `Unary` on it, a thrown ArithmeticException becoming NaN. */
  lemma CallOneNumber(opcode: int, op: Op, left: LuaValue, right: LuaValue, third: LuaValue, x: int)
    requires CaseOp(opcode) == Some(op) && ArgumentsOf(op) == OneNumber
    requires GetValue(left) == Ok(x)
    ensures Call(opcode, left, right, third) == Caught(Unary(op, x))
  {
  }

  /** A case reading one number whose operation returns a value gives that value. */
  lemma CallOneReturn(opcode: int, op: Op, left: LuaValue, right: LuaValue, third: LuaValue, x: int, v: LuaValue)
    requires CaseOp(opcode) == Some(op) && ArgumentsOf(op) == OneNumber
    requires GetValue(left) == Ok(x) && Unary(op, x) == Return(v)
    ensures Call(opcode, left, right, third) == Return(v)
  {
    CallOneNumber(opcode, op, left, right, third, x);
  }

  /** Every case that reads its first argument with getValue raises what getValue raises there. */
  lemma LeftReadFirst(opcode: int, op: Op, left: LuaValue, right: LuaValue, third: LuaValue)
    requires CaseOp(opcode) == Some(op) && ArgumentsOf(op) !in {Conversion, TwoInts}
    requires GetValue(left).Err?
    ensures Call(opcode, left, right, third) == Caught(Throw(GetValue(left).error))
  {
  }

  /** newProbPrime reads its first argument with checkint, which fails exactly where checklong does. */
  lemma LeftReadAsInt(left: LuaValue, right: LuaValue, third: LuaValue)
    requires GetValue(left).Err?
    ensures GetValue(left).error.LuaError? ==> Call(28, left, right, third) == Throw(GetValue(left).error)
  {
    if GetValue(left).error.LuaError? {
      assert CheckInt(left).Err?;
    }
  }

  /** Every case that reads two numbers raises what getValue raises on the second, once the first is read. */
  lemma RightReadSecond(opcode: int, op: Op, left: LuaValue, right: LuaValue, third: LuaValue)
    requires CaseOp(opcode) == Some(op) && ArgumentsOf(op) in {TwoNumbers, ThreeNumbers}
    requires GetValue(left).Ok? && GetValue(right).Err?
    ensures Call(opcode, left, right, third) == Caught(Throw(GetValue(right).error))
  {
  }

  /** Case 19 is `new`, a thrown ArithmeticException becoming NaN. */
  lemma CallCreate(left: LuaValue, right: LuaValue, third: LuaValue)
    ensures Call(CreateIndex, left, right, third) == Caught(Create(left))
  {
    assert CaseOp(CreateIndex) == Some(New);
  }

  /** add, sub and mul give the exact result, or NaN once it leaves BigInteger's range. */
  lemma ArithmeticCases(left: LuaValue, right: LuaValue, third: LuaValue, x: int, y: int)
    requires GetValue(left) == Ok(x) && GetValue(right) == Ok(y)
    ensures Call(1, left, right, third) == Return(BigOrNaN(x + y))
    ensures Call(2, left, right, third) == Return(BigOrNaN(x - y))
    ensures Call(3, left, right, third) == Return(BigOrNaN(x * y))
  {
    CallTwoChecked(1, Add, left, right, third, x, y, x + y);
    CallTwoChecked(2, Sub, left, right, third, x, y, x - y);
    CallTwoChecked(3, Mul, left, right, third, x, y, x * y);
  }

  /** A case reading two numbers sees only their values: arguments that coerce to the same numbers give the same result. */
  lemma TwoNumbersSeeValues(opcode: int, left: LuaValue, right: LuaValue, third: LuaValue, x: int, y: int)
    requires CaseOp(opcode).Some? && ArgumentsOf(CaseOp(opcode).value) == TwoNumbers
    requires GetValue(left) == Ok(x) && GetValue(right) == Ok(y)
    ensures Call(opcode, left, right, third) == Call(opcode, Big(x), Big(y), third)
  {
    var op := CaseOp(opcode).value;
    CallTwoNumbers(opcode, op, left, right, third, x, y);
    CallTwoNumbers(opcode, op, Big(x), Big(y), third, x, y);
  }

  /**
   * band acts bit by bit on the two's-complement forms (NaN outside
   * BigInteger's range). Stated on two BigIntegerValues; TwoNumbersSeeValues
   * carries it to any arguments getValue reads as x and y.
   */
  lemma BandCase(x: int, y: int, third: LuaValue)
    ensures Call(8, Big(x), Big(y), third) == Return(BigOrNaN(Bitwise(And, x, y)))
  {
    CallTwoChecked(8, BAnd, Big(x), Big(y), third, x, y, Bitwise(And, x, y));
  }

  /**
   * bor acts bit by bit on the two's-complement forms (NaN outside
   * BigInteger's range). Stated on two BigIntegerValues; TwoNumbersSeeValues
   * carries it to any arguments getValue reads as x and y.
   */
  lemma BorCase(x: int, y: int, third: LuaValue)
    ensures Call(9, Big(x), Big(y), third) == Return(BigOrNaN(Bitwise(Or, x, y)))
  {
    CallTwoChecked(9, BOr, Big(x), Big(y), third, x, y, Bitwise(Or, x, y));
  }

  /**
   * bxor acts bit by bit on the two's-complement forms (NaN outside
   * BigInteger's range). Stated on two BigIntegerValues; TwoNumbersSeeValues
   * carries it to any arguments getValue reads as x and y.
   */
  lemma BxorCase(x: int, y: int, third: LuaValue)
    ensures Call(10, Big(x), Big(y), third) == Return(BigOrNaN(Bitwise(Xor, x, y)))
  {
    CallTwoChecked(10, BXor, Big(x), Big(y), third, x, y, Bitwise(Xor, x, y));
  }

  /** eq compares the two coerced numbers for equality. */
  lemma EqCase(left: LuaValue, right: LuaValue, third: LuaValue, x: int, y: int)
    requires GetValue(left) == Ok(x) && GetValue(right) == Ok(y)
    ensures Call(14, left, right, third) == Return(Boolean(x == y))
  {
    CallTwoNumbers(14, Eq, left, right, third, x, y);
  }

  /** lt orders the two coerced numbers strictly. */
  lemma LtCase(left: LuaValue, right: LuaValue, third: LuaValue, x: int, y: int)
    requires GetValue(left) == Ok(x) && GetValue(right) == Ok(y)
    ensures Call(15, left, right, third) == Return(Boolean(x < y))
  {
    CallTwoNumbers(15, Lt, left, right, third, x, y);
  }

  /** le orders the two coerced numbers, equality included. */
  lemma LeCase(left: LuaValue, right: LuaValue, third: LuaValue, x: int, y: int)
    requires GetValue(left) == Ok(x) && GetValue(right) == Ok(y)
    ensures Call(16, left, right, third) == Return(Boolean(x <= y))
  {
    CallTwoNumbers(16, Le, left, right, third, x, y);
  }

  /** gcd is the greatest common divisor of the magnitudes. */
  lemma GcdCase(left: LuaValue, right: LuaValue, third: LuaValue, x: int, y: int)
    requires GetValue(left) == Ok(x) && GetValue(right) == Ok(y)
    ensures Call(21, left, right, third) == Return(BigOrNaN(EuclidGcd(Abs(x), Abs(y))))
  {
    CallTwoChecked(21, Gcd, left, right, third, x, y, EuclidGcd(Abs(x), Abs(y)));
  }

  /** min returns the smaller argument. */
  lemma MinCase(left: LuaValue, right: LuaValue, third: LuaValue, x: int, y: int)
    requires GetValue(left) == Ok(x) && GetValue(right) == Ok(y)
    ensures Call(24, left, right, third) == Return(Big(if x <= y then x else y))
  {
    CallTwoNumbers(24, Min, left, right, third, x, y);
  }

  /** max returns the larger argument. */
  lemma MaxCase(left: LuaValue, right: LuaValue, third: LuaValue, x: int, y: int)
    requires GetValue(left) == Ok(x) && GetValue(right) == Ok(y)
    ensures Call(25, left, right, third) == Return(Big(if x >= y then x else y))
  {
    CallTwoNumbers(25, Max, left, right, third, x, y);
  }

  /**
   * mod is the truncating remainder, div and idiv the truncating quotient;
   * a zero divisor gives NaN. For a dividend within BigInteger's range the
   * result is always a number.
   */
  lemma DivisionCases(left: LuaValue, right: LuaValue, third: LuaValue, x: int, y: int)
    requires GetValue(left) == Ok(x) && GetValue(right) == Ok(y)
    ensures y == 0 ==> Call(4, left, right, third) == Return(NaN)
    ensures y == 0 ==> Call(6, left, right, third) == Return(NaN) && Call(7, left, right, third) == Return(NaN)
    ensures y != 0 ==> Call(4, left, right, third) == Return(BigOrNaN(TRem(x, y)))
    ensures y != 0 ==> Call(6, left, right, third) == Return(BigOrNaN(TDiv(x, y)))
    ensures y != 0 ==> Call(7, left, right, third) == Return(BigOrNaN(TDiv(x, y)))
    ensures y != 0 && InRange(x) ==> Call(4, left, right, third) == Return(Big(TRem(x, y)))
    ensures y != 0 && InRange(x) ==> Call(6, left, right, third) == Return(Big(TDiv(x, y)))
  {
    if y != 0 && InRange(x) {
      DivisionStaysInRange(x, y);
    }
    CallTwoNumbers(4, Mod, left, right, third, x, y);
    CallTwoNumbers(6, Div, left, right, third, x, y);
    CallTwoNumbers(7, IDiv, left, right, third, x, y);
  }

  /** unm negates (NaN outside BigInteger's range). */
  lemma UnmCase(left: LuaValue, right: LuaValue, third: LuaValue, x: int)
    requires GetValue(left) == Ok(x)
    ensures Call(0, left, right, third) == Return(BigOrNaN(-x))
  {
    CallOneChecked(0, Unm, left, right, third, x, -x);
  }

  /** bnot gives -x-1, the two's complement with every bit flipped (NaN outside BigInteger's range). */
  lemma BnotCase(left: LuaValue, right: LuaValue, third: LuaValue, x: int)
    requires GetValue(left) == Ok(x)
    ensures Call(13, left, right, third) == Return(BigOrNaN(-x - 1))
  {
    CallOneChecked(13, BNot, left, right, third, x, -x - 1);
  }

  /** abs gives the magnitude, which is a number whenever the argument is within BigInteger's range. */
  lemma AbsCase(left: LuaValue, right: LuaValue, third: LuaValue, x: int)
    requires GetValue(left) == Ok(x)
    ensures Call(23, left, right, third) == Return(BigOrNaN(Abs(x)))
    ensures InRange(x) ==> Call(23, left, right, third) == Return(Big(Abs(x)))
  {
    CallOneChecked(23, AbsOp, left, right, third, x, Abs(x));
  }

  /** tostring gives the decimal text, which reads back as the same number. */
  lemma ToStringCase(left: LuaValue, right: LuaValue, third: LuaValue, x: int)
    requires GetValue(left) == Ok(x)
    ensures Call(17, left, right, third) == Return(Str(IntToDecimal(x)))
    ensures ParseDecimal(Call(17, left, right, third).value.s) == Some(x)
  {
    CallOneReturn(17, ToString, left, right, third, x, Str(IntToDecimal(x)));
    DecimalRoundTrip(x);
  }

  /**
   * pow takes its exponent through checkint; a negative exponent gives NaN,
   * and so do a power the early size test rejects and a power outside
   * BigInteger's range.
   */
  lemma PowCase(left: LuaValue, right: LuaValue, third: LuaValue, x: int, k: Int32)
    requires GetValue(left) == Ok(x) && CheckInt(right) == Ok(k)
    ensures k < 0 ==> Call(5, left, right, third) == Return(NaN)
    ensures k >= 0 && PowOverflowsEarly(x, k) ==> Call(5, left, right, third) == Return(NaN)
    ensures k >= 0 && !PowOverflowsEarly(x, k) ==> Call(5, left, right, third) == Return(BigOrNaN(Power(x, k)))
  {
    CallNumberAndInt(5, Pow, left, right, third, x, k);
    if k >= 0 && !PowOverflowsEarly(x, k) {
      CaughtChecked(Power(x, k));
    }
  }

  /** shl takes its distance through checkint (a negative one shifts right); NaN outside BigInteger's range. */
  lemma ShlCase(left: LuaValue, right: LuaValue, third: LuaValue, x: int, k: Int32)
    requires GetValue(left) == Ok(x) && CheckInt(right) == Ok(k)
    ensures Call(11, left, right, third) == Return(BigOrNaN(ShiftLeft(x, k)))
  {
    CallNumberAndInt(11, Shl, left, right, third, x, k);
    CaughtChecked(ShiftLeft(x, k));
  }

  /** shr takes its distance through checkint (a negative one shifts left); NaN outside BigInteger's range. */
  lemma ShrCase(left: LuaValue, right: LuaValue, third: LuaValue, x: int, k: Int32)
    requires GetValue(left) == Ok(x) && CheckInt(right) == Ok(k)
    ensures Call(12, left, right, third) == Return(BigOrNaN(ShiftRight(x, k)))
  {
    CallNumberAndInt(12, Shr, left, right, third, x, k);
    CaughtChecked(ShiftRight(x, k));
  }

  /**
   * The first argument is coerced first: an error in it is the one raised,
   * and text outside BigInteger's range gives NaN (newProbPrime reads its
   * first argument with checkint instead, which shares only the errors).
   */
  lemma LeftArgumentError(opcode: int, left: LuaValue, right: LuaValue, third: LuaValue)
    requires 0 <= opcode <= 28 && opcode != 19
    requires GetValue(left).Err?
    ensures GetValue(left).error.LuaError? ==> Call(opcode, left, right, third) == Throw(GetValue(left).error)
    ensures opcode != 28 && GetValue(left).error == ArithmeticException ==> Call(opcode, left, right, third) == Return(NaN)
  {
    if opcode == 28 {
      LeftReadAsInt(left, right, third);
    } else {
      LeftReadFirst(opcode, CaseOp(opcode).value, left, right, third);
    }
  }

  /** With the first argument well formed, an error in the second is the one raised, in every case reading two numbers. */
  lemma RightArgumentError(opcode: int, left: LuaValue, right: LuaValue, third: LuaValue)
    requires 1 <= opcode <= 25 && opcode !in {5, 11, 12, 13, 17, 18, 19, 23}
    requires GetValue(left).Ok? && GetValue(right).Err?
    ensures GetValue(right).error.LuaError? ==> Call(opcode, left, right, third) == Throw(GetValue(right).error)
    ensures GetValue(right).error == ArithmeticException ==> Call(opcode, left, right, third) == Return(NaN)
  {
    RightReadSecond(opcode, CaseOp(opcode).value, left, right, third);
  }

  /** pow, shl and shr coerce their second argument with checkint. */
  lemma IntArgumentError(opcode: int, left: LuaValue, right: LuaValue, third: LuaValue)
    requires opcode in {5, 11, 12}
    requires GetValue(left).Ok? && CheckInt(right).Err?
    ensures Call(opcode, left, right, third) == Throw(CheckInt(right).error)
  {
  }

  /**
   * new: a BigIntegerValue comes back unchanged, a decimal string or a
   * number is wrapped (text outside BigInteger's range giving NaN), and a
   * malformed string raises NumberFormatException, not getValue's LuaError.
   */
  lemma CreateCases(left: LuaValue, right: LuaValue, third: LuaValue)
    ensures left.Big? ==> Call(CreateIndex, left, right, third) == Return(left)
    ensures left.Str? && WellFormedDecimal(left.s) ==>
      Call(CreateIndex, left, right, third) == Return(BigOrNaN(ParseDecimal(left.s).value))
    ensures left.Str? && !WellFormedDecimal(left.s) ==> Call(CreateIndex, left, right, third) == Throw(NumberFormatException(left.s))
    ensures !left.Str? && !left.Big? ==>
      Call(CreateIndex, left, right, third) == (match CheckLong(left) case Ok(n) => Return(Big(n)) case Err(e) => Throw(e))
  {
    CallCreate(left, right, third);
  }

  /** tostring followed by new gives back the same number, for every number BigInteger supports. */
  lemma ToStringThenCreate(n: int, right: LuaValue, third: LuaValue)
    ensures Call(17, Big(n), right, third).Return?
    ensures Call(CreateIndex, Call(17, Big(n), right, third).value, right, third) == Return(BigOrNaN(n))
    ensures InRange(n) ==> Call(CreateIndex, Call(17, Big(n), right, third).value, right, third) == Return(Big(n))
  {
    ToStringCase(Big(n), right, third, n);
    DecimalRoundTrip(n);
    CreateCases(Str(IntToDecimal(n)), right, third);
  }

  /** An opcode outside the switch raises "No such method <opcode>". */
  lemma UnknownOpcode(opcode: int, left: LuaValue, right: LuaValue, third: LuaValue)
    requires opcode < 0 || opcode > 28
    ensures Call(opcode, left, right, third) == Throw(LuaError(NoSuchMethod(opcode)))
  {
  }

  /** `equals` is an equivalence on BigIntegerValues and agrees with the `eq` operation. */
  lemma EqualsMatchesEq(x: int, y: int, z: int, right: LuaValue, third: LuaValue)
    ensures Equals(x, Big(x))
    ensures Equals(x, Big(y)) == Equals(y, Big(x))
    ensures Equals(x, Big(y)) && Equals(y, Big(z)) ==> Equals(x, Big(z))
    ensures Call(14, Big(x), Big(y), third) == Return(Boolean(Equals(x, Big(y))))
  {
  }

  // ---------------------------------------------------------------------
  // The library table

  /** The global name the library is published under. */
  const LibraryName: string := "biginteger"

  /** What a table slot holds here: a library function, a table, or a string. */
  datatype Slot = Function(f: BigIntegerFunction) | Table(t: LuaTable) | Text(s: string)

  /** A luaj table, seen through its string keys. */
  class LuaTable {
    var fields: map<string, Slot>

    constructor ()
      ensures fields == map[]
    {
      fields := map[];
    }

    /** `rawset`: store without consulting a metatable. */
    method RawSet(key: string, value: Slot)
      modifies this
      ensures fields == old(fields)[key := value]
    {
      fields := fields[key := value];
    }
  }

  /**
   * One published native function: the switch case `opcode` under `name`.
   * The source fills in `opcode`, `name` and `env` right after construction
   * and never changes them again.
   */
  class BigIntegerFunction {
    /** The metatable given to every BigIntegerValue this function returns. */
    const metatable: LuaTable
    const opcode: int
    const name: string
    const env: LuaTable

    constructor (metatable: LuaTable, opcode: int, name: string, env: LuaTable)
      ensures this.metatable == metatable && this.opcode == opcode && this.name == name && this.env == env
    {
      this.metatable := metatable;
      this.opcode := opcode;
      this.name := name;
      this.env := env;
    }
  }

  /** `index` and `type` are not operation names, so `__index` and `__type` clash with no metamethod. */
  lemma ReservedKeysFree()
    ensures "index" !in MetaNames && "type" !in MetaNames
  {
  }

  /** The meta names are pairwise distinct and differ from every main name but `new` coincides with none. */
  lemma NamesDistinct(i: int, j: int)
    requires 0 <= i < |MetaNames| && 0 <= j < |MetaNames| && i != j
    ensures MetaNames[i] != MetaNames[j]
    ensures forall k :: 0 <= k < |MainNames| ==> MetaNames[i] != MainNames[k]
  {
    NameTablesAgreeWithSwitch();
    if MetaNames[i] == MetaNames[j] {
      ImplementsUnique(MetaNames[i], i, j);
    }
    forall k | 0 <= k < |MainNames|
      ensures MetaNames[i] != MainNames[k]
    {
      if MetaNames[i] == MainNames[k] {
        ImplementsUnique(MetaNames[i], i, k + |MetaNames|);
      }
    }
  }

  /** No name appears twice in the tables, and no meta name is a main name. */
  lemma NameTablesDistinct()
    ensures forall i, j :: 0 <= i < j < |MetaNames| ==> MetaNames[i] != MetaNames[j]
    ensures forall i, j :: 0 <= i < j < |MainNames| ==> MainNames[i] != MainNames[j]
    ensures forall i :: 0 <= i < |MetaNames| ==> MetaNames[i] !in MainNames
  {
    NameTablesAgreeWithSwitch();
    forall i, j | 0 <= i < j < |MetaNames|
      ensures MetaNames[i] != MetaNames[j]
    {
      NamesDistinct(i, j);
    }
    forall i, j | 0 <= i < j < |MainNames|
      ensures MainNames[i] != MainNames[j]
    {
      if MainNames[i] == MainNames[j] {
        ImplementsUnique(MainNames[i], i + |MetaNames|, j + |MetaNames|);
      }
    }
    forall i | 0 <= i < |MetaNames|
      ensures MetaNames[i] !in MainNames
    {
      NamesDistinct(i, if i == 0 then 1 else 0);
    }
  }

  /** Slot `s` holds a library function published under `k` that shares `meta` and `env`. */
  predicate Publishes(s: Slot, k: string, meta: LuaTable, env: LuaTable)
  {
    s.Function? && s.f.name == k && Implements(k, s.f.opcode) && s.f.metatable == meta && s.f.env == env
  }

  /** The names of a table, as a set. */
  function Elements(names: seq<string>): set<string>
  {
    set n | n in names
  }

  /** The metamethod keys `__` + each of `names`. */
  function MetaKeys(names: seq<string>): set<string>
  {
    set n | n in names :: "__" + n
  }

  /** Taking one more element of a sequence appends that element. */
  lemma SliceSnoc(names: seq<string>, i: nat)
    requires i < |names|
    ensures names[..i + 1] == names[..i] + [names[i]]
  {
  }

  /** Extending a name table by one name extends both key sets by one key. */
  lemma KeysOfSnoc(names: seq<string>, n: string)
    ensures Elements(names + [n]) == Elements(names) + {n}
    ensures MetaKeys(names + [n]) == MetaKeys(names) + {"__" + n}
  {
    assert forall m :: m in names + [n] <==> m in names || m == n;
  }

  /** Prefixing `__` keeps different names different. */
  lemma PrefixInjective(a: string, b: string)
    ensures "__" + a == "__" + b ==> a == b
  {
    assert ("__" + a)[2..] == a && ("__" + b)[2..] == b;
  }

  /** Every entry of `table` is a library function published under its own key. */
  predicate AllPublish(table: LuaTable, meta: LuaTable, env: LuaTable)
    reads table
  {
    forall k :: k in table.fields ==> table.fields[k].Function? && Publishes(table.fields[k], k, meta, env)
  }

  /** One step of either loop: a fresh function for case `opcode`, stored in `table` under `name`. */
  method AddFunction(table: LuaTable, meta: LuaTable, env: LuaTable, name: string, opcode: int) returns (func: BigIntegerFunction)
    requires Implements(name, opcode)
    requires AllPublish(table, meta, env)
    modifies table
    ensures fresh(func)
    ensures table.fields == old(table.fields)[name := Function(func)]
    ensures AllPublish(table, meta, env)
  {
    func := new BigIntegerFunction(meta, opcode, name, env);
    table.RawSet(name, Function(func));
  }

  /**
   * The maps after the first `i` steps of the meta-name loop, started from
   * the table `start`: the first `i` names are added to the table, their
   * `__` keys to the metatable with the same functions, nothing else changes.
   */
  predicate MetaLoopState(start: map<string, Slot>, table: map<string, Slot>, meta: map<string, Slot>, names: seq<string>, i: nat)
    requires i <= |names|
  {
    && table.Keys == start.Keys + Elements(names[..i])
    && (forall k :: k in table && k !in names[..i] ==> k in start && table[k] == start[k])
    && meta.Keys == MetaKeys(names[..i])
    && (forall j :: 0 <= j < i ==> "__" + names[j] in meta && names[j] in table && meta["__" + names[j]] == table[names[j]])
  }

  /** A loop step adds its name to the table's keys. */
  lemma TableKeysStep(start: set<string>, table: map<string, Slot>, names: seq<string>, i: nat, s: Slot)
    requires i < |names|
    requires table.Keys == start + Elements(names[..i])
    ensures table[names[i] := s].Keys == start + Elements(names[..i + 1])
  {
    SliceSnoc(names, i);
    KeysOfSnoc(names[..i], names[i]);
  }

  /** A loop step leaves the keys outside the names taken so far untouched. */
  lemma UntouchedStep(start: map<string, Slot>, table: map<string, Slot>, names: seq<string>, i: nat, s: Slot)
    requires i < |names|
    requires forall k :: k in table && k !in names[..i] ==> k in start && table[k] == start[k]
    ensures forall k :: k in table[names[i] := s] && k !in names[..i + 1] ==> k in start && table[names[i] := s][k] == start[k]
  {
    SliceSnoc(names, i);
  }

  /** A loop step adds the `__` key of its name to the metatable's keys. */
  lemma MetaKeysStep(meta: map<string, Slot>, names: seq<string>, i: nat, s: Slot)
    requires i < |names|
    requires meta.Keys == MetaKeys(names[..i])
    ensures meta["__" + names[i] := s].Keys == MetaKeys(names[..i + 1])
  {
    SliceSnoc(names, i);
    KeysOfSnoc(names[..i], names[i]);
  }

  /** A loop step stores the same function under its name and its `__` key, leaving earlier pairs alone. */
  lemma PairsStep(table: map<string, Slot>, meta: map<string, Slot>, names: seq<string>, i: nat, s: Slot)
    requires i < |names|
    requires forall j, k :: 0 <= j < k < |names| ==> names[j] != names[k]
    requires forall j :: 0 <= j < i ==> "__" + names[j] in meta && names[j] in table && meta["__" + names[j]] == table[names[j]]
    ensures forall j :: 0 <= j < i + 1 ==>
      "__" + names[j] in meta["__" + names[i] := s] && names[j] in table[names[i] := s] &&
      meta["__" + names[i] := s]["__" + names[j]] == table[names[i] := s][names[j]]
  {
    forall j | 0 <= j < i
      ensures names[j] != names[i] && "__" + names[j] != "__" + names[i]
    {
      PrefixInjective(names[j], names[i]);
    }
  }

  /** One step of the meta-name loop keeps `MetaLoopState`. */
  lemma MetaLoopStep(start: map<string, Slot>, table: map<string, Slot>, meta: map<string, Slot>, names: seq<string>, i: nat, s: Slot)
    requires i < |names|
    requires forall j, k :: 0 <= j < k < |names| ==> names[j] != names[k]
    requires MetaLoopState(start, table, meta, names, i)
    ensures MetaLoopState(start, table[names[i] := s], meta["__" + names[i] := s], names, i + 1)
  {
    TableKeysStep(start.Keys, table, names, i, s);
    UntouchedStep(start, table, names, i, s);
    MetaKeysStep(meta, names, i, s);
    PairsStep(table, meta, names, i, s);
  }

  /** The first loop of `makeTable`: each name gets a fresh function in the table and as a metamethod. */
  method AddMetamethods(table: LuaTable, meta: LuaTable, env: LuaTable, names: seq<string>)
    requires table != meta && meta.fields == map[]
    requires forall i, j :: 0 <= i < j < |names| ==> names[i] != names[j]
    requires forall i :: 0 <= i < |names| ==> Implements(names[i], i)
    requires AllPublish(table, meta, env)
    modifies table, meta
    ensures AllPublish(table, meta, env)
    ensures MetaLoopState(old(table.fields), table.fields, meta.fields, names, |names|)
  {
    assert names[..0] == [];
    var i := 0;
    while i < |names|
      invariant 0 <= i <= |names|
      invariant AllPublish(table, meta, env)
      invariant MetaLoopState(old(table.fields), table.fields, meta.fields, names, i)
    {
      ghost var tableBefore, metaBefore := table.fields, meta.fields;
      SliceSnoc(names, i);
      var func := AddFunction(table, meta, env, names[i], i);
      meta.RawSet("__" + names[i], Function(func));
      MetaLoopStep(old(table.fields), tableBefore, metaBefore, names, i, Function(func));
      i := i + 1;
    }
  }

  /** The second loop of `makeTable`: name `i` gets a fresh function running case `base + i`. */
  method AddFunctions(table: LuaTable, meta: LuaTable, env: LuaTable, names: seq<string>, base: int)
    requires forall i :: 0 <= i < |names| ==> Implements(names[i], base + i)
    requires AllPublish(table, meta, env)
    modifies table
    ensures AllPublish(table, meta, env)
    ensures table.fields.Keys == old(table.fields.Keys) + Elements(names)
    ensures forall k :: k in table.fields && k !in names ==> k in old(table.fields) && table.fields[k] == old(table.fields[k])
  {
    assert names[..0] == [];
    var i := 0;
    while i < |names|
      invariant 0 <= i <= |names|
      invariant AllPublish(table, meta, env)
      invariant table.fields.Keys == old(table.fields.Keys) + Elements(names[..i])
      invariant forall k :: k in table.fields && k !in names[..i] ==> k in old(table.fields) && table.fields[k] == old(table.fields[k])
    {
      ghost var before := table.fields;
      SliceSnoc(names, i);
      var func := AddFunction(table, meta, env, names[i], base + i);
      TableKeysStep(old(table.fields.Keys), before, names, i, Function(func));
      UntouchedStep(old(table.fields), before, names, i, Function(func));
      i := i + 1;
    }
    assert names[..i] == names;
  }

  /**
   * `makeTable` over any two name tables that agree with the switch: the
   * meta names run cases 0, 1, ..., the main names the cases after them,
   * and `new` (case `CreateIndex`) is among the main names.
   */
  method BuildTables(env: LuaTable, metaNames: seq<string>, mainNames: seq<string>) returns (table: LuaTable, meta: LuaTable)
    requires forall i, j :: 0 <= i < j < |metaNames| ==> metaNames[i] != metaNames[j]
    requires forall i :: 0 <= i < |metaNames| ==> Implements(metaNames[i], i)
    requires forall j :: 0 <= j < |mainNames| ==> Implements(mainNames[j], j + |metaNames|)
    requires forall i :: 0 <= i < |metaNames| ==> metaNames[i] !in mainNames
    requires Implements("new", CreateIndex) && "new" in mainNames
    requires "index" !in metaNames && "type" !in metaNames
    ensures fresh(table) && fresh(meta) && table != meta
    ensures table.fields.Keys == Elements(metaNames) + Elements(mainNames)
    ensures AllPublish(table, meta, env)
    ensures meta.fields.Keys == MetaKeys(metaNames) + {"__index", "__type"}
    ensures forall i :: 0 <= i < |metaNames| ==>
      "__" + metaNames[i] in meta.fields && metaNames[i] in table.fields && meta.fields["__" + metaNames[i]] == table.fields[metaNames[i]]
    ensures meta.fields["__index"] == Table(table) && meta.fields["__type"] == Text(LibraryName)
  {
    meta := new LuaTable();
    table := new LuaTable();
    FillTables(table, meta, env, metaNames, mainNames);
    ghost var beforeFinish := meta.fields;
    FinishMetatable(table, meta);
    FinishedMetatable(beforeFinish, meta.fields, table.fields, table, metaNames);
  }

  /** The body of `makeTable` up to its last two stores: `new`, then the two loops. */
  method FillTables(table: LuaTable, meta: LuaTable, env: LuaTable, metaNames: seq<string>, mainNames: seq<string>)
    requires table != meta && table.fields == map[] && meta.fields == map[]
    requires forall i, j :: 0 <= i < j < |metaNames| ==> metaNames[i] != metaNames[j]
    requires forall i :: 0 <= i < |metaNames| ==> Implements(metaNames[i], i)
    requires forall j :: 0 <= j < |mainNames| ==> Implements(mainNames[j], j + |metaNames|)
    requires forall i :: 0 <= i < |metaNames| ==> metaNames[i] !in mainNames
    requires Implements("new", CreateIndex) && "new" in mainNames
    modifies table, meta
    ensures table.fields.Keys == Elements(metaNames) + Elements(mainNames)
    ensures AllPublish(table, meta, env)
    ensures meta.fields.Keys == MetaKeys(metaNames)
    ensures forall i :: 0 <= i < |metaNames| ==>
      "__" + metaNames[i] in meta.fields && metaNames[i] in table.fields && meta.fields["__" + metaNames[i]] == table.fields[metaNames[i]]
  {
    var create := new BigIntegerFunction(meta, CreateIndex, "new", env);
    table.RawSet("new", Function(create));

    AddMetamethods(table, meta, env, metaNames);
    assert metaNames[..|metaNames|] == metaNames;
    ghost var afterMeta := table.fields;
    AddFunctions(table, meta, env, mainNames, |metaNames|);
    MergedTable(afterMeta, table.fields, metaNames, mainNames);
  }

  /** After the main-name loop the table holds both name tables, and the meta names' entries are untouched. */
  lemma MergedTable(afterMeta: map<string, Slot>, final: map<string, Slot>, metaNames: seq<string>, mainNames: seq<string>)
    requires afterMeta.Keys == {"new"} + Elements(metaNames)
    requires final.Keys == afterMeta.Keys + Elements(mainNames)
    requires forall k :: k in final && k !in mainNames ==> k in afterMeta && final[k] == afterMeta[k]
    requires forall i :: 0 <= i < |metaNames| ==> metaNames[i] !in mainNames
    requires "new" in mainNames
    ensures final.Keys == Elements(metaNames) + Elements(mainNames)
    ensures forall i :: 0 <= i < |metaNames| ==> metaNames[i] in afterMeta && metaNames[i] in final && final[metaNames[i]] == afterMeta[metaNames[i]]
  {
    assert "new" in Elements(mainNames);
    forall i | 0 <= i < |metaNames|
      ensures metaNames[i] in afterMeta && metaNames[i] in final
    {
      assert metaNames[i] in Elements(metaNames);
    }
  }

  /** What storing `__index` and `__type` leaves in a metatable that held the metamethods. */
  lemma FinishedMetatable(before: map<string, Slot>, after: map<string, Slot>, fields: map<string, Slot>, table: LuaTable, names: seq<string>)
    requires before.Keys == MetaKeys(names)
    requires forall i :: 0 <= i < |names| ==> "__" + names[i] in before && names[i] in fields && before["__" + names[i]] == fields[names[i]]
    requires "index" !in names && "type" !in names
    requires after == before["__index" := Table(table)]["__type" := Text(LibraryName)]
    ensures after.Keys == MetaKeys(names) + {"__index", "__type"}
    ensures forall i :: 0 <= i < |names| ==> "__" + names[i] in after && names[i] in fields && after["__" + names[i]] == fields[names[i]]
    ensures after["__index"] == Table(table) && after["__type"] == Text(LibraryName)
  {
    assert "__" + "index" == "__index" && "__" + "type" == "__type";
    forall i | 0 <= i < |names|
      ensures "__" + names[i] != "__" + "index" && "__" + names[i] != "__" + "type"
    {
      PrefixInjective(names[i], "index");
      PrefixInjective(names[i], "type");
    }
  }

  /** The end of `makeTable`: the metatable's `__index` is the library table and its `__type` the library name. */
  method FinishMetatable(table: LuaTable, meta: LuaTable)
    modifies meta
    ensures meta.fields == old(meta.fields)["__index" := Table(table)]["__type" := Text(LibraryName)]
  {
    meta.RawSet("__index", Table(table));
    meta.RawSet("__type", Text(LibraryName));
  }

  /**
   * `makeTable`: the library table maps every meta and main name to a fresh
   * function running that name's switch case; the shared metatable maps
   * `__` + each meta name to the same function, `__index` to the library
   * table and `__type` to the library name. The `new` function stored first
   * is replaced by the one the main-name loop stores under the same key.
   */
  method MakeTable(env: LuaTable) returns (table: LuaTable, meta: LuaTable)
    ensures fresh(table) && fresh(meta) && table != meta
    ensures table.fields.Keys == Elements(MetaNames) + Elements(MainNames)
    ensures AllPublish(table, meta, env)
    ensures meta.fields.Keys == MetaKeys(MetaNames) + {"__index", "__type"}
    ensures forall i :: 0 <= i < |MetaNames| ==>
      "__" + MetaNames[i] in meta.fields && MetaNames[i] in table.fields && meta.fields["__" + MetaNames[i]] == table.fields[MetaNames[i]]
    ensures meta.fields["__index"] == Table(table) && meta.fields["__type"] == Text(LibraryName)
  {
    NameTablesAgreeWithSwitch();
    NameTablesDistinct();
    ReservedKeysFree();
    assert "new" in MainNames;
    table, meta := BuildTables(env, MetaNames, MainNames);
  }

  /** `setup`: the library table is published in the environment under its name. */
  method Setup(env: LuaTable) returns (table: LuaTable)
    modifies env
    ensures fresh(table)
    ensures env.fields == old(env.fields)[LibraryName := Table(table)]
    ensures table.fields.Keys == Elements(MetaNames) + Elements(MainNames)
  {
    var meta;
    table, meta := MakeTable(env);
    env.RawSet(LibraryName, Table(table));
  }
}
