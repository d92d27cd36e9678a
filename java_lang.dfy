/**
 * The small part of the Java language and runtime that the example programs
 * rely on: 32-bit two's-complement `int` arithmetic (JLS 15.17, 15.18),
 * nullable references, thrown exceptions and `String.hashCode`.
 */
module JavaLang {

  const MIN_INT: int := -0x8000_0000
  const MAX_INT: int := 0x7FFF_FFFF

  /** A value of Java's primitive `int`. */
  type Int32 = x: int | -0x8000_0000 <= x <= 0x7FFF_FFFF

  /** A Java reference that may be `null` (None). */
  datatype Option<+T> = None | Some(value: T)

  /** The exception classes that the modelled code throws or declares. */
  datatype ExceptionClass =
    | ArithmeticException
    | IllegalArgumentException
    | IOException
    | NullPointerException
    | DateTimeException
    | PlainException   // java.lang.Exception itself

  /**
   * A thrown exception: its class, its message (None when the message is
   * produced by the JDK and not by this repository) and its cause.
   */
  datatype JavaException = JavaException(cls: ExceptionClass, message: Option<string>, cause: Option<JavaException>)

  /** How a call to a value-returning method ends: with a value or with an exception. */
  datatype Result<+R> = Ok(value: R) | Thrown(exception: JavaException)

  /** How a call to a `void` method ends. */
  datatype Outcome = Normal | Raised(exception: JavaException)

  function Throw(cls: ExceptionClass, message: string): JavaException
  {
    JavaException(cls, Some(message), None)
  }

  /** The NullPointerException the JVM throws on dereferencing or unboxing null. */
  function NullPointer(): JavaException
  {
    JavaException(NullPointerException, None, None)
  }

  // ---------------------------------------------------------------------------
  // 32-bit wrap-around

  /** Reduces a mathematical integer to the `int` it denotes modulo 2^32. */
  function Wrap(x: int): (r: Int32)
    ensures (x - r) % 0x1_0000_0000 == 0
    ensures MIN_INT <= x <= MAX_INT ==> r == x
  {
    var k := (x + 0x8000_0000) / 0x1_0000_0000;
    assert x - ((x + 0x8000_0000) % 0x1_0000_0000 - 0x8000_0000) == 0x1_0000_0000 * k;
    (x + 0x8000_0000) % 0x1_0000_0000 - 0x8000_0000
  }

  /** Two `int`s congruent modulo 2^32 are the same `int`. */
  lemma CongruentInt32Equal(r: Int32, s: Int32)
    requires (r - s) % 0x1_0000_0000 == 0
    ensures r == s
  {
    var k := (r - s) / 0x1_0000_0000;
    assert r - s == 0x1_0000_0000 * k;
  }

  /** Wrap(x) is the only `int` congruent to x modulo 2^32. */
  lemma WrapUnique(x: int, r: Int32)
    requires (x - r) % 0x1_0000_0000 == 0
    ensures r == Wrap(x)
  {
    var w := Wrap(x);
    var k1 := (x - r) / 0x1_0000_0000;
    var k2 := (x - w) / 0x1_0000_0000;
    assert x - r == 0x1_0000_0000 * k1;
    assert x - w == 0x1_0000_0000 * k2;
    assert w - r == 0x1_0000_0000 * (k1 - k2);
    CongruentInt32Equal(w, r);
  }

  /** Wrapping an intermediate result of `c * x + y` does not change the final `int`. */
  lemma WrapInner(c: int, x: int, y: int)
    ensures Wrap(c * Wrap(x) + y) == Wrap(c * x + y)
  {
    var w := Wrap(x);
    var k := (x - w) / 0x1_0000_0000;
    assert x - w == 0x1_0000_0000 * k;
    assert (c * x + y) - (c * w + y) == c * (x - w);
    assert c * (x - w) == 0x1_0000_0000 * (c * k);
    var r := Wrap(c * w + y);
    var j := ((c * w + y) - r) / 0x1_0000_0000;
    assert (c * w + y) - r == 0x1_0000_0000 * j;
    assert (c * x + y) - r == 0x1_0000_0000 * (c * k + j);
    WrapUnique(c * x + y, r);
  }

  /** `a + b` on `int` (JLS 15.18.2). */
  function Add32(a: Int32, b: Int32): Int32 { Wrap(a + b) }

  /** `a - b` on `int` (JLS 15.18.2). */
  function Sub32(a: Int32, b: Int32): Int32 { Wrap(a - b) }

  /** `a * b` on `int` (JLS 15.17.1). */
  function Mul32(a: Int32, b: Int32): Int32 { Wrap(a * b) }

  /** Every `int` product is congruent to the mathematical product modulo 2^32. */
  lemma Mul32Congruent()
    ensures forall a: Int32, b: Int32 :: (Mul32(a, b) - a * b) % 0x1_0000_0000 == 0
  {
    forall a: Int32, b: Int32
      ensures (Mul32(a, b) - a * b) % 0x1_0000_0000 == 0
    {
      var p := a * b;
      assert Mul32(a, b) == Wrap(p);
    }
  }

  function Abs(x: int): nat { if x < 0 then -x else x }

  /** The mathematical quotient of a by b rounded toward zero. */
  function TruncatedQuotient(a: int, b: int): int
    requires b != 0
  {
    var m := Abs(a) / Abs(b);
    if (a < 0) == (b < 0) then m else -m
  }

  /** Multiplying a natural number by a positive one does not make it smaller. */
  lemma MulMonotone(m: nat, B: int)
    requires B >= 1
    ensures m * B >= m
  {
    var p := (B - 1) * m;
    assert p >= 0;
    assert m * B == p + m;
  }

  /** TruncatedQuotient(a, b) * b is |a| rounded down to a multiple of |b|, with the sign of a. */
  lemma TruncatedQuotientTimesDivisor(a: int, b: int)
    requires b != 0
    ensures TruncatedQuotient(a, b) * b == if a < 0 then -((Abs(a) / Abs(b)) * Abs(b)) else (Abs(a) / Abs(b)) * Abs(b)
  {
    var m, B := Abs(a) / Abs(b), Abs(b);
    if b < 0 {
      assert b == -B;
      if a < 0 {
        assert TruncatedQuotient(a, b) == m;
        assert m * (-B) == -(m * B);
      } else {
        assert TruncatedQuotient(a, b) == -m;
        assert (-m) * (-B) == m * B;
      }
    } else {
      assert b == B;
      if a < 0 {
        assert TruncatedQuotient(a, b) == -m;
        assert (-m) * B == -(m * B);
      } else {
        assert TruncatedQuotient(a, b) == m;
      }
    }
  }

  /** The magnitude of the truncated quotient is the quotient of the magnitudes. */
  lemma TruncatedQuotientAbs(a: int, b: int)
    requires b != 0
    ensures Abs(TruncatedQuotient(a, b)) == Abs(a) / Abs(b)
  {
    var m := Abs(a) / Abs(b);
    assert m >= 0;
  }

  /** The remainder left by TruncatedQuotient has the sign of the dividend and is smaller than the divisor. */
  lemma TruncatedQuotientRemainder(a: int, b: int)
    requires b != 0
    ensures var rem := a - TruncatedQuotient(a, b) * b;
            Abs(rem) < Abs(b) && (rem == 0 || (rem < 0 <==> a < 0))
    ensures Abs(TruncatedQuotient(a, b)) <= Abs(a)
  {
    var A: int, B: int := Abs(a), Abs(b);
    TruncatedQuotientAbs(a, b);
    var m := Abs(TruncatedQuotient(a, b));
    assert m == A / B;
    var rm := A % B;
    var mB := m * B;
    assert A == mB + rm && 0 <= rm < B;
    TruncatedQuotientTimesDivisor(a, b);
    var rem := a - TruncatedQuotient(a, b) * b;
    if a < 0 {
      assert rem == -rm;
    } else {
      assert rem == rm;
    }
    MulMonotone(m, B);
  }

  /**
   * `a / b` on `int` for a non-zero divisor (JLS 15.17.2): the quotient is
   * rounded toward zero, and MIN_VALUE / -1 overflows back to MIN_VALUE.
   */
  function Quotient32(a: Int32, b: Int32): (q: Int32)
    requires b != 0
    ensures a == MIN_INT && b == -1 ==> q == MIN_INT
    ensures !(a == MIN_INT && b == -1) ==>
              var rem := a - q * b;
              Abs(rem) < Abs(b) && (rem == 0 || (rem < 0 <==> a < 0))
  {
    TruncatedQuotientRemainder(a, b);
    TruncatedQuotientOverflow(a, b);
    Wrap(TruncatedQuotient(a, b))
  }

  /** The truncated quotient of two `int`s leaves the `int` range only for MIN_VALUE / -1. */
  lemma TruncatedQuotientOverflow(a: Int32, b: Int32)
    requires b != 0
    ensures MIN_INT <= TruncatedQuotient(a, b) <= MAX_INT <==> !(a == MIN_INT && b == -1)
  {
    TruncatedQuotientRemainder(a, b);
    var t := TruncatedQuotient(a, b);
    if t == 0x8000_0000 {
      assert Abs(a) / Abs(b) == 0x8000_0000;
      assert Abs(a) == Abs(b) * 0x8000_0000 + Abs(a) % Abs(b);
    }
  }

  /** Java's `/` on `int`, which throws ArithmeticException("/ by zero") for a zero divisor. */
  function Divide32(a: Int32, b: Int32): (r: Result<Int32>)
    ensures r.Thrown? <==> b == 0
    ensures r.Thrown? ==> r.exception == Throw(ArithmeticException, "/ by zero")
    ensures r.Ok? ==> r.value == Quotient32(a, b)
  {
    if b == 0 then Thrown(Throw(ArithmeticException, "/ by zero")) else Ok(Quotient32(a, b))
  }

  // ---------------------------------------------------------------------------
  // Strings

  /** The UTF-16 code units of one character, as a Java `String` stores it. */
  function CodeUnits(c: char): (u: seq<int>)
    ensures 1 <= |u| <= 2
    ensures forall i :: 0 <= i < |u| ==> 0 <= u[i] < 0x1_0000
    ensures (c as int < 0x1_0000) <==> u == [c as int]
  {
    var v := c as int;
    if v < 0x1_0000 then [v]
    else [0xD800 + (v - 0x1_0000) / 0x400, 0xDC00 + (v - 0x1_0000) % 0x400]
  }

  /** The UTF-16 code units of a string. */
  function Utf16(s: string): seq<int>
  {
    if s == [] then [] else Utf16(s[..|s| - 1]) + CodeUnits(s[|s| - 1])
  }

  /** `h = 31 * h + u` over the code units, in `int` arithmetic. */
  function HashUnits(u: seq<int>): Int32
  {
    if u == [] then 0 else Wrap(31 * HashUnits(u[..|u| - 1]) + u[|u| - 1])
  }

  /** `String.hashCode()`. */
  function StringHash(s: string): Int32
  {
    HashUnits(Utf16(s))
  }

  /** `s.contains(String.valueOf(c))` for a one-character needle. */
  predicate ContainsChar(s: string, c: char)
  {
    c in s
  }
}
