/** `int(captime + caputime / 1e6)` in IEEE double arithmetic.

    A double is described by its value, and rounding by the property every round-to-nearest
    mode has: the result is a double and no double is closer.  Nothing is said about ties. */
module FloatSecond {

  function Pow2(n: nat): (p: nat)
    ensures p > 0
  {
    if n == 0 then 1 else 2 * Pow2(n - 1)
  }

  /** m * 2^e */
  function Scaled(m: int, e: int): real {
    if e >= 0 then m as real * Pow2(e) as real else m as real / Pow2(-e) as real
  }

  /** x is the value of a finite double: a 53-bit integer times a power of two in range. */
  ghost predicate IsDouble(x: real) {
    exists m: int, e: int :: -(Pow2(53) as int) < m < Pow2(53) && -1074 <= e <= 971 && x == Scaled(m, e)
  }

  function Abs(x: real): real {
    if x < 0.0 then -x else x
  }

  /** r is a correctly rounded x. */
  ghost predicate RoundsTo(x: real, r: real) {
    IsDouble(r) && forall d | IsDouble(d) :: Abs(x - r) <= Abs(x - d)
  }

  /** Python's `int` of a float: truncation toward zero. */
  function Truncate(x: real): int {
    if x < 0.0 then -((-x).Floor) else x.Floor
  }

  lemma Powers()
    ensures Pow2(53) == 0x20_0000_0000_0000
    ensures Pow2(20) == 0x10_0000
    ensures Pow2(40) == 0x100_0000_0000
  {
    assert Pow2(10) == 1024;
    PowAdd(10, 10);
    PowAdd(20, 20);
    PowAdd(40, 10);
    assert Pow2(3) == 8;
    PowAdd(50, 3);
  }

  lemma {:induction false} PowAdd(a: nat, b: nat)
    ensures Pow2(a + b) == Pow2(a) * Pow2(b)
  {
    if a > 0 {
      PowAdd(a - 1, b);
    }
  }

  lemma IntegerIsDouble(n: int)
    requires 0 <= n < 0x20_0000_0000_0000
    ensures IsDouble(n as real)
  {
    Powers();
    assert Pow2(0) == 1;
    assert n as real == Scaled(n, 0);
  }

  // ---------- which numbers are doubles ----------

  lemma {:induction false} PowGrows(a: nat, b: nat)
    requires a <= b
    ensures Pow2(a) <= Pow2(b)
  {
    if a < b {
      PowGrows(a, b - 1);
    }
  }

  lemma Divided(a: real, p: real)
    requires p >= 1.0
    ensures a >= 1.0 ==> 1.0 / p <= a / p <= a
    ensures a <= 0.0 ==> a / p <= 0.0
  {
    var x := a / p;
    assert x * p == a;
    if x > 0.0 {
      assert x * p >= x;
    }
    assert (a - 1.0) / p == x - 1.0 / p;
  }

  lemma Multiplied(a: real, b: real, p: real, q: real)
    requires a <= b && b >= 1.0 && 1.0 <= p <= q
    ensures a >= 1.0 ==> a * p >= 1.0
    ensures a <= 0.0 ==> a * p <= 0.0
    ensures a * p <= b * q
  {
    assert (b - a) * p >= 0.0 && b * (q - p) >= 0.0;
    if a >= 1.0 { assert a * (p - 1.0) >= 0.0; }
    if a <= 0.0 { assert (0.0 - a) * p >= 0.0; }
  }

  /** A scaled integer is between the least and the greatest of its kind. */
  lemma ScaledRange(m: int, e: int, top: int, low: int, high: int)
    requires m <= top && 1 <= top && -low <= e <= high && low >= 0 && high >= 0
    ensures m >= 1 ==> Scaled(1, -low) <= Scaled(m, e)
    ensures m <= 0 ==> Scaled(m, e) <= 0.0
    ensures Scaled(m, e) <= Scaled(top, high)
  {
    LeastScaled(low);
    Sizes(e, low, high);
    if e >= 0 {
      ScaledUp(m, e, top, high);
      Divided(1.0, Size(low));
    } else {
      ScaledDown(m, e, top, high);
      Quotients(Size(e), Size(low));
    }
  }

  lemma ScaledUp(m: int, e: int, top: int, high: int)
    requires m <= top && 1 <= top && 0 <= e <= high
    ensures m >= 1 ==> 1.0 <= Scaled(m, e)
    ensures m <= 0 ==> Scaled(m, e) <= 0.0
    ensures Scaled(m, e) <= Scaled(top, high)
  {
    Sizes(e, 0, high);
    Multiplied(m as real, top as real, Size(e), Size(high));
  }

  lemma ScaledDown(m: int, e: int, top: int, high: int)
    requires m <= top && 1 <= top && e < 0 <= high
    ensures m >= 1 ==> 1.0 / Size(e) <= Scaled(m, e)
    ensures m <= 0 ==> Scaled(m, e) <= 0.0
    ensures Scaled(m, e) <= Scaled(top, high)
  {
    Sizes(e, -e, high);
    Divided(m as real, Size(e));
    Multiplied(top as real, top as real, 1.0, Size(high));
  }

  function Size(e: int): real {
    Pow2(if e >= 0 then e else -e) as real
  }

  lemma Sizes(e: int, low: int, high: int)
    requires -low <= e <= high && low >= 0 && high >= 0
    ensures 1.0 <= Size(e) && 1.0 <= Size(low) && 1.0 <= Size(high)
    ensures if e >= 0 then Size(e) <= Size(high) else Size(e) <= Size(low)
  {
    if e >= 0 {
      PowGrows(e, high);
    } else {
      PowGrows(-e, low);
    }
  }

  lemma LeastScaled(low: int)
    requires low >= 0
    ensures Scaled(1, -low) == 1.0 / Size(low)
  {
  }

  lemma Quotients(p: real, q: real)
    requires 1.0 <= p <= q
    ensures 1.0 / q <= 1.0 / p
  {
    var x, y := 1.0 / p, 1.0 / q;
    assert x * p == 1.0 && y * q == 1.0 && x > 0.0;
    assert x * (q - p) >= 0.0;
    assert (y - x) * q <= 0.0;
    assert y - x > 0.0 ==> (y - x) * q > 0.0;
  }

  lemma ScaledIsEven(m: int, e: int)
    requires e > 0
    ensures Scaled(m, e) == (2 * (m * Pow2(e - 1) as int)) as real
  {
    assert m * (Pow2(e) as int) == 2 * (m * (Pow2(e - 1) as int));
  }

  /** 2^53 is a double, and the next whole number is not. */
  lemma WholeDoubles()
    ensures IsDouble(9007199254740992.0) && !IsDouble(9007199254740993.0)
  {
    Powers();
    assert Pow2(1) == 2;
    assert 9007199254740992.0 == Scaled(4503599627370496, 1);
    forall m: int, e: int | -(Pow2(53) as int) < m < Pow2(53) && -1074 <= e <= 971
      ensures 9007199254740993.0 != Scaled(m, e)
    {
      if e > 0 {
        ScaledIsEven(m, e);
      } else {
        ScaledRange(m, e, 9007199254740991, -e, 0);
        assert Pow2(0) == 1;
      }
    }
  }

  /** The least and the greatest positive double. */
  lemma DoubleRange(low: int, high: int)
    requires low == 1074 && high == 971
    ensures IsDouble(Scaled(1, -low)) && IsDouble(Scaled(9007199254740991, high))
    ensures forall x :: IsDouble(x) && x > 0.0 ==> Scaled(1, -low) <= x <= Scaled(9007199254740991, high)
  {
    Powers();
    forall x | IsDouble(x) && x > 0.0 ensures Scaled(1, -low) <= x <= Scaled(9007199254740991, high) {
      var m: int, e: int :| -(Pow2(53) as int) < m < Pow2(53) && -1074 <= e <= 971 && x == Scaled(m, e);
      ScaledRange(m, e, 9007199254740991, low, high);
    }
  }

  /** Truncation drops the fraction. */
  lemma TruncateIs(x: real)
    ensures x >= 0.0 ==> Truncate(x) as real <= x < Truncate(x) as real + 1.0
    ensures x <= 0.0 ==> Truncate(x) as real - 1.0 < x <= Truncate(x) as real
  {
  }

  /** Below 2^33 - 1 in size a rounded value is within 2^-21. */
  lemma RoundingErrorLarge(x: real, r: real)
    requires -8589934591.0 < x < 8589934591.0 && RoundsTo(x, r)
    ensures Abs(x - r) <= 1.0 / 2097152.0
  {
    Powers();
    var k := (x * 1048576.0 + 0.5).Floor;
    var d := k as real / 1048576.0;
    assert d == Scaled(k, -20);
    assert IsDouble(d);
    assert Abs(x - d) <= 1.0 / 2097152.0;
  }

  /** Below 2^13 - 1 a rounded value is within 2^-41. */
  lemma RoundingErrorSmall(x: real, r: real)
    requires 0.0 <= x < 8191.0 && RoundsTo(x, r)
    ensures Abs(x - r) <= 1.0 / 2199023255552.0
  {
    Powers();
    var k := (x * 1099511627776.0 + 0.5).Floor;
    var d := k as real / 1099511627776.0;
    assert d == Scaled(k, -40);
    assert IsDouble(d);
    assert Abs(x - d) <= 1.0 / 2199023255552.0;
  }

  /** A value that is itself a double is kept. */
  lemma RoundingKeepsDoubles(x: real, r: real)
    requires IsDouble(x) && RoundsTo(x, r)
    ensures r == x
  {
    assert Abs(x - r) <= Abs(x - x);
  }

  /** For all 32-bit fields the rounded quotient, added with a second rounding and truncated, is the
      exact whole second: the two rounding errors together stay below one microsecond. */
  lemma TimeStampSecondIsExact(captime: nat, caputime: nat, quotient: real, timeStamp: real)
    requires captime < 0x1_0000_0000 && caputime < 0x1_0000_0000
    requires RoundsTo(caputime as real / 1000000.0, quotient)
    requires RoundsTo(captime as real + quotient, timeStamp)
    ensures Truncate(timeStamp) == captime + caputime / 1_000_000
  {
    var q, f := caputime / 1_000_000, caputime % 1_000_000;
    assert caputime as real / 1000000.0 == q as real + f as real / 1000000.0;
    if f == 0 {
      WholeSecond(captime, q, quotient, timeStamp);
    } else {
      InsideSecond(captime, q, f, quotient, timeStamp);
    }
  }

  lemma WholeSecond(captime: nat, q: nat, quotient: real, timeStamp: real)
    requires captime < 0x1_0000_0000 && q < 0x1_0000_0000
    requires RoundsTo(q as real, quotient) && RoundsTo(captime as real + quotient, timeStamp)
    ensures Truncate(timeStamp) == captime + q
  {
    IntegerIsDouble(q);
    RoundingKeepsDoubles(q as real, quotient);
    IntegerIsDouble(captime + q);
    assert captime as real + quotient == (captime + q) as real;
    RoundingKeepsDoubles((captime + q) as real, timeStamp);
  }

  lemma InsideSecond(captime: nat, q: nat, f: nat, quotient: real, timeStamp: real)
    requires captime < 0x1_0000_0000 && q <= 4294 && 0 < f < 1_000_000
    requires RoundsTo(q as real + f as real / 1000000.0, quotient)
    requires RoundsTo(captime as real + quotient, timeStamp)
    ensures Truncate(timeStamp) == captime + q
  {
    var x := q as real + f as real / 1000000.0;
    assert q as real + 1.0 / 1000000.0 <= x <= q as real + 999999.0 / 1000000.0;
    RoundingErrorSmall(x, quotient);
    RoundingErrorLarge(captime as real + quotient, timeStamp);
    assert (captime + q) as real < timeStamp < (captime + q) as real + 1.0;
  }
}
