/**
 * The native add-on: `add(a, b)` and `factorial(n)` as seen from JavaScript.
 * Arguments arrive as JavaScript values; a number is an IEEE double, which is
 * modelled by its real value or one of the three special values.
 */
module NativeMath {
  import opened Wrappers

  /** A JavaScript number: a finite value or NaN or an infinity. */
  datatype Double = Finite(r: real) | NaN | PosInfinity | NegInfinity

  /** An argument as the add-on sees it: a number, or anything else. */
  datatype JsValue = Number(d: Double) | NotNumber

  /** The two kinds of exception the add-on throws into JavaScript. */
  datatype JsError = TypeError(message: string) | RangeError(message: string)

  const WrongArgumentCount: string := "Wrong number of arguments"
  const ArgumentsMustBeNumbers: string := "Arguments must be numbers"
  const ArgumentMustBeNumber: string := "Argument must be a number"
  const MustBeNonNegative: string := "Number must be non-negative"

  const Int32Min: int := -0x8000_0000
  const Int32Max: int := 0x7fff_ffff
  const Int64Min: int := -0x8000_0000_0000_0000
  const Int64Max: int := 0x7fff_ffff_ffff_ffff

  predicate IsNumber(v: JsValue) {
    v.Number?
  }

  // ---------------------------------------------------------------------
  // add
  // ---------------------------------------------------------------------

  /** IEEE addition of two doubles, rounding and overflow aside. */
  function DoubleSum(a: Double, b: Double): (s: Double)
    ensures s.NaN? <==> a.NaN? || b.NaN? || (a.PosInfinity? && b.NegInfinity?) || (a.NegInfinity? && b.PosInfinity?)
    ensures a.Finite? && b.Finite? ==> s == Finite(a.r + b.r)
  {
    match (a, b)
    case (NaN, _) => NaN
    case (_, NaN) => NaN
    case (PosInfinity, NegInfinity) => NaN
    case (NegInfinity, PosInfinity) => NaN
    case (PosInfinity, _) => PosInfinity
    case (_, PosInfinity) => PosInfinity
    case (NegInfinity, _) => NegInfinity
    case (_, NegInfinity) => NegInfinity
    case (Finite(x), Finite(y)) => Finite(x + y)
  }

  /** `add`: at least two arguments, both numbers, else a TypeError. */
  function Add(args: seq<JsValue>): (r: Result<Double, JsError>)
    ensures r.Success? <==> |args| >= 2 && IsNumber(args[0]) && IsNumber(args[1])
    ensures |args| < 2 ==> r == Failure(TypeError(WrongArgumentCount))
    ensures |args| >= 2 && !(IsNumber(args[0]) && IsNumber(args[1])) ==> r == Failure(TypeError(ArgumentsMustBeNumbers))
    ensures r.Success? && args[0].d.Finite? && args[1].d.Finite? ==> r.value == Finite(args[0].d.r + args[1].d.r)
  {
    if |args| < 2 then
      Failure(TypeError(WrongArgumentCount))
    else if !IsNumber(args[0]) || !IsNumber(args[1]) then
      Failure(TypeError(ArgumentsMustBeNumbers))
    else
      Success(DoubleSum(args[0].d, args[1].d))
  }

  /** Arguments after the second play no part. */
  lemma AddIgnoresExtraArguments(args: seq<JsValue>)
    requires |args| >= 2
    ensures Add(args) == Add(args[..2])
  {
    assert args[..2][0] == args[0] && args[..2][1] == args[1];
  }

  /** Swapping the two arguments changes neither the sum nor the error. */
  lemma AddCommutes(a: JsValue, b: JsValue)
    ensures Add([a, b]) == Add([b, a])
  {
    if a.Number? && b.Number? {
      match (a.d, b.d)
      case (Finite(x), Finite(y)) =>
        assert DoubleSum(a.d, b.d) == Finite(x + y) == DoubleSum(b.d, a.d);
      case _ =>
    }
  }

  // ---------------------------------------------------------------------
  // Integer conversions
  // ---------------------------------------------------------------------

  /** Rounding toward zero. */
  function Trunc(r: real): (t: int)
    ensures r >= 0.0 ==> t as real <= r < t as real + 1.0
    ensures r < 0.0 ==> t as real - 1.0 < r <= t as real
  {
    if r >= 0.0 then r.Floor else -((-r).Floor)
  }

  /** Two's complement reduction of an integer to 32 bits. */
  function Wrap32(v: int): (w: int)
    ensures Int32Min <= w <= Int32Max
    ensures (w - v) % 0x1_0000_0000 == 0
    ensures Int32Min <= v <= Int32Max ==> w == v
  {
    (v + 0x8000_0000) % 0x1_0000_0000 - 0x8000_0000
  }

  /** Two's complement reduction of an integer to 64 bits. */
  function Wrap64(v: int): (w: int)
    ensures Int64Min <= w <= Int64Max
    ensures (w - v) % 0x1_0000_0000_0000_0000 == 0
    ensures Int64Min <= v <= Int64Max ==> w == v
  {
    (v + 0x8000_0000_0000_0000) % 0x1_0000_0000_0000_0000 - 0x8000_0000_0000_0000
  }

  /** ECMAScript ToInt32, the conversion behind `Int32Value`. */
  function ToInt32(d: Double): (n: int)
    ensures Int32Min <= n <= Int32Max
    ensures !d.Finite? ==> n == 0
    ensures d.Finite? ==> (n - Trunc(d.r)) % 0x1_0000_0000 == 0
    ensures d.Finite? && Int32Min <= Trunc(d.r) <= Int32Max ==> n == Trunc(d.r)
  {
    match d
    case Finite(r) => Wrap32(Trunc(r))
    case _ => 0
  }

  /** A number at or above 2^31 comes out of ToInt32 negative. */
  lemma LargeNumberTurnsNegative()
    ensures ToInt32(Finite(2147483648.0)) == Int32Min
    ensures ToInt32(Finite(3000000000.0)) < 0
  {
    assert Trunc(2147483648.0) == 2147483648;
    assert Trunc(3000000000.0) == 3000000000;
  }

  // ---------------------------------------------------------------------
  // factorial
  // ---------------------------------------------------------------------

  /** The mathematical factorial. */
  function Fact(n: nat): (f: nat)
    ensures f >= 1
  {
    if n == 0 then 1 else n * Fact(n - 1)
  }

  /** Reducing a factor first does not change a product reduced to 64 bits. */
  lemma WrapMul(a: int, b: int)
    ensures Wrap64(Wrap64(a) * b) == Wrap64(a * b)
  {
    var m := 0x1_0000_0000_0000_0000;
    var h := 0x8000_0000_0000_0000;
    var k := (a + h) / m;
    assert Wrap64(a) == a - k * m;
    assert Wrap64(a) * b == a * b - (k * b) * m;
    ModShift(a * b + h, -(k * b));
  }

  /** One more factor of the loop: the 64-bit product follows the true factorial. */
  lemma FactStep(i: nat)
    requires i >= 1
    ensures Wrap64(Wrap64(Fact(i - 1)) * i) == Wrap64(Fact(i))
  {
    WrapMul(Fact(i - 1), i);
  }

  /** Adding a multiple of 2^64 leaves the remainder modulo 2^64 alone. */
  lemma ModShift(x: int, j: int)
    ensures (x + j * 0x1_0000_0000_0000_0000) % 0x1_0000_0000_0000_0000 == x % 0x1_0000_0000_0000_0000
  {
    var m := 0x1_0000_0000_0000_0000;
    var q, r := x / m, x % m;
    assert x == q * m + r && 0 <= r < m;
    assert x + j * m == (q + j) * m + r;
  }

  /**
   * `factorial(n)`: a number is required, it is converted with ToInt32,
   * a negative result is a RangeError, and the product 2 * 3 * ... * n is
   * accumulated in a signed 64-bit integer.
   */
  method Factorial(args: seq<JsValue>) returns (r: Result<int, JsError>)
    ensures |args| < 1 || !IsNumber(args[0]) ==> r == Failure(TypeError(ArgumentMustBeNumber))
    ensures |args| >= 1 && IsNumber(args[0]) && ToInt32(args[0].d) < 0 ==>
      r == Failure(RangeError(MustBeNonNegative))
    ensures |args| >= 1 && IsNumber(args[0]) && ToInt32(args[0].d) >= 0 ==>
      r == Success(Wrap64(Fact(ToInt32(args[0].d))))
  {
    if |args| < 1 || !IsNumber(args[0]) {
      return Failure(TypeError(ArgumentMustBeNumber));
    }
    var n := ToInt32(args[0].d);
    if n < 0 {
      return Failure(RangeError(MustBeNonNegative));
    }
    var result := 1;
    var i := 2;
    while i <= n
      invariant 2 <= i && (i == 2 || i <= n + 1)
      invariant result == Wrap64(Fact(i - 1))
    {
      FactStep(i);
      result := Wrap64(result * i);
      i := i + 1;
    }
    assert Fact(i - 1) == Fact(n) by {
      if n < 2 {
        assert Fact(1) == 1 == Fact(0);
      } else {
        assert i == n + 1;
      }
    }
    return Success(result);
  }

  /** Up to 20 the 64-bit accumulator holds the true factorial. */
  lemma FactorialExactUpTo20(n: nat)
    requires n <= 20
    ensures Wrap64(Fact(n)) == Fact(n)
  {
    FactMonotone(n, 20);
    FactUpTo20();
  }

  /** From 21 on the product no longer fits: 21! comes back negative. */
  lemma FactorialWrapsAt21()
    ensures Fact(21) == 51090942171709440000
    ensures Wrap64(Fact(21)) == -4249290049419214848
  {
    FactUpTo20();
    assert Fact(21) == 21 * 2432902008176640000;
  }

  /** The 64-bit accumulator holds n! exactly when n is at most 20: every larger
      factorial is at least 21!, which is beyond the int64 range. */
  lemma FactorialExactIff(n: nat)
    ensures Wrap64(Fact(n)) == Fact(n) <==> n <= 20
  {
    if n <= 20 {
      FactorialExactUpTo20(n);
    } else {
      FactMonotone(21, n);
      FactorialWrapsAt21();
    }
  }

  /** The factorials up to 20, one factor at a time. */
  lemma FactUpTo20()
    ensures Fact(20) == 2432902008176640000
  {
    assert Fact(1) == 1;
    assert Fact(2) == 2;
    assert Fact(3) == 6;
    assert Fact(4) == 24;
    assert Fact(5) == 120;
    assert Fact(6) == 720;
    assert Fact(7) == 5040;
    assert Fact(8) == 40320;
    assert Fact(9) == 362880;
    assert Fact(10) == 3628800;
    assert Fact(11) == 39916800;
    assert Fact(12) == 479001600;
    assert Fact(13) == 6227020800;
    assert Fact(14) == 87178291200;
    assert Fact(15) == 1307674368000;
    assert Fact(16) == 20922789888000;
    assert Fact(17) == 355687428096000;
    assert Fact(18) == 6402373705728000;
    assert Fact(19) == 121645100408832000;
    assert Fact(20) == 2432902008176640000;
  }

  lemma {:induction false} FactMonotone(m: nat, n: nat)
    requires m <= n
    ensures Fact(m) <= Fact(n)
  {
    if m < n {
      FactMonotone(m, n - 1);
    }
  }

  // ---------------------------------------------------------------------
  // The loop counter as written
  // ---------------------------------------------------------------------

  /** `i++` on the C++ `int` counter, with two's complement wrap-around. */
  function Int32Increment(i: int): (j: int)
    requires Int32Min <= i <= Int32Max
    ensures Int32Min <= j <= Int32Max
    ensures i < Int32Max ==> j == i + 1
  {
    Wrap32(i + 1)
  }

  /** The counter of the 32-bit loop after k increments from its start at 2. */
  function CounterAfter(k: nat): (i: int)
    ensures Int32Min <= i <= Int32Max
  {
    if k == 0 then 2 else Int32Increment(CounterAfter(k - 1))
  }

  /** Until it reaches the top of the range, the counter just counts. */
  lemma {:induction false} CounterCounts(k: nat)
    requires k <= Int32Max - 2
    ensures CounterAfter(k) == k + 2
  {
    if k > 0 {
      CounterCounts(k - 1);
    }
  }

  /**
   * With n = 2147483647, which ToInt32 produces from that number, the guard
   * `i <= n` of the 32-bit loop holds after every number of increments: the
   * counter climbs to n and the next increment wraps it round to -2^31.
   */
  lemma Int32CounterNeverExits(k: nat)
    ensures ToInt32(Finite(2147483647.0)) == Int32Max
    ensures CounterAfter(k) <= ToInt32(Finite(2147483647.0))
    ensures CounterAfter(Int32Max - 2) == Int32Max
    ensures CounterAfter(Int32Max - 1) == Int32Min
  {
    assert Trunc(2147483647.0) == 2147483647;
    CounterCounts(Int32Max - 2);
  }
}
