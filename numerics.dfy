/** Outcome types shared by every module: an optional value, and the result of a
    computation that may raise Python's ZeroDivisionError. */
module Outcomes {

  datatype Option<+T> = None | Some(value: T)

  /** The only run-time failure the engine can hit: a float division (or a
      negative power of zero) by zero, which Python raises as ZeroDivisionError. */
  datatype MathError = DivisionByZero

  datatype Result<+T> = Success(value: T) | Failure(error: MathError)
}

/** Exact arithmetic over `real` standing in for Python floats and JS numbers. */
module Numerics {

  import opened Outcomes

  /** `x ** n` for a non-negative integer exponent. */
  function Pow(x: real, n: nat): real
    decreases n
  {
    if n == 0 then 1.0 else x * Pow(x, n - 1)
  }

  function Abs(x: real): (r: real)
    ensures r >= 0.0
    ensures r == x || r == -x
  {
    if x < 0.0 then -x else x
  }

  /** Python's `max(a, b)` on floats. */
  function Max(a: real, b: real): (r: real)
    ensures r >= a && r >= b
    ensures r == a || r == b
  {
    if a >= b then a else b
  }

  /** Python's `sum(xs)`: a left fold starting at 0. */
  function Sum(xs: seq<real>): real
    decreases |xs|
  {
    if xs == [] then 0.0 else Sum(xs[..|xs| - 1]) + xs[|xs| - 1]
  }

  lemma {:induction false} SumAppend(xs: seq<real>, ys: seq<real>)
    ensures Sum(xs + ys) == Sum(xs) + Sum(ys)
    decreases |ys|
  {
    if ys == [] {
      assert xs + ys == xs;
    } else {
      var ys' := ys[..|ys| - 1];
      assert (xs + ys)[..|xs + ys| - 1] == xs + ys';
      SumAppend(xs, ys');
    }
  }

  lemma {:induction false} PowPositive(x: real, n: nat)
    requires x > 0.0
    ensures Pow(x, n) > 0.0
    decreases n
  {
    if n > 0 {
      PowPositive(x, n - 1);
    }
  }

  lemma {:induction false} PowOne(n: nat)
    ensures Pow(1.0, n) == 1.0
    decreases n
  {
    if n > 0 {
      PowOne(n - 1);
    }
  }

  /** A base above one raised to a positive power stays above one. */
  lemma PowFirst(x: real)
    ensures Pow(x, 1) == x
  {
  }

  lemma {:induction false} PowAboveOne(x: real, n: nat)
    requires x > 1.0 && n >= 1
    ensures Pow(x, n) > 1.0
    decreases n
  {
    if n > 1 {
      PowAboveOne(x, n - 1);
      assert x * Pow(x, n - 1) > 1.0 * Pow(x, n - 1);
    }
  }

  /** Multiplying by the base once more is the same as raising the exponent by one. */
  lemma {:induction false} PowStep(x: real, n: nat)
    ensures Pow(x, n) * x == Pow(x, n + 1)
  {
    assert Pow(x, n + 1) == x * Pow(x, n);
  }

  lemma MulPos(x: real, y: real)
    requires x > 0.0 && y > 0.0
    ensures x * y > 0.0
  {
  }

  /** Multiplying both sides of an inequality by a positive factor keeps it. */
  lemma MulMono(c: real, x: real, y: real)
    requires c > 0.0 && x >= y
    ensures c * x >= c * y
  {
    assert c * x - c * y == c * (x - y);
  }

  lemma BernoulliStep(x: real, n: real, g: real)
    requires x > 0.0 && n >= 1.0 && g >= 1.0 + n * x
    ensures (1.0 + x) * g > 1.0 + (n + 1.0) * x
  {
    MulMono(1.0 + x, g, 1.0 + n * x);
    MulPos(n, x);
    MulPos(n * x, x);
    assert (1.0 + x) * (1.0 + n * x) == 1.0 + (n + 1.0) * x + (n * x) * x;
  }

  /** Bernoulli's inequality, strict from the second power on. */
  lemma {:induction false} PowAboveLinear(x: real, n: nat)
    requires x > 0.0 && n >= 1
    ensures Pow(1.0 + x, n) >= 1.0 + n as real * x
    ensures n >= 2 ==> Pow(1.0 + x, n) > 1.0 + n as real * x
    decreases n
  {
    if n == 1 {
      assert Pow(1.0 + x, 1) == (1.0 + x) * Pow(1.0 + x, 0);
    } else {
      PowAboveLinear(x, n - 1);
      BernoulliStep(x, (n - 1) as real, Pow(1.0 + x, n - 1));
      assert (n - 1) as real + 1.0 == n as real;
    }
  }

  /** Python's `x ** n` for an integer exponent: a negative power of zero raises
      ZeroDivisionError, every other case is defined. */
  function PowInt(x: real, n: int): (r: Result<real>)
    ensures r.Failure? <==> (n < 0 && x == 0.0)
    ensures n >= 0 ==> r == Success(Pow(x, n))
    ensures n < 0 && x != 0.0 ==> Pow(x, -n) != 0.0 && r == Success(1.0 / Pow(x, -n))
  {
    if n >= 0 then Success(Pow(x, n))
    else if x == 0.0 then Failure(DivisionByZero)
    else
      PowNonZero(x, -n);
      Success(1.0 / Pow(x, -n))
  }

  lemma {:induction false} PowNonZero(x: real, n: nat)
    requires x != 0.0
    ensures Pow(x, n) != 0.0
    decreases n
  {
    if n > 0 {
      PowNonZero(x, n - 1);
    }
  }

  /** The integer nearest to `y`, ties going to the even neighbour. */
  function HalfEvenUnits(y: real): (n: int)
    ensures -0.5 <= n as real - y <= 0.5
  {
    var f := y.Floor;
    var frac := y - f as real;
    if frac > 0.5 then f + 1
    else if frac < 0.5 then f
    else if f % 2 == 0 then f
    else f + 1
  }

  /** `x` rounded half to even to a multiple of `1 / scale`. */
  function RoundTo(x: real, scale: real): real
    requires scale > 0.0
  {
    HalfEvenUnits(x * scale) as real / scale
  }

  /** Python's `round(x, digits)` over exact reals: round half to even at
      `digits` decimal places. */
  function Round(x: real, digits: nat): real {
    PowPositive(10.0, digits);
    RoundTo(x, Pow(10.0, digits))
  }

  /** `r` is within half a unit of `x`, a unit being `1 / scale`. */
  predicate WithinHalfUnit(r: real, x: real, scale: real) {
    Abs(r - x) * scale <= 0.5
  }

  /** The rounded value is within half a unit in the last kept place. */
  lemma RoundError(x: real, digits: nat)
    ensures WithinHalfUnit(Round(x, digits), x, Pow(10.0, digits))
  {
    PowPositive(10.0, digits);
    RoundToError(x, Pow(10.0, digits));
  }

  lemma RoundToError(x: real, scale: real)
    requires scale > 0.0
    ensures WithinHalfUnit(RoundTo(x, scale), x, scale)
  {
    RoundBound(x, scale, HalfEvenUnits(x * scale));
  }

  /** Zero rounds to zero at any precision. */
  lemma RoundZero(digits: nat)
    ensures Round(0.0, digits) == 0.0
  {
    PowPositive(10.0, digits);
  }

  lemma RoundBound(x: real, p: real, n: int)
    requires p > 0.0
    requires -0.5 <= n as real - x * p <= 0.5
    ensures Abs(n as real / p - x) * p <= 0.5
  {
    var d := n as real / p - x;
    assert d * p == n as real - x * p;
  }
}
