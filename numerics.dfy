/**
 * The numeric vocabulary shared by the three core modules.
 *
 * The source computes over IEEE doubles with `math.exp`, `**` and `math.sqrt`.
 * Here every quantity is a Dafny `real`, and the three transcendental
 * operations are supplied from outside as a `Math` value: a record of three
 * total functions that is only known to obey a handful of laws.  Nothing in
 * the model depends on more than those laws, so every result proved holds for
 * the true exponential, power and square root.
 */
module Numerics {

  /** The three operations the source takes from Python's `math` module and `**`. */
  datatype Transcendentals = Transcendentals(
    exp: real -> real,
    pow: (real, real) -> real,
    sqrt: real -> real)

  /**
   * The order x < y under a name: the monotonicity law of exp is triggered by
   * this term alone, so it is used only where a proof states Below(x, y).
   */
  ghost predicate Below(x: real, y: real)
  {
    x < y
  }

  /** The laws the model relies on; all of them hold of exp, x^y and the square root. */
  ghost predicate Lawful(m: Transcendentals)
  {
    && m.exp(0.0) == 1.0
    && (forall x :: m.exp(x) > 0.0)
    && (forall x, y {:trigger Below(x, y)} :: Below(x, y) ==> m.exp(x) < m.exp(y))
    && (forall b, e :: b > 0.0 ==> m.pow(b, e) > 0.0)
    && (forall e :: m.pow(1.0, e) == 1.0)
    && (forall x :: x >= 0.0 ==> m.sqrt(x) >= 0.0)
    && (forall x :: x > 0.0 ==> m.sqrt(x) > 0.0)
  }

  /** A lawful choice of exp, pow and sqrt.  The witness only shows that the laws can be met together. */
  type Math = m: Transcendentals | Lawful(m)
    witness (SampleIsLawful(); Sample())

  /** A positive, strictly increasing stand-in for exp with value 1 at 0; used only for the witness of `Math`. */
  function SampleExp(x: real): real
  {
    if x < 0.0 then 1.0 / (1.0 - x) else 1.0 + x
  }

  function Sample(): Transcendentals
  {
    Transcendentals(
      SampleExp,
      (b, e) => 1.0,
      x => if x > 0.0 then x else 0.0)
  }

  lemma SampleIsLawful()
    ensures Lawful(Sample())
  {
    forall x
      ensures SampleExp(x) > 0.0
    {
      if x < 0.0 {
        DivPositive(1.0, 1.0 - x);
      }
    }
    forall x, y | Below(x, y)
      ensures SampleExp(x) < SampleExp(y)
    {
      SampleExpIncreasing(x, y);
    }
  }

  lemma SampleExpIncreasing(x: real, y: real)
    requires x < y
    ensures SampleExp(x) < SampleExp(y)
  {
    if y < 0.0 {
      ReciprocalDecreases(1.0 - x, 1.0 - y);
    } else if x < 0.0 {
      ReciprocalDecreases(1.0 - x, 1.0);
    }
  }

  lemma ReciprocalDecreases(a: real, b: real)
    requires a > b >= 1.0
    ensures 1.0 / a < 1.0 / b
  {
    assert a * (1.0 / a) == 1.0;
    assert b * (1.0 / b) == 1.0;
  }

  lemma ExpIncreasing(m: Math, x: real, y: real)
    requires x < y
    ensures m.exp(x) < m.exp(y)
  {
    assert Below(x, y);
  }

  /** exp(x) < 1 exactly for negative x. */
  lemma ExpBelowOne(m: Math, x: real)
    ensures m.exp(x) < 1.0 <==> x < 0.0
  {
    if x < 0.0 {
      ExpIncreasing(m, x, 0.0);
    } else if x > 0.0 {
      ExpIncreasing(m, 0.0, x);
    }
  }

  /*
   * Facts about products, each stated over bare variables so that the solver
   * meets no quantified fact while proving it.
   */

  lemma MulPositive(a: real, b: real)
    requires a > 0.0 && b > 0.0
    ensures a * b > 0.0
  {}

  lemma DivPositive(a: real, b: real)
    requires a > 0.0 && b > 0.0
    ensures a / b > 0.0
  {}

  /** x / d multiplies back to x for any x. */
  lemma DivideBackAny(x: real, d: real)
    requires d > 0.0
    ensures (x / d) * d == x && (x / d * 100.0) * d == x * 100.0
  {}

  /** q = p / d is positive and multiplies back to p. */
  lemma DivideBack(p: real, d: real, q: real)
    requires p > 0.0 && d > 0.0 && q == p / d
    ensures q > 0.0 && q * d == p
  {
    DivPositive(p, d);
  }

  lemma CancelPositive(a: real, b: real, c: real)
    requires c > 0.0 && a * c == b * c
    ensures a == b
  {
    assert (a - b) * c == 0.0;
  }

  lemma MulMonotone(a: real, b: real, c: real)
    requires a <= b && c >= 0.0
    ensures a * c <= b * c
  {
    assert (b - a) * c >= 0.0;
  }

  lemma DivMonotone(a: real, b: real, c: real)
    requires a < b && c > 0.0
    ensures a / c < b / c
  {
    var q := b / c - a / c;
    assert q * c == b - a;
    PositiveFactor(q, c);
  }

  lemma MulNonNegative(a: real, b: real)
    requires a >= 0.0 && b >= 0.0
    ensures a * b >= 0.0
  {}

  lemma DivNonNegative(a: real, b: real)
    requires a >= 0.0 && b > 0.0
    ensures a / b >= 0.0
  {}

  lemma PositiveFactor(q: real, c: real)
    requires c > 0.0 && q * c > 0.0
    ensures q > 0.0
  {}

  function Square(x: real): real
  {
    x * x
  }

  lemma AddProductPositive(a: real, x: real, y: real)
    requires a >= 0.0 && x > 0.0 && y > 0.0
    ensures a + x * y > 0.0
  {}

  /** Adding the square of a nonzero number to a non-negative one gives a positive number. */
  lemma AddSquarePositive(a: real, x: real)
    requires a >= 0.0 && x != 0.0
    ensures a + x * x > 0.0
  {
    if x > 0.0 {
      AddProductPositive(a, x, x);
    } else {
      AddProductPositive(a, -x, -x);
    }
  }

  lemma AddSquareNonNegative(a: real, x: real)
    requires a >= 0.0
    ensures a + x * x >= 0.0
  {
    if x != 0.0 {
      AddSquarePositive(a, x);
    }
  }

  function Min(a: nat, b: nat): (r: nat)
    ensures r <= a && r <= b && (r == a || r == b)
  {
    if a <= b then a else b
  }

  /**
   * The relative deviation `(value - reference) / reference * 100` the source
   * computes for every percentage error.  Its sign says on which side of the
   * reference the value lies.
   */
  function PercentError(value: real, reference: real): (r: real)
    requires reference > 0.0
    ensures r > 0.0 <==> value > reference
    ensures r == 0.0 <==> value == reference
    ensures r < 0.0 <==> value < reference
  {
    (value - reference) / reference * 100.0
  }

  /** The value is recovered from its percentage error and the reference. */
  lemma PercentErrorInverse(value: real, reference: real)
    requires reference > 0.0
    ensures reference + PercentError(value, reference) * reference / 100.0 == value
  {}

  /**
   * `numpy.linspace(start, stop, n)` over the reals: n evenly spaced samples
   * from start to stop, both included; one sample is just `start`, zero
   * samples the empty array.
   */
  function Linspace(start: real, stop: real, n: nat): (xs: seq<real>)
    ensures |xs| == n
    ensures n >= 1 ==> xs[0] == start
    ensures n >= 2 ==> xs[n - 1] == stop
    ensures n >= 2 ==> forall k :: 0 <= k < n - 1 ==> xs[k + 1] - xs[k] == (stop - start) / ((n - 1) as real)
  {
    if n <= 1 then
      seq(n, k => start)
    else
      var step := (stop - start) / ((n - 1) as real);
      var xs := seq(n, k requires 0 <= k < n => start + (k as real) * step);
      assert xs[n - 1] == stop by {
        assert ((n - 1) as real) * step == stop - start;
      }
      assert forall k :: 0 <= k < n - 1 ==> xs[k + 1] - xs[k] == step by {
        forall k | 0 <= k < n - 1
          ensures xs[k + 1] - xs[k] == step
        {
          assert ((k + 1) as real) * step == (k as real) * step + step;
        }
      }
      xs
  }

  /** Samples of a range with start <= stop never leave the range. */
  lemma {:induction false} LinspaceWithinRange(start: real, stop: real, n: nat, k: nat)
    requires start <= stop && k < n
    ensures start <= Linspace(start, stop, n)[k] <= stop
  {
    var xs := Linspace(start, stop, n);
    if n >= 2 {
      var last := (n - 1) as real;
      var step := (stop - start) / last;
      assert xs[k] == start + (k as real) * step;
      SampleWithinSpan(start, stop, k as real, last, step, xs[k]);
    }
  }

  /** start + k * step lies in [start, stop] when 0 <= k <= last and last * step = stop - start. */
  lemma SampleWithinSpan(start: real, stop: real, k: real, last: real, step: real, x: real)
    requires start <= stop && 0.0 <= k <= last && last > 0.0
    requires step == (stop - start) / last && x == start + k * step
    ensures start <= x <= stop
  {
    DivNonNegative(stop - start, last);
    assert last * step == stop - start;
    OffsetWithinSpan(k, last, step);
  }

  lemma OffsetWithinSpan(k: real, last: real, step: real)
    requires 0.0 <= k <= last && step >= 0.0
    ensures 0.0 <= k * step <= last * step
  {
    MulNonNegative(k, step);
    MulMonotone(k, last, step);
  }

  function Sum(xs: seq<real>): real
  {
    if xs == [] then 0.0 else Sum(xs[..|xs| - 1]) + xs[|xs| - 1]
  }

  /** `numpy.mean` of a non-empty array. */
  function Mean(xs: seq<real>): (r: real)
    requires |xs| >= 1
    ensures (forall k :: 0 <= k < |xs| ==> xs[k] > 0.0) ==> r > 0.0
  {
    PositiveSum(xs);
    Sum(xs) / (|xs| as real)
  }

  lemma {:induction false} PositiveSum(xs: seq<real>)
    ensures |xs| >= 1 && (forall k :: 0 <= k < |xs| ==> xs[k] > 0.0) ==> Sum(xs) > 0.0
  {
    if |xs| >= 2 {
      PositiveSum(xs[..|xs| - 1]);
    }
  }
}
