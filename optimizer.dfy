/**
 * Fitting the scale height of the exponential model to the standard
 * atmosphere: the least-squares objective, the sampling of the reference
 * pressures, the fit report and the point-by-point comparison of the fitted
 * and the fixed-scale-height models.
 *
 * The bounded minimiser itself is outside the model: it is a parameter that
 * is only known to return a scale height within the bounds it is given.
 */
module Optimizer {
  import opened Numerics
  import opened IsaCalculator
  import opened ExponentialModels

  /** Starting point and bounds handed to the minimiser, in metres. */
  const InitialBeta: real := 8000.0
  const LowerBound: real := 5000.0
  const UpperBound: real := 15000.0

  /** The fixed scale height the fitted model is compared against (not StandardScaleHeight). */
  const ComparisonBeta: real := 8000.0

  /** Sample counts used when the caller gives none. */
  const DefaultNumPoints: nat := 100
  const DefaultNumChartPoints: nat := 50

  // ---------------------------------------------------------------------------
  // The objective

  /**
   * The sum of (P0 exp(-h_k / beta) - p_k)^2 over the first n pairs of
   * altitudes and reference pressures.
   */
  function SquaredErrorSum(m: Math, beta: real, altitudes: seq<real>, pressures: seq<real>, n: nat): real
    requires n <= |altitudes| && n <= |pressures| && (n > 0 ==> beta != 0.0)
  {
    if n == 0 then 0.0
    else
      SquaredErrorSum(m, beta, altitudes, pressures, n - 1)
        + Square(Pressure(m, altitudes[n - 1], beta) - pressures[n - 1])
  }

  /** A sum of squares is never negative. */
  lemma {:induction false} SquaredErrorSumNonNegative(m: Math, beta: real, altitudes: seq<real>, pressures: seq<real>, n: nat)
    requires n <= |altitudes| && n <= |pressures| && (n > 0 ==> beta != 0.0)
    ensures SquaredErrorSum(m, beta, altitudes, pressures, n) >= 0.0
  {
    if n > 0 {
      SquaredErrorSumNonNegative(m, beta, altitudes, pressures, n - 1);
      var d := Pressure(m, altitudes[n - 1], beta) - pressures[n - 1];
      AddSquareNonNegative(SquaredErrorSum(m, beta, altitudes, pressures, n - 1), d);
    }
  }

  /** The objective is zero exactly when the model matches every reference pressure. */
  lemma {:induction false} SquaredErrorSumZero(m: Math, beta: real, altitudes: seq<real>, pressures: seq<real>, n: nat)
    requires n <= |altitudes| && n <= |pressures| && (n > 0 ==> beta != 0.0)
    ensures SquaredErrorSum(m, beta, altitudes, pressures, n) == 0.0
      <==> forall k :: 0 <= k < n ==> Pressure(m, altitudes[k], beta) == pressures[k]
  {
    if n > 0 {
      var rest := SquaredErrorSum(m, beta, altitudes, pressures, n - 1);
      var d := Pressure(m, altitudes[n - 1], beta) - pressures[n - 1];
      SquaredErrorSumNonNegative(m, beta, altitudes, pressures, n - 1);
      SquaredErrorSumZero(m, beta, altitudes, pressures, n - 1);
      if d != 0.0 {
        AddSquarePositive(rest, d);
      } else if rest != 0.0 {
        assert Square(d) == 0.0;
      }
    }
  }

  /**
   * The least-squares objective handed to the minimiser.  Only the first
   * entry of the parameter vector is read, and the pairs run over the shorter
   * of the two sequences.
   */
  method ObjectiveFunction(m: Math, beta: seq<real>, altitudes: seq<real>, isaPressures: seq<real>)
    returns (total: real)
    requires |beta| >= 1
    requires Min(|altitudes|, |isaPressures|) > 0 ==> beta[0] != 0.0
    ensures total == SquaredErrorSum(m, beta[0], altitudes, isaPressures, Min(|altitudes|, |isaPressures|))
    ensures total >= 0.0
  {
    var n := Min(|altitudes|, |isaPressures|);
    var b := beta[0];
    total := 0.0;
    var k := 0;
    while k < n
      invariant 0 <= k <= n
      invariant total == SquaredErrorSum(m, b, altitudes, isaPressures, k)
    {
      var expPressure := Pressure(m, altitudes[k], b);
      var d := expPressure - isaPressures[k];
      total := total + Square(d);
      k := k + 1;
    }
    SquaredErrorSumNonNegative(m, b, altitudes, isaPressures, n);
  }

  // ---------------------------------------------------------------------------
  // The fit

  /** What the minimiser is given: the sampled data, the starting point and the bounds. */
  datatype Problem = Problem(altitudes: seq<real>, isaPressures: seq<real>, initial: real, lower: real, upper: real)

  /** A bounded minimiser: whatever it returns lies within the bounds of the problem. */
  type Minimizer = f: Problem -> real | forall p: Problem :: p.lower <= p.upper ==> p.lower <= f(p) <= p.upper
    witness (p: Problem) => p.lower

  /** The standard pressure at each geometric altitude, in order. */
  function IsaPressures(m: Math, altitudes: seq<real>): (ps: seq<real>)
    requires forall k :: 0 <= k < |altitudes| ==> altitudes[k] != -RE
    ensures |ps| == |altitudes|
    ensures forall k :: 0 <= k < |ps| ==> ps[k] > 0.0
  {
    seq(|altitudes|, k requires 0 <= k < |altitudes| => CalculateFromGeometric(m, altitudes[k]).pressure)
  }

  /** The loop that collects the standard pressure at each altitude, appending in order. */
  method SampleIsaPressures(m: Math, altitudes: seq<real>) returns (isaPressures: seq<real>)
    requires forall k :: 0 <= k < |altitudes| ==> altitudes[k] != -RE
    ensures isaPressures == IsaPressures(m, altitudes)
  {
    isaPressures := [];
    for k := 0 to |altitudes|
      invariant |isaPressures| == k
      invariant forall j :: 0 <= j < k ==> isaPressures[j] == CalculateFromGeometric(m, altitudes[j]).pressure
    {
      var results := CalculateFromGeometric(m, altitudes[k]);
      isaPressures := isaPressures + [results.pressure];
    }
  }

  /** The report of one fit. */
  datatype OptimizationResult = OptimizationResult(
    optimalBeta: real,
    rmse: real,
    rmsePercentage: real,
    altitudeRange: (real, real),
    numPoints: nat)

  /** Every altitude sampled from the range is a legal geometric altitude. */
  ghost predicate SamplesDefined(hMin: real, hMax: real, n: nat)
  {
    forall k :: 0 <= k < n ==> Linspace(hMin, hMax, n)[k] != -RE
  }

  /**
   * The fit as a function of its inputs: n evenly spaced altitudes, their
   * standard pressures, the minimiser's scale height, and the root mean
   * square residual at that scale height, absolute and relative to the mean
   * standard pressure.
   */
  function Fit(m: Math, minimize: Minimizer, hMin: real, hMax: real, n: nat): (r: OptimizationResult)
    requires n >= 1 && SamplesDefined(hMin, hMax, n)
    ensures LowerBound <= r.optimalBeta <= UpperBound
    ensures r.altitudeRange == (hMin, hMax) && r.numPoints == n
    ensures r.rmse >= 0.0 && r.rmsePercentage >= 0.0
  {
    var altitudes := Linspace(hMin, hMax, n);
    var pressures := IsaPressures(m, altitudes);
    var beta := minimize(Problem(altitudes, pressures, InitialBeta, LowerBound, UpperBound));
    var residual := SquaredErrorSum(m, beta, altitudes, pressures, n);
    SquaredErrorSumNonNegative(m, beta, altitudes, pressures, n);
    DivNonNegative(residual, n as real);
    var rmse := m.sqrt(residual / (n as real));
    var mean := Mean(pressures);
    NonNegativeRatio(rmse, mean);
    OptimizationResult(beta, rmse, rmse / mean * 100.0, (hMin, hMax), n)
  }

  lemma NonNegativeRatio(x: real, y: real)
    requires x >= 0.0 && y > 0.0
    ensures x / y * 100.0 >= 0.0
  {}

  /**
   * Samples the range, collects the standard pressure at each sample, runs
   * the minimiser from 8000 m within [5000, 15000] m and reports the fit.
   */
  method OptimizeBeta(m: Math, minimize: Minimizer, hMin: real, hMax: real, numPoints: nat := DefaultNumPoints)
    returns (r: OptimizationResult)
    requires numPoints >= 1 && SamplesDefined(hMin, hMax, numPoints)
    ensures r == Fit(m, minimize, hMin, hMax, numPoints)
  {
    var altitudes := Linspace(hMin, hMax, numPoints);
    var isaPressures := SampleIsaPressures(m, altitudes);
    var beta := minimize(Problem(altitudes, isaPressures, InitialBeta, LowerBound, UpperBound));
    var residual := ObjectiveFunction(m, [beta], altitudes, isaPressures);
    var rmse := m.sqrt(residual / (|altitudes| as real));
    var avgPressure := Mean(isaPressures);
    r := OptimizationResult(beta, rmse, rmse / avgPressure * 100.0, (hMin, hMax), numPoints);
  }

  // ---------------------------------------------------------------------------
  // The comparison

  /** One comparison point: the standard pressure and both exponential models, with their errors. */
  datatype Comparison = Comparison(
    altitude: real,
    isaPressure: real,
    expOptimalPressure: real,
    expStandardPressure: real,
    optimalErrorPct: real,
    standardErrorPct: real)

  /** The fit together with its comparison points. */
  datatype Analysis = Analysis(optimization: OptimizationResult, comparisons: seq<Comparison>)

  /** Each error is the percentage deviation of the model pressure stored beside it from the stored standard pressure. */
  predicate ErrorsMatchPressures(c: Comparison)
  {
    && c.isaPressure > 0.0
    && c.optimalErrorPct == PercentError(c.expOptimalPressure, c.isaPressure)
    && c.standardErrorPct == PercentError(c.expStandardPressure, c.isaPressure)
  }

  /** The comparison at altitude h for fitted scale height beta: the standard pressure and the model at beta and at 8000 m. */
  function CompareAt(m: Math, beta: real, h: real): (c: Comparison)
    requires beta != 0.0 && h != -RE
    ensures c.altitude == h
    ensures ErrorsMatchPressures(c)
  {
    var isaResults := CalculateFromGeometric(m, h);
    var expOptimal := CalculateAll(m, h, beta);
    var expStandard := CalculateAll(m, h, ComparisonBeta);
    Comparison(h, isaResults.pressure, expOptimal.pressure, expStandard.pressure,
               PercentError(expOptimal.pressure, isaResults.pressure),
               PercentError(expStandard.pressure, isaResults.pressure))
  }

  /**
   * The two errors of a comparison point are the pressure errors the
   * exponential model reports against the standard, at the fitted scale
   * height and at 8000 m.
   */
  lemma ComparisonErrors(m: Math, beta: real, h: real)
    requires beta != 0.0 && h != -RE
    ensures CompareAt(m, beta, h).isaPressure == CalculateFromGeometric(m, h).pressure
    ensures CompareAt(m, beta, h).expOptimalPressure == Pressure(m, h, beta)
    ensures CompareAt(m, beta, h).expStandardPressure == Pressure(m, h, ComparisonBeta)
    ensures CompareAt(m, beta, h).optimalErrorPct == ErrorVsIsa(m, h, beta).pressureErrorPct
    ensures CompareAt(m, beta, h).standardErrorPct == ErrorVsIsa(m, h, ComparisonBeta).pressureErrorPct
  {
    GridRow(m, h, [beta, ComparisonBeta]);
  }

  /** The comparison points at the given altitudes, in their order. */
  method CompareAll(m: Math, beta: real, altitudes: seq<real>) returns (comparisons: seq<Comparison>)
    requires beta != 0.0 && forall k :: 0 <= k < |altitudes| ==> altitudes[k] != -RE
    ensures |comparisons| == |altitudes|
    ensures forall k :: 0 <= k < |altitudes| ==> comparisons[k] == CompareAt(m, beta, altitudes[k])
  {
    comparisons := [];
    for k := 0 to |altitudes|
      invariant |comparisons| == k
      invariant forall j :: 0 <= j < k ==> comparisons[j] == CompareAt(m, beta, altitudes[j])
    {
      comparisons := comparisons + [CompareAt(m, beta, altitudes[k])];
    }
  }

  /**
   * Fits with the default 100 samples, whatever numChartPoints is, then
   * compares the fitted and the 8000 m model against the standard at
   * numChartPoints evenly spaced altitudes, in increasing sample order.
   */
  method AnalyzeOptimization(m: Math, minimize: Minimizer, hMin: real, hMax: real, numChartPoints: nat := DefaultNumChartPoints)
    returns (a: Analysis)
    requires SamplesDefined(hMin, hMax, DefaultNumPoints) && SamplesDefined(hMin, hMax, numChartPoints)
    ensures a.optimization == Fit(m, minimize, hMin, hMax, DefaultNumPoints)
    ensures |a.comparisons| == numChartPoints
    ensures forall k :: 0 <= k < numChartPoints ==>
      a.comparisons[k] == CompareAt(m, a.optimization.optimalBeta, Linspace(hMin, hMax, numChartPoints)[k])
  {
    var optResults := OptimizeBeta(m, minimize, hMin, hMax);
    var testAltitudes := Linspace(hMin, hMax, numChartPoints);
    var comparisons := CompareAll(m, optResults.optimalBeta, testAltitudes);
    a := Analysis(optResults, comparisons);
  }
}
