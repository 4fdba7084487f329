/**
 * The single-parameter exponential atmosphere: pressure and density decay as
 * exp(-h / beta) from their sea-level values, temperature is the sea-level
 * temperature everywhere.  Also the comparison against the standard
 * atmosphere at one point and over a grid of altitudes and scale heights.
 */
module ExponentialModels {
  import opened Numerics
  import opened IsaCalculator

  /** The conventional scale height of the lower atmosphere, in metres. */
  const StandardScaleHeight: real := 8500.0

  /** P0 exp(-h / beta): the pressure of the exponential model at altitude h. */
  function Pressure(m: Math, h: real, beta: real): (p: real)
    requires beta != 0.0
    ensures p > 0.0
  {
    MulPositive(P0, m.exp(-h / beta));
    P0 * m.exp(-h / beta)
  }

  /** RHO0 exp(-h / beta): the density of the exponential model at altitude h. */
  function Density(m: Math, h: real, beta: real): (rho: real)
    requires beta != 0.0
    ensures rho > 0.0
  {
    MulPositive(RHO0, m.exp(-h / beta));
    RHO0 * m.exp(-h / beta)
  }

  /** The model is isothermal: the temperature ignores both arguments. */
  function Temperature(h: real, beta: real): (t: real)
    ensures t == T0
  {
    T0
  }

  /** At sea level the model returns the sea-level reference values for every scale height. */
  lemma SeaLevelValues(m: Math, beta: real)
    requires beta != 0.0
    ensures Pressure(m, 0.0, beta) == P0 && Density(m, 0.0, beta) == RHO0
  {
    assert -0.0 / beta == 0.0;
  }

  /** One scale height up, pressure has fallen by the factor e. */
  lemma PressureAtScaleHeight(m: Math, beta: real)
    requires beta != 0.0
    ensures Pressure(m, beta, beta) == P0 * m.exp(-1.0)
  {
    assert -beta / beta == -1.0;
  }

  /** With a positive scale height, pressure and density fall strictly as altitude rises. */
  lemma StrictlyDecreasing(m: Math, h1: real, h2: real, beta: real)
    requires beta > 0.0 && h1 < h2
    ensures Pressure(m, h2, beta) < Pressure(m, h1, beta)
    ensures Density(m, h2, beta) < Density(m, h1, beta)
  {
    DivMonotone(-h2, -h1, beta);
    ExpIncreasing(m, -h2 / beta, -h1 / beta);
  }

  /** With a positive scale height the pressure is below P0 exactly above sea level. */
  lemma BelowSeaLevelPressure(m: Math, h: real, beta: real)
    requires beta > 0.0
    ensures Pressure(m, h, beta) < P0 <==> h > 0.0
  {
    ExpBelowOne(m, -h / beta);
    if h > 0.0 {
      DivMonotone(-h, 0.0, beta);
    } else {
      DivMonotone(0.0, -h + 1.0, beta);
      assert -h / beta >= 0.0 by {
        if h < 0.0 {
          DivMonotone(0.0, -h, beta);
        }
      }
    }
  }

  /** Density is pressure scaled by RHO0 / P0: both decay with the same factor. */
  lemma DensityTracksPressure(m: Math, h: real, beta: real)
    requires beta != 0.0
    ensures Density(m, h, beta) * P0 == Pressure(m, h, beta) * RHO0
  {}

  /** The exponential model's state at one altitude, echoing the scale height it used. */
  datatype ExponentialState = ExponentialState(
    pressure: real,
    density: real,
    temperatureK: real,
    temperatureC: real,
    speedOfSound: real,
    scaleHeight: real)

  function CalculateAll(m: Math, h: real, beta: real): (s: ExponentialState)
    requires beta != 0.0
    ensures s.scaleHeight == beta
    ensures s.pressure == Pressure(m, h, beta) && s.density == Density(m, h, beta)
    ensures s.temperatureK == T0 && s.temperatureC == 15.0
  {
    var t := Temperature(h, beta);
    ExponentialState(Pressure(m, h, beta), Density(m, h, beta), t, t - KelvinOffset,
                     m.sqrt(GAMMA * R * t), beta)
  }

  /**
   * The speed of sound does not depend on altitude or scale height: it is
   * the standard atmosphere's speed of sound at sea level.
   */
  lemma SpeedOfSoundConstant(m: Math, h: real, beta: real)
    requires beta != 0.0
    ensures CalculateAll(m, h, beta).speedOfSound == Isa(m, 0.0).speedOfSound
  {
    SeaLevel(m);
  }

  /** Percentage errors of the exponential model, with the standard atmosphere as reference. */
  datatype ModelErrors = ModelErrors(pressureErrorPct: real, densityErrorPct: real, temperatureErrorPct: real)

  /**
   * Each error is (model - standard) / standard * 100 at geometric altitude h;
   * a positive error means the exponential model over-predicts.
   */
  function ErrorVsIsa(m: Math, h: real, beta: real): (e: ModelErrors)
    requires beta != 0.0 && h != -RE
    ensures var isa := CalculateFromGeometric(m, h);
      && (e.pressureErrorPct > 0.0 <==> Pressure(m, h, beta) > isa.pressure)
      && (e.pressureErrorPct == 0.0 <==> Pressure(m, h, beta) == isa.pressure)
      && (e.densityErrorPct > 0.0 <==> Density(m, h, beta) > isa.density)
      && (e.densityErrorPct == 0.0 <==> Density(m, h, beta) == isa.density)
      && (e.temperatureErrorPct > 0.0 <==> T0 > isa.temperatureK)
      && (e.temperatureErrorPct == 0.0 <==> T0 == isa.temperatureK)
    ensures var isa := CalculateFromGeometric(m, h);
      e == ModelErrors(
        PercentError(Pressure(m, h, beta), isa.pressure),
        PercentError(Density(m, h, beta), isa.density),
        PercentError(T0, isa.temperatureK))
  {
    var isa := CalculateFromGeometric(m, h);
    var model := CalculateAll(m, h, beta);
    ModelErrors(
      PercentError(model.pressure, isa.pressure),
      PercentError(model.density, isa.density),
      PercentError(model.temperatureK, isa.temperatureK))
  }

  /** At sea level the model's pressure and temperature are exact for every scale height. */
  lemma NoPressureOrTemperatureErrorAtSeaLevel(m: Math, beta: real)
    requires beta != 0.0
    ensures ErrorVsIsa(m, 0.0, beta).pressureErrorPct == 0.0
    ensures ErrorVsIsa(m, 0.0, beta).temperatureErrorPct == 0.0
  {
    SeaLevelValues(m, beta);
    GeometricSeaLevel(m);
    SeaLevel(m);
  }

  /**
   * The model's constant temperature is never below the standard temperature
   * at or above sea level, so its temperature error there is never negative.
   */
  lemma NeverColderAboveSeaLevel(m: Math, h: real, beta: real)
    requires h >= 0.0 && beta != 0.0
    ensures ErrorVsIsa(m, h, beta).temperatureErrorPct >= 0.0
  {
    GeopotentialBelowGeometric(h);
    WarmestAtSeaLevel(m, GeometricToGeopotential(h));
  }

  /** A row of the grid computed from the row's standard pressure holds the errors ErrorVsIsa reports. */
  lemma GridRow(m: Math, h: real, betas: seq<real>)
    requires h != -RE && forall j :: 0 <= j < |betas| ==> betas[j] != 0.0
    ensures forall c :: 0 <= c < |betas| ==>
      PercentError(Pressure(m, h, betas[c]), CalculateFromGeometric(m, h).pressure)
        == ErrorVsIsa(m, h, betas[c]).pressureErrorPct
  {}

  /** Grid dimensions used when the caller gives none. */
  const DefaultNumBeta: nat := 50
  const DefaultNumAlt: nat := 100

  /**
   * Fills an altitude-by-scale-height matrix of pressure errors: row i holds
   * the altitude altitudes[i], column j the scale height betas[j], both
   * evenly spaced over their ranges.  The standard pressure is computed once
   * per row.
   */
  method GenerateErrorGrid(m: Math, betaMin: real, betaMax: real, altMin: real, altMax: real,
                           numBeta: nat := DefaultNumBeta, numAlt: nat := DefaultNumAlt)
    returns (betas: seq<real>, altitudes: seq<real>, errors: array2<real>)
    requires forall j :: 0 <= j < numBeta ==> Linspace(betaMin, betaMax, numBeta)[j] != 0.0
    requires forall i :: 0 <= i < numAlt ==> Linspace(altMin, altMax, numAlt)[i] != -RE
    ensures betas == Linspace(betaMin, betaMax, numBeta)
    ensures altitudes == Linspace(altMin, altMax, numAlt)
    ensures fresh(errors)
    ensures errors.Length0 == numAlt && errors.Length1 == numBeta
    ensures forall i, j :: 0 <= i < numAlt && 0 <= j < numBeta ==>
      errors[i, j] == ErrorVsIsa(m, altitudes[i], betas[j]).pressureErrorPct
  {
    betas := Linspace(betaMin, betaMax, numBeta);
    altitudes := Linspace(altMin, altMax, numAlt);
    errors := new real[numAlt, numBeta];
    var i := 0;
    while i < numAlt
      invariant 0 <= i <= numAlt
      invariant forall r, c :: 0 <= r < i && 0 <= c < numBeta ==>
        errors[r, c] == ErrorVsIsa(m, altitudes[r], betas[c]).pressureErrorPct
    {
      var h := altitudes[i];
      var isaPressure := CalculateFromGeometric(m, h).pressure;
      FillRow(m, errors, i, h, isaPressure, betas);
      GridRow(m, h, betas);
      i := i + 1;
    }
  }

  /**
   * The inner loop of the grid: row i gets the percentage error of the model
   * pressure at altitude h against the standard pressure isaPressure, for
   * every scale height; no other row changes.
   */
  method FillRow(m: Math, errors: array2<real>, i: nat, h: real, isaPressure: real, betas: seq<real>)
    requires i < errors.Length0 && errors.Length1 == |betas|
    requires isaPressure > 0.0 && forall j :: 0 <= j < |betas| ==> betas[j] != 0.0
    modifies errors
    ensures forall c :: 0 <= c < |betas| ==> errors[i, c] == PercentError(Pressure(m, h, betas[c]), isaPressure)
    ensures forall r, c :: 0 <= r < errors.Length0 && r != i && 0 <= c < errors.Length1 ==>
      errors[r, c] == old(errors[r, c])
  {
    var j := 0;
    while j < |betas|
      invariant 0 <= j <= |betas|
      invariant forall c :: 0 <= c < j ==> errors[i, c] == PercentError(Pressure(m, h, betas[c]), isaPressure)
      invariant forall r, c :: 0 <= r < errors.Length0 && r != i && 0 <= c < errors.Length1 ==>
        errors[r, c] == old(errors[r, c])
    {
      var expPressure := Pressure(m, h, betas[j]);
      errors[i, j] := PercentError(expPressure, isaPressure);
      j := j + 1;
    }
  }
}
