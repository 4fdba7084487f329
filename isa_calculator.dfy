/**
 * The layered standard atmosphere of ISO 2533:1975 (the same eight layers as
 * the U.S. Standard Atmosphere 1976 below 86 km): the altitude conversions,
 * the layer search, the recursive evaluator and the two report builders.
 *
 * Everything here is a pure function of its arguments; the layer table is a
 * constant that nothing writes.
 */
module IsaCalculator {
  import opened Numerics

  // Physical constants of the standard (ISO 2533:1975 values).
  const R: real := 287.05287      // specific gas constant of dry air, J/(kg K)
  const GAMMA: real := 1.4        // ratio of specific heats of dry air
  const G0: real := 9.80665       // standard gravitational acceleration, m/s^2
  const RE: real := 6356766.0     // Earth radius used for geopotential altitude, m

  // Sea-level reference state.
  const T0: real := 288.15        // K
  const P0: real := 101325.0      // Pa
  const RHO0: real := 1.225       // kg/m^3

  /** Offset between kelvin and degrees Celsius. */
  const KelvinOffset: real := 273.15

  /** A lapse rate whose magnitude is below this value marks an isothermal layer. */
  const IsothermalTolerance: real := 0.0000000001

  /** One row of the layer table: where the layer starts, its temperature there, and dT/dh. */
  datatype Layer = Layer(baseAltitude: real, baseTemperature: real, lapseRate: real)

  const Layers: seq<Layer> := [
    Layer(0.0, 288.15, -0.0065),       // troposphere
    Layer(11000.0, 216.65, 0.0),       // tropopause
    Layer(20000.0, 216.65, 0.001),     // lower stratosphere
    Layer(32000.0, 228.65, 0.0028),    // upper stratosphere
    Layer(47000.0, 270.65, 0.0),       // stratopause
    Layer(51000.0, 270.65, -0.0028),   // lower mesosphere
    Layer(71000.0, 214.65, -0.002),    // upper mesosphere
    Layer(86000.0, 186.946, 0.0)       // mesopause and above
  ]

  /** The top layer, used for every altitude above its base. */
  const TopLayer: nat := |Layers| - 1

  /** The coldest temperature of the profile, reached at the top of the 71 km layer. */
  const MinimumTemperature: real := 184.65

  /** The evaluator's result: temperature (K), pressure (Pa), density (kg/m^3), speed of sound (m/s). */
  datatype Atmosphere = Atmosphere(temperature: real, pressure: real, density: real, speedOfSound: real)

  /** Eight layers whose base altitudes increase strictly, from sea level to 86 km. */
  lemma LayerTableShape()
    ensures |Layers| == 8 && TopLayer == 7
    ensures Layers[0].baseAltitude == 0.0 && Layers[TopLayer].baseAltitude == 86000.0
    ensures forall i, j :: 0 <= i < j < |Layers| ==> Layers[i].baseAltitude < Layers[j].baseAltitude
  {}

  // ---------------------------------------------------------------------------
  // Altitude conversions

  /**
   * Geometric altitude to geopotential altitude; the source divides by RE + h.
   * Above the Earth's centre the conversion keeps the sign of the altitude.
   */
  function GeometricToGeopotential(h: real): (g: real)
    requires h != -RE
  {
    (RE * h) / (RE + h)
  }

  /**
   * Geopotential altitude to geometric altitude; the source divides by RE - h.
   * Below RE the conversion keeps the sign of the altitude.
   */
  function GeopotentialToGeometric(h: real): (x: real)
    requires h != RE
  {
    (RE * h) / (RE - h)
  }

  /** Converting to geopotential altitude and back gives the altitude one started from. */
  lemma GeometricRoundTrip(h: real)
    requires h != -RE
    ensures GeometricToGeopotential(h) != RE
    ensures GeopotentialToGeometric(GeometricToGeopotential(h)) == h
  {
    var d := RE + h;
    var g := GeometricToGeopotential(h);
    assert g * d == RE * h;
    assert (RE - g) * d == RE * RE;
    var x := GeopotentialToGeometric(g);
    assert x * (RE - g) == RE * g;
  }

  /** The other composition is the identity too: the two maps are inverse bijections. */
  lemma GeopotentialRoundTrip(h: real)
    requires h != RE
    ensures GeopotentialToGeometric(h) != -RE
    ensures GeometricToGeopotential(GeopotentialToGeometric(h)) == h
  {
    var d := RE - h;
    var x := GeopotentialToGeometric(h);
    assert x * d == RE * h;
    assert (RE + x) * d == RE * RE;
  }

  /** Above sea level the geopotential altitude is positive and strictly below the geometric one; at sea level both are 0. */
  lemma GeopotentialBelowGeometric(h: real)
    requires h >= 0.0
    ensures h == 0.0 ==> GeometricToGeopotential(h) == 0.0
    ensures h > 0.0 ==> 0.0 < GeometricToGeopotential(h) < h
  {
    var g := GeometricToGeopotential(h);
    assert g * (RE + h) == RE * h;
  }

  /** The difference between the two altitudes is h^2 / (RE + h). */
  lemma AltitudeDifference(h: real)
    requires h != -RE
    ensures h - GeometricToGeopotential(h) == (h * h) / (RE + h)
  {
    var d := RE + h;
    var g := GeometricToGeopotential(h);
    assert g * d == RE * h;
    assert (h - g) * d == h * h;
  }

  // ---------------------------------------------------------------------------
  // Layer search

  /**
   * The loop of the layer search, from index i on: the first layer whose next
   * base is not below h, or the top layer when h exceeds every boundary.
   */
  function FindLayer(h: real, i: nat): (r: nat)
    requires i <= TopLayer
    ensures i <= r <= TopLayer
    ensures forall k :: i < k <= r ==> h > Layers[k].baseAltitude
    ensures r < TopLayer ==> h <= Layers[r + 1].baseAltitude
    decreases TopLayer - i
  {
    if i == TopLayer then TopLayer
    else if h <= Layers[i + 1].baseAltitude then i
    else FindLayer(h, i + 1)
  }

  /** The index of the layer holding geopotential altitude h. */
  function GetLayer(h: real): (i: nat)
    ensures i <= TopLayer
    ensures forall k :: 0 < k <= i ==> h > Layers[k].baseAltitude
    ensures i < TopLayer ==> h <= Layers[i + 1].baseAltitude
  {
    FindLayer(h, 0)
  }

  /**
   * Layer i covers the altitudes above its base up to and including the next
   * base; the bottom layer extends downwards without limit and the top layer
   * upwards.
   */
  ghost predicate InLayer(h: real, i: nat)
    requires i <= TopLayer
  {
    && (i == 0 || Layers[i].baseAltitude < h)
    && (i == TopLayer || h <= Layers[i + 1].baseAltitude)
  }

  /** The search returns exactly the layer whose range holds h: each range is closed at the top. */
  lemma GetLayerIsInLayer(h: real, i: nat)
    requires i <= TopLayer
    ensures GetLayer(h) == i <==> InLayer(h, i)
  {
    LayerTableShape();
    var j := GetLayer(h);
    if j < i {
      assert h <= Layers[j + 1].baseAltitude <= Layers[i].baseAltitude;
    } else if j > i {
      assert h > Layers[i + 1].baseAltitude;
    }
  }

  /** Everything up to 11 km, negative altitudes included, is in the bottom layer; everything above 86 km in the top layer. */
  lemma GetLayerExtremes(h: real)
    ensures h <= 11000.0 ==> GetLayer(h) == 0
    ensures h > 86000.0 ==> GetLayer(h) == TopLayer
  {
    GetLayerIsInLayer(h, 0);
    GetLayerIsInLayer(h, TopLayer);
  }

  /** A boundary altitude belongs to the layer below it. */
  lemma BoundaryInLowerLayer(i: nat)
    requires 1 <= i <= TopLayer
    ensures GetLayer(Layers[i].baseAltitude) == i - 1
  {
    LayerTableShape();
    GetLayerIsInLayer(Layers[i].baseAltitude, i - 1);
  }

  // ---------------------------------------------------------------------------
  // The profile inside one layer

  function Abs(x: real): real
  {
    if x < 0.0 then -x else x
  }

  predicate IsIsothermal(layer: Layer)
  {
    Abs(layer.lapseRate) < IsothermalTolerance
  }

  /** The table fixes the branch: layers 1, 4 and 7 are isothermal, all others use the power law. */
  lemma IsothermalLayers(i: nat)
    requires i <= TopLayer
    ensures IsIsothermal(Layers[i]) <==> (i == 1 || i == 4 || i == 7)
  {}

  /**
   * The linear temperature of layer i, evaluated at h.  It differs from the
   * layer's base temperature except at the base itself or in a layer with
   * zero lapse rate.
   */
  function LayerTemperature(i: nat, h: real): (t: real)
    requires i <= TopLayer
    ensures t == Layers[i].baseTemperature <==> (h == Layers[i].baseAltitude || Layers[i].lapseRate == 0.0)
  {
    Layers[i].baseTemperature + Layers[i].lapseRate * (h - Layers[i].baseAltitude)
  }

  /** Inside its own range every layer is at least as warm as 184.65 K. */
  lemma TemperatureFloor(h: real)
    ensures LayerTemperature(GetLayer(h), h) >= MinimumTemperature
  {
    GetLayerIsInLayer(h, GetLayer(h));
  }

  /**
   * Pressure at h by the formula of layer i, starting from the pressure pBase
   * at the layer's base: exponential decay in an isothermal layer, the power
   * law (T / T_base)^(-G0 / (L R)) otherwise.
   */
  function LayerPressure(m: Math, i: nat, h: real, pBase: real): real
    requires i <= TopLayer && LayerTemperature(i, h) > 0.0
  {
    var layer := Layers[i];
    var dh := h - layer.baseAltitude;
    if IsIsothermal(layer) then
      pBase * m.exp(-G0 * dh / (R * layer.baseTemperature))
    else
      pBase * m.pow(LayerTemperature(i, h) / layer.baseTemperature, -G0 / (layer.lapseRate * R))
  }

  /** The layer formula scales a positive base pressure by a positive factor. */
  lemma LayerPressurePositive(m: Math, i: nat, h: real, pBase: real)
    requires i <= TopLayer && LayerTemperature(i, h) > 0.0 && pBase > 0.0
    ensures LayerPressure(m, i, h, pBase) > 0.0
  {
    var layer := Layers[i];
    var dh := h - layer.baseAltitude;
    if IsIsothermal(layer) {
      MulPositive(pBase, m.exp(-G0 * dh / (R * layer.baseTemperature)));
    } else {
      DivPositive(LayerTemperature(i, h), layer.baseTemperature);
      MulPositive(pBase, m.pow(LayerTemperature(i, h) / layer.baseTemperature, -G0 / (layer.lapseRate * R)));
    }
  }

  /** At its own base the layer formula returns the base pressure unchanged (exp(0) = 1, 1^e = 1). */
  lemma LayerPressureAtBase(m: Math, i: nat, pBase: real)
    requires i <= TopLayer
    ensures LayerTemperature(i, Layers[i].baseAltitude) == Layers[i].baseTemperature > 0.0
    ensures LayerPressure(m, i, Layers[i].baseAltitude, pBase) == pBase
  {
    var layer := Layers[i];
    assert -G0 * 0.0 / (R * layer.baseTemperature) == 0.0;
    assert LayerTemperature(i, layer.baseAltitude) / layer.baseTemperature == 1.0;
  }

  // ---------------------------------------------------------------------------
  // The evaluator

  /**
   * The standard atmosphere at geopotential altitude h.  The base pressure of
   * layer i > 0 is the pressure the evaluator itself returns at that layer's
   * base altitude, which lies in layer i - 1, so the recursion descends one
   * layer per call and stops at sea level with P0.
   */
  function Isa(m: Math, h: real): (s: Atmosphere)
    ensures s.temperature >= MinimumTemperature
    ensures s.pressure > 0.0 && s.density > 0.0 && s.speedOfSound > 0.0
    ensures IdealGas(s) && SoundSpeed(m, s)
    decreases GetLayer(h), 1
  {
    var i := GetLayer(h);
    TemperatureFloor(h);
    var t := LayerTemperature(i, h);
    var pBase := if i == 0 then P0 else BasePressureFromBelow(m, i);
    LayerPressurePositive(m, i, h, pBase);
    var p := LayerPressure(m, i, h, pBase);
    StateAt(m, t, p)
  }

  /** The pressure the evaluator returns at the base of layer i >= 1, computed in layer i - 1. */
  function BasePressureFromBelow(m: Math, i: nat): (p: real)
    requires 1 <= i <= TopLayer
    ensures p > 0.0
    decreases i, 0
  {
    BoundaryInLowerLayer(i);
    Isa(m, Layers[i].baseAltitude).pressure
  }

  /** The ideal gas law P = rho R T, which ties the density of a state to its pressure and temperature. */
  predicate IdealGas(s: Atmosphere)
  {
    s.density * (R * s.temperature) == s.pressure
  }

  /** The speed of sound of an ideal gas, sqrt(gamma R T), at the state's temperature. */
  predicate SoundSpeed(m: Math, s: Atmosphere)
  {
    s.speedOfSound == m.sqrt(GAMMA * R * s.temperature)
  }

  /** The state with temperature t and pressure p: density from the ideal gas law, speed of sound sqrt(gamma R T). */
  function StateAt(m: Math, t: real, p: real): (s: Atmosphere)
    requires t > 0.0 && p > 0.0
    ensures s.temperature == t && s.pressure == p
    ensures s.density > 0.0 && s.speedOfSound > 0.0
    ensures IdealGas(s) && SoundSpeed(m, s)
  {
    var rho := p / (R * t);
    DivideBack(p, R * t, rho);
    Atmosphere(t, p, rho, m.sqrt(GAMMA * R * t))
  }

  // ---------------------------------------------------------------------------
  // The base-pressure chain

  /** The top of layer i - 1 is the base of layer i, and the lower layer is still warm there. */
  lemma TopOfLowerLayer(i: nat)
    requires 1 <= i <= TopLayer
    ensures LayerTemperature(i - 1, Layers[i].baseAltitude) >= MinimumTemperature
  {
    BoundaryInLowerLayer(i);
    TemperatureFloor(Layers[i].baseAltitude);
  }

  /**
   * Reference definition of the pressure at the base of layer i, by induction
   * on the layer index: P0 at sea level, otherwise the formula of layer i - 1
   * carried from its base pressure up to its top.
   */
  function BasePressure(m: Math, i: nat): (p: real)
    requires i <= TopLayer
    ensures p > 0.0
  {
    if i == 0 then P0
    else
      TopOfLowerLayer(i);
      var below := BasePressure(m, i - 1);
      LayerPressurePositive(m, i - 1, Layers[i].baseAltitude, below);
      LayerPressure(m, i - 1, Layers[i].baseAltitude, below)
  }

  /**
   * The evaluator at h is the formula of h's own layer, started from that
   * layer's base pressure: the recursion in the evaluator computes exactly the
   * chain of base pressures from sea level upwards.
   */
  lemma {:induction false} IsaUsesBasePressure(m: Math, h: real)
    ensures Isa(m, h).pressure == LayerPressure(m, GetLayer(h), h, BasePressure(m, GetLayer(h)))
    decreases GetLayer(h)
  {
    var i := GetLayer(h);
    if i > 0 {
      var b := Layers[i].baseAltitude;
      BoundaryInLowerLayer(i);
      IsaUsesBasePressure(m, b);
      IsaPressureFromBelow(m, h);
    }
  }

  /** Above the bottom layer the evaluator starts from its own pressure at the layer's base. */
  lemma IsaPressureFromBelow(m: Math, h: real)
    requires GetLayer(h) > 0
    ensures LayerTemperature(GetLayer(h), h) > 0.0
    ensures Isa(m, h).pressure
      == LayerPressure(m, GetLayer(h), h, Isa(m, Layers[GetLayer(h)].baseAltitude).pressure)
  {
    TemperatureFloor(h);
  }

  /**
   * At a layer boundary the evaluator returns that layer's base pressure, and
   * the two layers' formulas agree at the boundary.
   */
  lemma IsaAtBoundary(m: Math, i: nat)
    requires 1 <= i <= TopLayer
    ensures Isa(m, Layers[i].baseAltitude).pressure == BasePressure(m, i)
    ensures LayerPressure(m, i, Layers[i].baseAltitude, BasePressure(m, i)) == BasePressure(m, i)
  {
    BoundaryInLowerLayer(i);
    IsaUsesBasePressure(m, Layers[i].baseAltitude);
    LayerPressureAtBase(m, i, BasePressure(m, i));
  }

  /** At sea level the evaluator returns the reference temperature and pressure. */
  lemma SeaLevel(m: Math)
    ensures Isa(m, 0.0).temperature == T0 && Isa(m, 0.0).pressure == P0
  {
    GetLayerExtremes(0.0);
    IsaUsesBasePressure(m, 0.0);
    LayerPressureAtBase(m, 0, P0);
  }

  // ---------------------------------------------------------------------------
  // The temperature profile

  /**
   * The piecewise-linear temperature of the standard, written out layer by
   * layer with each range closed at the top.
   */
  function StandardTemperature(h: real): real
  {
    if h <= 11000.0 then 288.15 - 0.0065 * h
    else if h <= 20000.0 then 216.65
    else if h <= 32000.0 then 216.65 + 0.001 * (h - 20000.0)
    else if h <= 47000.0 then 228.65 + 0.0028 * (h - 32000.0)
    else if h <= 51000.0 then 270.65
    else if h <= 71000.0 then 270.65 - 0.0028 * (h - 51000.0)
    else if h <= 86000.0 then 214.65 - 0.002 * (h - 71000.0)
    else 186.946
  }

  /** The evaluator's temperature is the standard profile at every altitude. */
  lemma IsaTemperatureProfile(m: Math, h: real)
    ensures Isa(m, h).temperature == StandardTemperature(h)
  {
    LayerTemperatureProfile(h);
  }

  /** The linear formula of the layer the search selects is the standard profile. */
  lemma LayerTemperatureProfile(h: real)
    ensures LayerTemperature(GetLayer(h), h) == StandardTemperature(h)
  {
    var i := GetLayer(h);
    GetLayerIsInLayer(h, i);
    if i == 0 {
      assert h <= 11000.0;
    } else if i == 1 {
      assert 11000.0 < h <= 20000.0;
    } else if i == 2 {
      assert 20000.0 < h <= 32000.0;
    } else if i == 3 {
      assert 32000.0 < h <= 47000.0;
    } else if i == 4 {
      assert 47000.0 < h <= 51000.0;
    } else if i == 5 {
      assert 51000.0 < h <= 71000.0;
    } else if i == 6 {
      assert 71000.0 < h <= 86000.0;
    } else {
      assert 86000.0 < h;
    }
  }

  /** Sea level is the warmest point of the profile at or above sea level. */
  lemma WarmestAtSeaLevel(m: Math, h: real)
    requires h >= 0.0
    ensures Isa(m, h).temperature <= T0
  {
    IsaTemperatureProfile(m, h);
  }

  /** Below 86 km the table is continuous: each base temperature is where the layer below ends. */
  lemma TemperatureContinuous(i: nat)
    requires 1 <= i < TopLayer
    ensures LayerTemperature(i - 1, Layers[i].baseAltitude) == Layers[i].baseTemperature
  {}

  /**
   * At 86 km it is not: the 71 km layer ends at 184.65 K while the top layer
   * starts at 186.946 K, so the evaluator jumps by 2.296 K just above 86 km.
   */
  lemma TemperatureJumpAtTopBase()
    ensures LayerTemperature(TopLayer - 1, Layers[TopLayer].baseAltitude) == MinimumTemperature
    ensures Layers[TopLayer].baseTemperature == 186.946
    ensures Layers[TopLayer].baseTemperature - MinimumTemperature == 2.296
  {}

  // ---------------------------------------------------------------------------
  // Reports

  /** The evaluator's state at a geometric altitude, with Celsius temperature and sea-level ratios. */
  datatype GeometricReport = GeometricReport(
    geometricAltitude: real,
    geopotentialAltitude: real,
    temperatureK: real,
    temperatureC: real,
    pressure: real,
    density: real,
    speedOfSound: real,
    pressureRatio: real,
    densityRatio: real)

  /**
   * The state at geometric altitude h: converted to geopotential altitude
   * first, then evaluated.
   */
  function CalculateFromGeometric(m: Math, h: real): (r: GeometricReport)
    requires h != -RE
    ensures r.geometricAltitude == h
    ensures r.geopotentialAltitude != RE && GeopotentialToGeometric(r.geopotentialAltitude) == h
    ensures var s := Isa(m, r.geopotentialAltitude);
      r.temperatureK == s.temperature && r.pressure == s.pressure
      && r.density == s.density && r.speedOfSound == s.speedOfSound
    ensures r.temperatureC + KelvinOffset == r.temperatureK
    ensures r.temperatureC >= MinimumTemperature - KelvinOffset
    ensures r.pressureRatio > 0.0 && r.densityRatio > 0.0
  {
    GeometricRoundTrip(h);
    var g := GeometricToGeopotential(h);
    var s := Isa(m, g);
    DivPositive(s.pressure, P0);
    DivPositive(s.density, RHO0);
    GeometricReport(h, g, s.temperature, s.temperature - KelvinOffset, s.pressure,
                    s.density, s.speedOfSound, s.pressure / P0, s.density / RHO0)
  }

  /** The ratios scale back to the absolute values: P = ratio * P0 and rho = ratio * RHO0. */
  lemma RatiosScaleBack(m: Math, h: real)
    requires h != -RE
    ensures CalculateFromGeometric(m, h).pressureRatio * P0 == CalculateFromGeometric(m, h).pressure
    ensures CalculateFromGeometric(m, h).densityRatio * RHO0 == CalculateFromGeometric(m, h).density
  {
    var r := CalculateFromGeometric(m, h);
    DivideBack(r.pressure, P0, r.pressureRatio);
    DivideBack(r.density, RHO0, r.densityRatio);
  }

  /** At sea level the report shows 15 degrees Celsius and a pressure ratio of exactly 1. */
  lemma GeometricSeaLevel(m: Math)
    ensures CalculateFromGeometric(m, 0.0).geopotentialAltitude == 0.0
    ensures CalculateFromGeometric(m, 0.0).temperatureC == 15.0
    ensures CalculateFromGeometric(m, 0.0).pressureRatio == 1.0
  {
    GeopotentialBelowGeometric(0.0);
    SeaLevel(m);
  }

  /** The effect of evaluating at the geometric altitude instead of the geopotential one. */
  datatype ErrorReport = ErrorReport(
    altitudeDifference: real,
    altitudeErrorPct: real,
    temperatureErrorPct: real,
    pressureErrorPct: real,
    densityErrorPct: real,
    speedOfSoundErrorPct: real)

  /** The altitude error in percent of h; zero when h is not above sea level. */
  function AltitudeErrorPct(h: real, difference: real): (r: real)
    ensures h <= 0.0 ==> r == 0.0
    ensures h > 0.0 ==> r * h == difference * 100.0
  {
    if h > 0.0 then
      DivideBackAny(difference, h);
      difference / h * 100.0
    else 0.0
  }

  /**
   * Percentage errors of the state computed at the geometric altitude taken as
   * if it were geopotential, relative to the properly converted state.
   */
  function CalculateError(m: Math, h: real): (e: ErrorReport)
    requires h != -RE
    ensures var proper := CalculateFromGeometric(m, h);
      var approx := Isa(m, h);
      && e.altitudeDifference == h - proper.geopotentialAltitude
      && e.temperatureErrorPct == PercentError(approx.temperature, proper.temperatureK)
      && e.pressureErrorPct == PercentError(approx.pressure, proper.pressure)
      && e.densityErrorPct == PercentError(approx.density, proper.density)
      && e.speedOfSoundErrorPct == PercentError(approx.speedOfSound, proper.speedOfSound)
    ensures h <= 0.0 ==> e.altitudeErrorPct == 0.0
    ensures e.altitudeErrorPct == AltitudeErrorPct(h, e.altitudeDifference)
  {
    var proper := CalculateFromGeometric(m, h);
    var approx := Isa(m, h);
    var difference := h - proper.geopotentialAltitude;
    ErrorReport(
      difference,
      AltitudeErrorPct(h, difference),
      PercentError(approx.temperature, proper.temperatureK),
      PercentError(approx.pressure, proper.pressure),
      PercentError(approx.density, proper.density),
      PercentError(approx.speedOfSound, proper.speedOfSound))
  }

  /**
   * Above sea level the altitude error is h / (RE + h) in percent: positive,
   * below 100, and growing with h.
   */
  lemma AltitudeErrorAboveSeaLevel(m: Math, h: real)
    requires h > 0.0
    ensures CalculateError(m, h).altitudeDifference == (h * h) / (RE + h)
    ensures CalculateError(m, h).altitudeErrorPct == h / (RE + h) * 100.0
    ensures 0.0 < CalculateError(m, h).altitudeErrorPct < 100.0
  {
    AltitudeDifference(h);
    RelativeAltitudeError(h);
  }

  lemma RelativeAltitudeError(h: real)
    requires h > 0.0
    ensures AltitudeErrorPct(h, (h * h) / (RE + h)) == h / (RE + h) * 100.0
    ensures 0.0 < h / (RE + h) < 1.0
  {
    var d := (h * h) / (RE + h);
    var q := d / h;
    assert d * (RE + h) == h * h;
    assert q * h == d;
    assert (q * (RE + h)) * h == h * h;
    CancelPositive(q * (RE + h), h, h);
    var r := h / (RE + h);
    assert r * (RE + h) == h;
    CancelPositive(q, r, RE + h);
    assert r < 1.0;
  }

  /** At sea level both altitudes are 0, so every error vanishes. */
  lemma NoErrorAtSeaLevel(m: Math)
    ensures CalculateError(m, 0.0) == ErrorReport(0.0, 0.0, 0.0, 0.0, 0.0, 0.0)
  {
    GeopotentialBelowGeometric(0.0);
  }
}
