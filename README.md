# ISA atmosphere calculator, exponential models and scale-height fit — a Dafny model

This project models the computational core of an atmosphere calculator.

- **The standard atmosphere.** `IsaCalculator` holds the 8-layer International Standard Atmosphere of ISO 2533:1975, the same table as the U.S. Standard Atmosphere 1976 below 86 km:
  - conversion between geometric and geopotential altitude;
  - the layer search;
  - the recursive evaluator of temperature, pressure, density and speed of sound;
  - the report for a geometric altitude;
  - the report of the error made by skipping the altitude conversion.
- **The exponential model.** `ExponentialModels` holds the single-parameter model `P0·exp(-h/β)`, `ρ0·exp(-h/β)`, `T = T0`:
  - its percentage errors against the standard atmosphere;
  - the altitude × scale-height error grid, filled in place in a 2-D array by nested loops.
- **The fit.** `Optimizer` holds the scale-height fit:
  - the least-squares objective loop;
  - the sampling of standard pressures;
  - the fit report;
  - the point-by-point comparison of the fitted model and the fixed 8000 m model.
- **Shared numerics.** `Numerics` supplies the real-number vocabulary:
  - the laws assumed of `exp`, `pow` and `sqrt`;
  - percentage error, evenly spaced samples (linspace), mean;
  - small lemmas about products and quotients.

All quantities are Dafny `real`s. The three transcendental operations are passed in as a value of type `Math`. That is a record of three total functions, constrained to obey a few laws:
- `exp(0) = 1`;
- `exp` is positive and strictly increasing;
- `pow(b, e) > 0` for `b > 0`;
- `pow(1, e) = 1`;
- `sqrt` is non-negative on non-negative arguments and positive on positive ones.

Every result proved here therefore holds for the real exp, power and square root. No result depends on their particular values.

The SciPy minimiser is a parameter of type `Minimizer`. It can be any function from the problem data (samples, starting point, bounds) to a scale height within the bounds.

Some points of behaviour follow the code:
- **Layer ranges.** A boundary altitude belongs to the lower layer: layer *i* covers `(base_i, base_{i+1}]`, because the search compares with `<=` (src/isa_calculator.py:155). A half-open description `[base_i, base_{i+1})` of the layers would put boundaries in the upper layer. The model follows the code (`GetLayerIsInLayer`, `BoundaryInLowerLayer`).
- **Temperature jump at 86 km.** The temperature profile is continuous at every boundary from 11 km to 71 km (`TemperatureContinuous`). It is not continuous at 86 km:
  - the 71 km layer reaches 184.65 K at 86000 m geopotential;
  - the top layer starts at 186.946 K, which is the 1976 standard's value at 84852 m geopotential.
  - The model keeps the table as written and proves the 2.296 K jump (`TemperatureJumpAtTopBase`).
- **Comparison scale height.** The fixed comparison scale height of the analysis is 8000 m (`Optimizer.ComparisonBeta`), not the module constant `StandardScaleHeight` = 8500 m.
- **Fit sample count.** The analysis always fits with 100 samples, whatever the number of chart points.

## Model

| member | source | states |
|---|---|---|
| IsaCalculator.LayerTableShape | src/isa_calculator.py:53-62 | the table has eight layers; base altitudes rise strictly from 0 to 86000 m |
| IsaCalculator.GeometricToGeopotential | src/isa_calculator.py:95 | the source's RE·h/(RE + h); its properties are in GeometricRoundTrip, GeopotentialBelowGeometric and AltitudeDifference |
| IsaCalculator.GeopotentialToGeometric | src/isa_calculator.py:120 | the source's RE·h/(RE − h); its properties are in GeopotentialRoundTrip |
| IsaCalculator.GeometricRoundTrip | src/isa_calculator.py:95-120 | converting a geometric altitude to geopotential and back returns it, and never hits the singular value RE |
| IsaCalculator.GeopotentialRoundTrip | src/isa_calculator.py:95-120 | the other composition is the identity too, so the two conversions are inverse bijections |
| IsaCalculator.GeopotentialBelowGeometric | src/isa_calculator.py:95 | at sea level both altitudes are 0; above it the geopotential altitude lies strictly between 0 and h |
| IsaCalculator.AltitudeDifference | src/isa_calculator.py:95 | geometric minus geopotential altitude equals h²/(RE + h) |
| IsaCalculator.FindLayer | src/isa_calculator.py:154-157 | the search from index i returns the first index whose next base is not below h, or the top layer |
| IsaCalculator.GetLayer | src/isa_calculator.py:154-157 | the result is in 0..7; every base above layer 0 up to the result lies below h; h does not exceed the next base |
| IsaCalculator.GetLayerIsInLayer | src/isa_calculator.py:154-157 | the search returns i exactly when h lies in (base_i, base_{i+1}], with the bottom layer open below and the top layer open above |
| IsaCalculator.GetLayerExtremes | src/isa_calculator.py:154-157 | every h ≤ 11000, negatives included, is in layer 0; every h > 86000 is in layer 7 |
| IsaCalculator.BoundaryInLowerLayer | src/isa_calculator.py:155 | the base altitude of layer i (1..7) is found in layer i − 1 |
| IsaCalculator.IsothermalLayers | src/isa_calculator.py:218 | the isothermal branch is taken exactly for layers 1, 4 and 7 |
| IsaCalculator.LayerTemperature | src/isa_calculator.py:202-206 | T_base + L·Δh; equals the base temperature exactly at the base or in a layer with zero lapse rate |
| IsaCalculator.TemperatureFloor | src/isa_calculator.py:202-206 | the selected layer's linear temperature is at least 184.65 K for every altitude |
| IsaCalculator.LayerPressure | src/isa_calculator.py:216-228 | the source's two pressure formulas: exponential in an isothermal layer, the power law otherwise (properties in LayerPressurePositive and LayerPressureAtBase) |
| IsaCalculator.LayerPressurePositive | src/isa_calculator.py:218-228 | both pressure formulas map a positive base pressure to a positive pressure |
| IsaCalculator.LayerPressureAtBase | src/isa_calculator.py:218-228 | at its own base, each layer's formula returns the base pressure unchanged |
| IsaCalculator.Isa | src/isa_calculator.py:198-239 | the state at any altitude has temperature ≥ 184.65 K, positive pressure, density and speed of sound, satisfies the ideal gas law, and its speed of sound is sqrt(γ·R·T) |
| IsaCalculator.BasePressureFromBelow | src/isa_calculator.py:211-214 | the base pressure of a layer above the first, evaluated one layer down, is positive |
| IsaCalculator.StateAt | src/isa_calculator.py:230-239 | density from the ideal gas law is positive and satisfies ρ·R·T = P; the speed of sound is sqrt(γ·R·T) and positive |
| IsaCalculator.TopOfLowerLayer | src/isa_calculator.py:53-62 | each layer below the top is still at least 184.65 K at its upper boundary |
| IsaCalculator.BasePressure | src/isa_calculator.py:208-228 | reference chain of base pressures, P0 at sea level, each positive |
| IsaCalculator.IsaUsesBasePressure | src/isa_calculator.py:198-228 | the evaluator's pressure at h is the formula of h's layer applied to that layer's base pressure from the chain |
| IsaCalculator.IsaPressureFromBelow | src/isa_calculator.py:211-228 | above layer 0 the evaluator starts from its own pressure at the layer's base |
| IsaCalculator.IsaAtBoundary | src/isa_calculator.py:211-228 | at each boundary the evaluator returns the base pressure, and the two layers' formulas agree at the boundary |
| IsaCalculator.SeaLevel | src/isa_calculator.py:198-228 | at h = 0 the evaluator returns T = 288.15 K and P = P0 |
| IsaCalculator.LayerTemperatureProfile | src/isa_calculator.py:53-62 | the selected layer's linear formula equals the piecewise standard temperature profile |
| IsaCalculator.IsaTemperatureProfile | src/isa_calculator.py:198-206 | the evaluator's temperature is the standard piecewise-linear profile at every altitude |
| IsaCalculator.WarmestAtSeaLevel | src/isa_calculator.py:198-206 | at or above sea level the temperature never exceeds T0 |
| IsaCalculator.TemperatureContinuous | src/isa_calculator.py:54-60 | for boundaries 1..6, the base temperature equals the temperature the lower layer reaches there |
| IsaCalculator.TemperatureJumpAtTopBase | src/isa_calculator.py:60-61 | the 71 km layer ends at 184.65 K while the top layer starts at 186.946 K, a 2.296 K jump |
| IsaCalculator.CalculateFromGeometric | src/isa_calculator.py:279-297 | the report echoes h and its geopotential altitude (which converts back to h); it carries the evaluator's state there; Celsius = K − 273.15 (≥ −88.5 °C); positive ratios |
| IsaCalculator.RatiosScaleBack | src/isa_calculator.py:293-294 | pressure ratio × P0 is the pressure; density ratio × ρ0 is the density |
| IsaCalculator.GeometricSeaLevel | src/isa_calculator.py:279-294 | at h = 0: geopotential altitude 0, 15 °C, pressure ratio exactly 1 |
| IsaCalculator.AltitudeErrorPct | src/isa_calculator.py:346 | 0 for h ≤ 0; otherwise pct·h = difference·100 |
| IsaCalculator.CalculateError | src/isa_calculator.py:336-353 | altitude difference is h minus the geopotential altitude; each property error is the percentage error of the unconverted evaluation against the converted one; altitude error is 0 when h ≤ 0 |
| IsaCalculator.AltitudeErrorAboveSeaLevel | src/isa_calculator.py:345-346 | above sea level the difference is h²/(RE + h) and the altitude error is h/(RE + h)·100, strictly between 0 and 100 |
| IsaCalculator.RelativeAltitudeError | src/isa_calculator.py:346 | the percentage of a difference h²/(RE + h) relative to h is h/(RE + h)·100, with 0 < h/(RE + h) < 1 |
| IsaCalculator.NoErrorAtSeaLevel | src/isa_calculator.py:336-351 | at h = 0 every error is 0 |
| ExponentialModels.Pressure | src/exponential_models.py:101 | model pressure is positive for every nonzero scale height |
| ExponentialModels.Density | src/exponential_models.py:137 | model density is positive for every nonzero scale height |
| ExponentialModels.Temperature | src/exponential_models.py:173 | the temperature is T0 regardless of altitude and scale height |
| ExponentialModels.SeaLevelValues | src/exponential_models.py:86-137 | at h = 0 pressure is P0 and density is ρ0 for every nonzero β |
| ExponentialModels.PressureAtScaleHeight | src/exponential_models.py:86-101 | at h = β the pressure is P0·exp(−1) |
| ExponentialModels.StrictlyDecreasing | src/exponential_models.py:101-137 | for β > 0 pressure and density fall strictly as h rises |
| ExponentialModels.BelowSeaLevelPressure | src/exponential_models.py:101 | for β > 0 the pressure is below P0 exactly when h > 0 |
| ExponentialModels.DensityTracksPressure | src/exponential_models.py:101-137 | density·P0 = pressure·ρ0: both decay by the same factor |
| ExponentialModels.CalculateAll | src/exponential_models.py:217-233 | echoes β; pressure and density are the model's; T = T0 and 15 °C |
| ExponentialModels.SpeedOfSoundConstant | src/exponential_models.py:219-223 | the speed of sound equals the standard atmosphere's at sea level, for every h and β |
| ExponentialModels.ErrorVsIsa | src/exponential_models.py:279-292 | each of the three errors is (model − standard)/standard·100 against calculate_from_geometric; it is positive exactly when the model exceeds the standard value, and zero exactly when they are equal |
| ExponentialModels.NoPressureOrTemperatureErrorAtSeaLevel | src/exponential_models.py:279-290 | at h = 0 the pressure and temperature errors are 0 for every β |
| ExponentialModels.NeverColderAboveSeaLevel | src/exponential_models.py:289 | for h ≥ 0 the temperature error is never negative |
| ExponentialModels.GridRow | src/exponential_models.py:361-372 | a cell computed from the row's standard pressure is the pressure error `ErrorVsIsa` reports |
| ExponentialModels.GenerateErrorGrid | src/exponential_models.py:295-374 | betas and altitudes are the linspace samples; a fresh num_alt × num_beta matrix whose cell [i, j] is the pressure error at (altitudes[i], betas[j]); the grid defaults to 50 × 100 samples |
| ExponentialModels.FillRow | src/exponential_models.py:367-372 | row i gets the percentage error of each β's model pressure against the row's standard pressure; other rows unchanged |
| Optimizer.SquaredErrorSum | src/optimizer.py:135-144 | the source's accumulated (P_exp − P_isa)² over the paired samples; its properties are in SquaredErrorSumNonNegative and SquaredErrorSumZero |
| Optimizer.SquaredErrorSumNonNegative | src/optimizer.py:128-146 | the sum of squared residuals is never negative |
| Optimizer.SquaredErrorSumZero | src/optimizer.py:135-146 | the sum is 0 exactly when every model pressure equals its paired reference pressure |
| Optimizer.ObjectiveFunction | src/optimizer.py:128-146 | the loop returns the sum of squared residuals over the shorter of the two sequences, using only beta[0], and the result is ≥ 0 |
| Optimizer.IsaPressures | src/optimizer.py:231-235 | one standard pressure per altitude, same order, each positive |
| Optimizer.SampleIsaPressures | src/optimizer.py:231-235 | the append loop produces exactly the standard pressure at each altitude, in order |
| Optimizer.Fit | src/optimizer.py:227-274 | the fitted scale height lies in [5000, 15000]; the altitude range and sample count are echoed; RMSE and RMSE% are ≥ 0 |
| Optimizer.OptimizeBeta | src/optimizer.py:149-274 | the method's result is the fit computed from n linspace samples, their standard pressures and the minimiser's β; n defaults to 100 |
| Optimizer.CompareAt | src/optimizer.py:370-392 | a comparison point records its altitude; its errors are the percentage errors of its stored model pressures against its stored standard pressure |
| Optimizer.ComparisonErrors | src/optimizer.py:372-382 | the stored pressures are the standard's and the model's at the fitted β and at 8000 m; the errors equal the exponential model's pressure errors |
| Optimizer.CompareAll | src/optimizer.py:368-392 | one comparison per altitude, in order |
| Optimizer.AnalyzeOptimization | src/optimizer.py:277-398 | the fit always uses 100 samples; exactly num_chart_points comparisons at the chart's linspace altitudes, in order, using the fitted β; num_chart_points defaults to 50 |
| Numerics.PercentError | src/isa_calculator.py:347-350 | the sign of (value − reference)/reference·100 shows on which side of the reference the value lies |
| Numerics.PercentErrorInverse | src/isa_calculator.py:347-350 | the value is recovered from its percentage error and the reference |
| Numerics.Linspace | src/exponential_models.py:354-355 | n samples; the first is start, the last is stop, with equal spacing between neighbours |
| Numerics.LinspaceWithinRange | src/exponential_models.py:354-355 | for start ≤ stop every sample lies in [start, stop] |
| Numerics.Mean | src/optimizer.py:264 | the mean of positive values is positive |

## Left out

- The interactive menu (main.py), the HTTP server (server.py), plotting (src/visualizer.py) and the package re-exports (src/__init__.py) are not part of this model. The input checks in main.py and server.py (non-negative altitudes, `h_min < h_max`) belong to those callers, so the core functions here accept any altitude except −RE (see the lines below) and any range.
- SciPy's L-BFGS-B minimiser is not modelled. It is the parameter `minimize`, known only to return a value within the bounds it is given. Nothing is claimed about optimality or convergence.
- The minimiser's `result.fun` is taken to be the objective at the returned scale height.
- IEEE double arithmetic is not modelled; all values are exact reals. `exp`, `**` and `sqrt` are known only through the laws of `Math`, so no specific numbers (such as the pressure at 11 km) are stated.
- Python integers in the table and constants become reals.
- Python's `** 2` in the objective is the product `d·d`.
- GeometricToGeopotential: requires h ≠ −RE. The source divides by zero there: plain floats raise an exception, numpy floats give infinities.
- GeopotentialToGeometric: requires h ≠ RE, for the same reason.
- ExponentialModels.Pressure: requires β ≠ 0, where the source divides by zero. The same holds for Density, CalculateAll, ErrorVsIsa, and for the β samples of GenerateErrorGrid.
- GenerateErrorGrid: also requires every altitude sample to differ from −RE.
- GenerateErrorGrid: states the final contents of every cell, not that each cell is written exactly once.
- Optimizer.ObjectiveFunction: requires a non-empty parameter vector, because the source indexes `beta[0]`.
- Optimizer.OptimizeBeta: requires at least one sample and every sample ≠ −RE. With zero samples the source divides by zero at src/optimizer.py:260: an exception, or NaN if the minimiser returns a floating-point objective value.
- Optimizer.Fit: states the bounds on β, the echoed fields and the non-negativity of the RMSE figures. It does not state RMSE = sqrt(SSE/n) as a separate property: that is only the definition.
- The bottom-up array of the 8 base pressures that an implementation may precompute does not exist in the source. It is replaced by the recursive reference `BasePressure` and the lemma that the evaluator follows it.
