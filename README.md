# MOSFET visualisation: a verified model of its device and drawing logic

The page shows an n-channel MOSFET under two sliders (gate-source voltage Vgs
and drain-source voltage Vds) and two switches (channel length Short/Long and
channel width Narrow/Wide). On every change it does three things:
- draws a cross-section whose inversion channel thins and pinches off towards the drain;
- labels the operating region;
- plots two charts: on the left, the saturation envelope Id,sat(Vgs); on the
  right, the saturation boundary and the Id(Vds) curve for the present Vgs.
  Each chart has a marker at the bias point.

This project models that logic in four modules:

- `Device` (`device.dfy`): the region label and the piecewise drain current
  `Id` (cutoff, linear, saturation with channel-length modulation), with proofs of:
  - sign;
  - continuity at Vds = Vdsat;
  - monotonicity in Vds;
  - agreement between the label and the current equation.
- `Parameters` (`parameters.dfy`): the parameter update that turns the two
  selectors into W/L, lambda, the gain factor K and the W/L readout text. It
  includes a model of `toFixed(0)` on non-negative values.
- `Geometry` (`geometry.dfy`): the arithmetic of the cross-section update:
  - the drain translation;
  - the left-anchored width scale of oxide and poly;
  - the channel's base height and its empty rule;
  - the branch-assigned rise and pinch-off shift;
  - the four corners of the channel polygon.

  The output is a record of coordinates and scale factors.
- `Plots` (`plots.dfy`): the fixed sweep axes, the quantisation of the Vgs
  marker, and a `PlotState` class. The class holds:
  - the parameter globals;
  - the three curve buffers (arrays of samples, overwritten in place by loops);
  - the two markers.

  Its methods follow the page's update paths: page load, selector change,
  Vgs slider and Vds slider. The invariant `Consistent(vgs, vds)` says:
  - every curve sample equals the current equation on the sweep grid;
  - both markers sit at the bias point.

Where the code disagrees with its own comments or with the charts' plotted
0..3 V axis range, the model follows the code:
- The sweep grids are `i*0.01*3` for i = 0..300. They run from 0 to 9 V in
  steps of 0.03, not over the plotted 0..3 V range.
- The Vgs marker is quantised with step 3/300 = 0.01, although a comment calls
  it "the same as curve resolution" (0.03).
- The boost factor `1 + (1 - len)*1.8` gives 2.44 for the Short channel
  (len = 0.2); the comment says about 1.8.

Other details kept as written:
- The channel is drawn only when Vgs > 0.50125 V. The empty rule
  `base_h <= 0.1` sits slightly above the threshold.
- The region label uses a strict `Vds < Vgs - VTH` for Linear. The current
  equation and the polygon use `Vds <= Vdsat` for their linear branch. Both
  are kept. `Device.RegionAgreesWithCurrent` shows that the two formulas give
  the same value on the boundary.
- Vgs and Vds are parameters of every operation; the sliders' parsing is not
  modelled. The channel length `len` is a parameter of the geometry, and
  `Geometry.ChannelLength` gives its two selector values.
- Two readouts are modelled as values:
  - the W/L readout is `Parameters.RatioText`, stored as `PlotState.ratioText`;
  - the region label is `Device.RegionOf`, stored as the cross-section's `mode`.

  Of the readouts written at the start of the cross-section update (the Vgs,
  Vds, VTH, Vov and length texts), only the condition that picks the length
  readout (Long when `len > 0.6`) is modelled, by
  `Geometry.LengthLabelMatchesSelector`.

## Model

| member | source | states |
|---|---|---|
| `Device.Overdrive` | js/script.js:132 | Vov is never negative, is 0 exactly when Vgs <= VTH and equals Vgs - VTH above threshold |
| `Device.RegionOf` | js/script.js:141-148 | exactly one region: Cutoff iff Vgs <= VTH; Linear iff above threshold and Vds < Vgs - VTH (strict); Saturation iff above threshold and Vds >= Vgs - VTH |
| `Device.LinearCurrent` | js/script.js:335 | the linear branch in vertex form: the onset current minus 0.5*K*(Vov - Vds)^2, and 0 at Vds = 0 |
| `Device.SaturationCurrent` | js/script.js:337 | the saturation branch equals the onset current at Vds = Vdsat, and everywhere when lambda = 0 |
| `Device.DrainCurrent` | js/script.js:331-339 | 0 for Vgs <= VTH; the linear formula K*(Vov*Vds - Vds^2/2) when Vds <= Vdsat; the saturation formula 0.5*K*Vov^2*(1 + lambda*(Vds - Vdsat)) beyond |
| `Device.BranchesMeetAtVdsat` | js/script.js:333-338 | at Vds = Vdsat both branch formulas equal the onset current 0.5*K*Vov^2 (continuity) |
| `Device.RegionAgreesWithCurrent` | js/script.js:144 | whichever region the label names, that region's formula yields Id, including on the boundary where the label and Id split the cases differently |
| `Device.OnsetCurrent` | js/script.js:337 | the shared 0.5*K*Vov^2 (also at lines 306 and 484) is 0 at Vov = 0 and never negative for K >= 0; `OnsetPositive` and `OnsetMonotone` give its sign and growth |
| `Device.OnsetPositive` | js/script.js:337 | 0.5*K*Vov^2 > 0 for K > 0 and Vov > 0 |
| `Device.OnsetMonotone` | js/script.js:306 | the onset current grows with the overdrive: 0 <= a <= b gives Ionset(a) <= Ionset(b) |
| `Device.LinearBelowOnset` | js/script.js:335 | the linear formula never exceeds its value at Vdsat |
| `Device.LinearNonNegative` | js/script.js:335 | the linear formula is >= 0 for 0 <= Vds <= Vov |
| `Device.LinearIncreasing` | js/script.js:335 | the linear formula is strictly increasing in Vds up to Vdsat for K > 0 |
| `Device.SaturationNonDecreasing` | js/script.js:337 | the saturation formula is non-decreasing in Vds for K, lambda >= 0 |
| `Device.SaturationIncreasing` | js/script.js:337 | the saturation formula is strictly increasing in Vds for K, lambda, Vov > 0 |
| `Device.DrainCurrentNonNegative` | js/script.js:332-338 | Id >= 0 for K > 0, lambda >= 0 and Vds >= 0 |
| `Device.LinearStrictlyIncreasing` | js/script.js:334-335 | for Vgs > VTH, Id is strictly increasing in Vds on [.., Vdsat] |
| `Device.SaturationStrictlyIncreasing` | js/script.js:336-337 | for Vgs > VTH and lambda > 0, Id is strictly increasing for Vds > Vdsat |
| `Device.DrainCurrentMonotone` | js/script.js:331-339 | for fixed Vgs, Id is non-decreasing in Vds over the whole axis, across the branch boundary |
| `Device.ScenarioCutoff` | js/script.js:142-143 | Vgs = 0.5 is Cutoff with Id = 0 |
| `Device.ScenarioLinear` | js/script.js:144-145 | Vgs = 1.5, Vds = 0.3 is Linear with Id = K*(1.0*0.3 - 0.5*0.09) |
| `Device.ScenarioSaturation` | js/script.js:146-147 | Vgs = 1.5, Vds = 2.0 is Saturation with Id = 0.5*K*(1 + lambda) |
| `Parameters.LengthUnits` | js/script.js:258 | L is 1 or 2, and 2 exactly for selector value 1 (Long) |
| `Parameters.WidthUnits` | js/script.js:259 | W is 1 or 2, and 2 exactly for selector value 1 (Wide) |
| `Parameters.NatToString` | js/script.js:273-275 | the decimal notation is a non-empty digit string, one digit exactly below 10 |
| `Parameters.NatToStringDenotes` | js/script.js:273-275 | reading the notation back gives the number |
| `Parameters.NatToStringInjective` | js/script.js:273-275 | different numbers print differently |
| `Parameters.Fixed0` | js/script.js:273-275 | toFixed(0) of a non-negative value is a non-empty digit string |
| `Parameters.Fixed0Nearest` | js/script.js:273-275 | toFixed(0) of x >= 0 prints the integer in (x - 0.5, x + 0.5] |
| `Parameters.Fixed0OfInteger` | js/script.js:275 | toFixed(0) prints an integral value exactly |
| `Parameters.RatioText` | js/script.js:263-276 | the readout is never empty |
| `Parameters.RatioTextUnit` | js/script.js:266-267 | W = L reads "1" |
| `Parameters.RatioTextHalf` | js/script.js:268-269 | W/L = 1/2 reads "½" |
| `Parameters.RatioTextQuarter` | js/script.js:270-271 | W/L = 1/4 reads "¼" |
| `Parameters.RatioTextWhole` | js/script.js:274-275 | an integral ratio q >= 2 reads as q in decimal |
| `Parameters.RatioTextReciprocal` | js/script.js:272-273 | a ratio 1/q with q = 3 or q >= 5 reads "1/q" |
| `Parameters.PlotParameters` | js/script.js:254-290 | W_L = 10*W/L and is 5, 10 or 20; lambda = 0.01 iff Length = 1, else 0.1; K = 0.5*mu*Cox*W_L > 0; the text is the case table on W/L |
| `Parameters.RatioTextMatchesWL` | js/script.js:260-278 | the readout is "½", "1" or "2" exactly when W_L is 5, 10 or 20 |
| `Parameters.ParameterTable` | js/script.js:254-290 | the complete (W_L, lambda, K, text) for the four selector combinations |
| `Parameters.LongChannelHalvesK` | js/script.js:258-287 | switching to the long channel halves K and divides lambda by 10 |
| `Parameters.WideChannelDoublesK` | js/script.js:259-287 | switching to the wide channel doubles K and keeps lambda |
| `Geometry.Clamp01` | js/script.js:240 | the result is in [0,1], is the identity on [0,1], 0 below and 1 above |
| `Geometry.Clamp01Monotone` | js/script.js:240 | the clamp is monotone |
| `Geometry.ChannelLength` | js/script.js:119-123 | 0.2 when Short is checked, else 0.9 |
| `Geometry.LengthLabelMatchesSelector` | js/script.js:139 | the length readout says Long exactly when Short is not checked |
| `Geometry.Shorten` | js/script.js:131 | shorten = 0.6*(1 - len), in [0, 0.6] for len in [0,1] and 0 at len = 1 |
| `Geometry.ShortenOfSelector` | js/script.js:121-131 | Short removes 48% of the width, Long 6% |
| `Geometry.ScaleKeepLeft` | js/script.js:232-238 | the scale anchors the box's left edge and lies in [0.4, 1] for shorten in [0, 0.6] |
| `Geometry.ScaleKeepsLeftEdge` | js/script.js:234-236 | the transform fixes the left edge and moves the right edge to x + width*(1 - shorten) |
| `Geometry.BaseHeight` | js/script.js:190 | base_h in [0, 200]; 0 at or below VTH, 200 at or above VGS_MAX, linear in the overdrive between |
| `Geometry.ChannelVisibleIff` | js/script.js:190-191 | the channel is drawn (base_h > 0.1) exactly when Vgs > 0.50125 |
| `Geometry.CutoffClearsChannel` | js/script.js:190-191 | in cutoff the channel is empty |
| `Geometry.ClmBoost` | js/script.js:200 | the boost is 1 + 1.8*(1 - len), in [1, 2.8] for len in [0,1] |
| `Geometry.ClmBoostOfSelector` | js/script.js:200 | Short gives 2.44, Long 1.18 |
| `Geometry.Overshoot` | js/script.js:209 | the overshoot is not negative once Vds >= Vdsat (the headroom is floored at 1e-6) |
| `Geometry.PinchoffShift` | js/script.js:209-212 | 0 <= shift <= 0.5*width_long; no shift at or above VGS_MAX (full pull-back) |
| `Geometry.PinchoffShiftSaturates` | js/script.js:210-212 | once overshoot*boost >= 1 the shift is the full half width times (1 - pullback) |
| `Geometry.RiseAndShift` | js/script.js:196-213 | 0 <= rise <= base_h; no rise for Vds <= 0; no shift in the ohmic branch; rise = base_h*Vds/Vdsat in it; full rise and the pinch-off shift in saturation |
| `Geometry.ChannelPolygon` | js/script.js:193-227 | the four corners: source edge spans base_h; drain-top on the top edge at the gate end, 5 px further exactly when Vds <= Vdsat; drain-bottom in [top, top + base_h], on the bottom edge for Vds <= 0, straight below in the ohmic branch, on the top edge and shifted left by the pinch-off shift in saturation |
| `Geometry.PolygonPinchesAtVdsat` | js/script.js:202-205 | at Vds = Vdsat the ohmic polygon already touches the top edge, while the label says Saturation |
| `Geometry.DrainTranslate` | js/script.js:157-160 | no translation without a channel box; otherwise the drain's left shift makes the box's right edge land on the shortened gate end, and it is never rightwards for shorten >= 0 |
| `Geometry.UpdateGeometry` | js/script.js:125-230 | region label; drain translated by -width*shorten (only if the drain exists); oxide/poly scales; channel untouched without a box, cleared iff base_h <= 0.1, else the polygon above |
| `Plots.SweepGrid` | js/script.js:343-344 | both axes have 301 points, are equal, start at 0, step by 0.03 and end at 9 |
| `Plots.Round` | js/script.js:483 | Math.round: within half a unit, ties rounded up |
| `Plots.Quantize` | js/script.js:482-483 | the quantised Vgs is a whole multiple of the step 3/300 and within half a step (0.005) of Vgs, ties rounded up |
| `Plots.QuantizeSnapsToGrid` | js/script.js:482-483 | an off-grid Vgs of 0.004 snaps to 0, and the tie 0.005 goes up to 0.01 |
| `Plots.QuantizeOfStep` | js/script.js:482-483 | multiples of the step are left alone |
| `Plots.QuantizeIdempotent` | js/script.js:482-483 | quantising twice equals quantising once |
| `Plots.QuantizeKeepsSweepPoints` | js/script.js:482-484 | every point of the sweep grid is a fixed point of the quantisation |
| `Plots.EnvelopeCurrent` | js/script.js:306 | the envelope value is 0 at or below threshold and never negative for K >= 0; `Plots.EnvelopeIsOnsetCurrent` ties it to Id |
| `Plots.BoundaryCurrent` | js/script.js:310 | the boundary at Vds = v >= 0 equals the envelope at Vgs = VTH + v, and is never negative for K >= 0 |
| `Plots.EnvelopeIsOnsetCurrent` | js/script.js:306 | the envelope value is Id at Vds = Vdsat, in mA |
| `Plots.BoundaryIsEdgeCurrent` | js/script.js:310 | the boundary value at Vds = v >= 0 is Id at Vgs = VTH + v, Vds = v, in mA |
| `Plots.EnvelopeMonotone` | js/script.js:306 | the envelope is non-decreasing in Vgs for K >= 0 |
| `Plots.PlotState.constructor` | js/script.js:381-474 | three new curve buffers; parameters from the selectors; envelope, boundary and Id(Vds) curve on the sweep grid; markers at the unquantised initial bias |
| `Plots.PlotState.UpdatePlotParameters` | js/script.js:254-302 | W_L, lambda, K, text and Idmax are the table's values; buffers stay well-formed; markers unchanged |
| `Plots.PlotState.RedrawEnvelope` | js/script.js:306-307 | every envelope sample is the envelope current for the present K |
| `Plots.PlotState.RedrawBoundary` | js/script.js:310-311 | every boundary sample is 0.5*K*Vds^2 in mA |
| `Plots.PlotState.RedrawIdCurve` | js/script.js:314-317 | every Id(Vds) sample is Id(Vgs, VDS[i])*1000, taken at the boundary curve's x values |
| `Plots.PlotState.RefreshAllPlots` | js/script.js:304-326 | all three curves match the present K and Vgs; the markers keep their x; their y is on the curves; parameters unchanged |
| `Plots.PlotState.UpdateCharts` | js/script.js:477-507 | both markers at the bias point (Vgs quantised); Vds-only path leaves every curve sample unchanged; otherwise the Id(Vds) curve is redrawn for Vgs |
| `Plots.PlotState.VdsSliderMoved` | js/script.js:63-68 | a Vds-only change on a consistent picture leaves it consistent with the new bias, with no curve sample and no parameter changed |
| `Plots.PlotState.VgsSliderMoved` | js/script.js:63-68 | a Vgs change on a consistent picture leaves it consistent with the new bias, with the parameters unchanged |
| `Plots.PlotState.FinishLoad` | js/script.js:101-105 | after refresh and marker placement the picture is consistent with the bias point |
| `Plots.PlotState.SelectorChanged` | js/script.js:70-91 | after a selector change the parameters are the table's and the picture is consistent |
| `Plots.LoadPage` | js/script.js:98-105 | the load sequence builds a new plot state whose parameters are the table's and whose picture is consistent with the initial bias |

## Left out

- DOM lookups, slider parsing (`getVgs`/`getVds`) and the cross-section update's text readouts (Vgs, Vds, VTH, Vov and length; only the length readout's condition is modelled), including their `toFixed(1)` formatting. The bias values are parameters of the model.
- SVG plumbing: shape lookup, bounding-box queries and the `transform`/`d` attribute strings. Bounding boxes are input records and the output is coordinates and scale factors.
- The channel- and drain-depletion rectangles: they depend on `Math.sqrt`, which has no counterpart on Dafny's reals.
- Chart.js construction, the point-ordering plugin, styling options and the `chart.update` calls. These are a foreign library and rendering.
- The commented-out y-axis rescaling: it is disabled code. `Plot_Idmax` is the constant 0.6.
- IEEE-754 floating point: all arithmetic is on exact reals. `Math.round` is `Floor(x + 0.5)`.
- Event wiring: there is no listener registration. Each listener's plot work is one method:
  - the load listener (js/script.js:98-105) is `Plots.LoadPage`: the constructor, then `FinishLoad`;
  - the Length and Width listeners (js/script.js:70-91) are `SelectorChanged`;
  - the slider listener (js/script.js:63-68) is `VgsSliderMoved` or `VdsSliderMoved`.

  The cross-section update these listeners also call is `Geometry.UpdateGeometry`. It is kept separate because it touches no plot state.
- Initial global values: `W_L = 10`, `lambda = 0.11` and the initial `K` are overwritten by the parameter update before any use, so they are not modelled. `Plot_Vth` is never reassigned and is the constant `VTH`.
- The width readout text of the width switch: it is UI text.
- Plots.PlotState.UpdateCharts: the Vds-only path in the page is chosen by the event's target id; the model takes that choice as the boolean `vdsOnly`.
