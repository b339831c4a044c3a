# Fixed-point edge enhancement (EEHTEST) in Dafny

This project models the edge-enhancement stage of the fast-openISP image
signal processor, as the `EEHTEST` class in `modules/eeh_test.py` implements
it for one luma plane. The constructor derives three integer coefficients,
each scaled by 256, from an integer configuration: the slope and intercept
of a middle-band ramp, and the edge-band gain. `execute` then transforms
every pixel. It takes the difference `delta` between the sample and its
low-pass estimate. It splits `delta` into sign and magnitude and picks a
gain from three bands: flat (no gain), a middle ramp, and the edge line.
Both the ramp and the edge line are shifted right by 8 as arithmetic
shifts. The gain is clipped to `[0, delta_threshold]` and the sign is put
back. The result is added to the sample, and the sum is clipped to
`[0, 255]`.

Modules, one per component:

- `FixedPoint` (`fixed_point.dfy`): `np.sign`, `np.abs`, `np.clip` and the
  arithmetic `np.right_shift(x, 8)`, which is a floor division by 256.
- `GainMapper` (`gain_mapper.dfy`): the configuration, the coefficients,
  their derivation, and facts about the ramp the coefficients define.
- `EdgeEnhancer` (`edge_enhancer.dfy`): the enhancer object, band
  selection, the enhanced delta and the per-pixel output.
- `Planes` (`planes.dfy`): `execute` over a plane. It is written both as a
  point-wise map and as a loop implementation. It also covers repeated
  passes.

The low-pass estimate is not computed here. It is passed in as a second
plane of the same shape as the input. Everything is unbounded `int`.

With the default configuration a delta of 6 lies in the middle band and
enhances to `(768 * 6 - 3072) >> 8 == 1536 >> 8 == 6`
(`EdgeEnhancer.DefaultMiddleBandExample`).

## Model

| member | source | states |
|---|---|---|
| FixedPoint.Sign | modules/eeh_test.py:36 | `np.sign` of an integer is -1, 0 or 1, is 0 exactly for 0, and never has the opposite sign to its argument |
| FixedPoint.Abs | modules/eeh_test.py:37 | `np.abs` of an integer is a non-negative value equal to the argument or its negation |
| FixedPoint.SignMagnitude | modules/eeh_test.py:36-37 | sign times magnitude gives back the delta, so splitting `delta` into `sign_map` and `abs_delta` loses nothing |
| FixedPoint.Clip | modules/eeh_test.py:46-47 | `np.clip` into a non-empty range lands in the range, leaves values inside it unchanged, and sends values below or above it to the nearer bound |
| FixedPoint.Min | modules/eeh_test.py:46 | the minimum that the edge-band clip reduces to (see `EdgeEnhancer.EnhancedDelta`): no larger than either argument and equal to one of them |
| FixedPoint.ShiftRight8 | modules/eeh_test.py:39-40 | the right shift by 8 returns the unique `r` with `256*r <= x < 256*r + 256`, i.e. it rounds toward minus infinity, also for negative ramp values |
| FixedPoint.ShiftRight8FloorsNegatives | modules/eeh_test.py:39 | concrete shifts: -1 and -255 give -1 and -257 gives -2 (a truncating division would give 0, 0 and -1); 1536 gives 6 |
| GainMapper.Config.Span | modules/eeh_test.py:27 | for a valid configuration the band width `t2 - t1` is at least 1, so the `1E-6` clip never acts |
| GainMapper.Derive | modules/eeh_test.py:26-30 | for a valid configuration the slope is the rounded-down quotient of `edge_gain*edge_threshold` by the band width, the intercept is minus the rounded-down quotient of `edge_gain*flat_threshold*edge_threshold` by it, and the edge coefficient is `edge_gain`; slope is non-negative and intercept non-positive |
| GainMapper.DefaultCoeffs | modules/eeh_test.py:17-30 | the default configuration (4, 8, 384, 64) gives slope 768, intercept -3072 and edge gain 384 |
| GainMapper.RampNearExactLine | modules/eeh_test.py:28-29 | for every valid configuration and magnitude `a >= 0`, the ramp built from the rounded coefficients, times the band width `d`, lies within `[-a*d, d)` of the exact line `edge_gain*t2*(a - t1)`: rounding costs at most `a` below and less than 1 above the ramp the coefficients approximate |
| GainMapper.RampStartsAtMostZero | modules/eeh_test.py:28-29 | the middle ramp evaluated at the flat threshold is at most 0, so the ramp starts at (or, by rounding, just below) zero |
| GainMapper.RampBelowEdgeLine | modules/eeh_test.py:28-30 | for every magnitude up to the edge threshold the middle ramp is at most the edge line `edge_gain*a`, despite the rounding of both coefficients |
| GainMapper.RampMeetsEdgeLine | modules/eeh_test.py:28-30 | at the edge threshold the ramp lies in `(edge_gain*t2 - t2, edge_gain*t2]`: the middle and edge bands meet up to rounding |
| EdgeEnhancer.New | modules/eeh_test.py:16-30 | constructing an enhancer from a valid configuration stores it with exactly the coefficients derived from it |
| EdgeEnhancer.Init | modules/eeh_test.py:17-30 | the constructor as written holds configuration (4, 8, 384, 64) and coefficients (768, -3072, 384) |
| EdgeEnhancer.MiddleDelta | modules/eeh_test.py:39 | `middle_delta` is the unique `r` with `256*r <= ramp < 256*r + 256`, the floor of the ramp over 256, also when the ramp is negative |
| EdgeEnhancer.EdgeDelta | modules/eeh_test.py:40 | `edge_delta` is the unique `r` with `256*r <= edge_gain*abs_delta < 256*r + 256` |
| EdgeEnhancer.BandGain | modules/eeh_test.py:39-44 | the masked sum selects exactly one band: 0 when `abs_delta <= flat_threshold`, the shifted ramp when `flat_threshold < abs_delta <= edge_threshold`, the shifted edge line above the edge threshold |
| EdgeEnhancer.ClippedGain | modules/eeh_test.py:46 | the gain magnitude always lies in `[0, delta_threshold]` |
| EdgeEnhancer.EdgeDeltaNonNegative | modules/eeh_test.py:40 | the shifted edge line is never negative, so in the edge band only the upper clip can act |
| EdgeEnhancer.EnhancedDelta | modules/eeh_test.py:36-46 | the enhanced delta is at most `delta_threshold` in magnitude, never of opposite sign to `delta`, 0 for `delta == 0` and in the flat band, `sign*clip(ramp>>8, 0, delta_threshold)` in the middle band (a negative ramp gives 0), and `sign*min((edge_gain*abs_delta)>>8, delta_threshold)` in the edge band |
| EdgeEnhancer.EnhancedDeltaSymmetric | modules/eeh_test.py:36-46 | negating `delta` negates the enhanced delta, and the enhanced delta's magnitude is the clipped gain of `abs_delta` |
| EdgeEnhancer.GainMonotone | modules/eeh_test.py:39-46 | the clipped gain is non-decreasing in `abs_delta` across all three bands and both band boundaries |
| EdgeEnhancer.EnhancePixel | modules/eeh_test.py:33-48 | every output sample is in `[0, 255]`; in the flat band the output is the clipped input; for an 8-bit input the output moves by at most `delta_threshold`, upward when the sample is above its estimate, downward when below, and not at all when equal |
| EdgeEnhancer.DefaultMiddleBandExample | modules/eeh_test.py:39-46 | with the defaults a delta of 6 is in the middle band and enhances to 6, and -6 to -6 |
| EdgeEnhancer.DefaultEdgeBandExample | modules/eeh_test.py:40-46 | with the defaults a delta of 20 enhances to 30, -20 to -30, and 100 is cut to `delta_threshold` 64 |
| EdgeEnhancer.NegativeRampClippedExample | modules/eeh_test.py:28-46 | with configuration (60, 100, 1, 64) the coefficients are (2, -150, 1) and the ramp at magnitude 61 shifts to -1, which the clip turns into no enhancement for either sign |
| Planes.EnhancePlane | modules/eeh_test.py:32-48 | the output has the input's shape; each output sample is the per-pixel enhancement of the input and estimate samples at the same position only; all samples are in `[0, 255]`; for an 8-bit input each moves by at most `delta_threshold`; an estimate equal to the input leaves the plane unchanged |
| Planes.Execute | modules/eeh_test.py:32-48 | the row-by-row loop produces a plane of the input's shape whose every sample is the per-pixel enhancement at that position, all in `[0, 255]`; the plane is exactly the point-wise map `EnhancePlane` |
| Planes.Passes | modules/eeh_test.py:32-48 | applying `execute` repeatedly, once per estimate, keeps the plane's shape |
| Planes.PassesDrift | modules/eeh_test.py:46-47 | after `n` passes over an 8-bit plane every sample is still 8-bit and has moved by at most `n*delta_threshold`: repeated enhancement does not diverge |

## Left out

- Kernel generation and its peak normalisation to 1024 (lines 23-24): floating point, and `gen_gaussian_kernel` belongs to `helpers`, which is not part of this model.
- The low-pass filter `generic_filter` and its border policy (line 35): `helpers` is not part of this model. The estimate is an input plane of the same shape. Whether a constant plane comes back unchanged depends on `generic_filter`; the model states instead that an estimate equal to the input leaves the input unchanged (`Planes.EnhancePlane`).
- The degenerate configuration `edge_threshold <= flat_threshold` (line 27): the band width is clipped to `1E-6` in floating point, and the coefficients then depend on float division and on an `int32` conversion of out-of-range values. `Config.Valid` excludes it, along with negative configuration values.
- GainMapper.Derive: lines 28-29 divide in floating point and truncate to `int32`. The model uses exact integer division of non-negative values. This matches the source while the products stay well inside the exactly representable and `int32` ranges.
- `int32` overflow of the products in lines 39-40 and `uint8` wrap-around in line 48: all arithmetic is unbounded. The final `astype(np.uint8)` is the identity, because the clip on line 47 has already brought every sample into `[0, 255]`.
- Rectangularity: NumPy arrays are always rectangular, but `Planes.EnhancePlane` only requires the estimate to have the input's shape row by row. A ragged plane is handled sample by sample, just as a rectangular one is.
- The `__main__` block (lines 51-62): image file read and write, YUV conversion, channel split and merge, and the printed difference are I/O.
