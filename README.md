# Magnetometer bias calibration filter (Ekf::fuseMagCal)

This project models `Ekf::fuseMagCal` from the ECL EKF (`EKF/mag_calibration.cpp`) and
proves properties of the model. The function is a small Kalman filter that runs
next to the main estimator. It has four states: three body-frame magnetometer bias
components and a yaw offset. It keeps its own 4x4 covariance. One call is one
cycle, in this order:

1. Correct the delta angle for the gyro bias. Give up if the interval is 0.1 ms or less.
2. Switch the calibration on or off with a yaw-rate hysteresis. It turns on above
   10 deg/s when tilted less than 45 degrees. It turns off below 5 deg/s or when
   too tilted.
3. Return unless the main filter leaves the magnetometer alone (the inhibit flag) and the
   calibration is on.
4. Return unless the yaw has moved 10 degrees or more since the last cycle that got
   past this check. The difference is wrapped into [-pi, pi]. Otherwise record the
   new yaw.
5. Reset the covariance to diag(0.25, 0.25, 0.25, 1) and zero the states on the first
   cycle, or when more than 20 s have passed. The elapsed time is an unsigned 64-bit
   microsecond difference. A reset sets the timestamp to now and ends the cycle.
6. Otherwise add yaw process noise `(dt * radians(0.5))^2` to `P[3][3]`. Then fuse the
   x, y and z magnetometer axes one after another:
   - each axis computes the innovation variance `R + H P H'`;
   - a badly conditioned result resets the covariance and aborts the cycle;
   - a good one computes the gain `K = P H' / S` and updates `P - K (H P)`;
   - the covariance is then symmetrised and its variances floored at `1e-12`;
   - the states are corrected with the innovation clamped to ±0.5, then the bias is
     clamped to ±0.5 and the yaw offset to ±pi.
7. On the fusion path, advance the timestamp only when all three axes have fused.

The project has three modules:

- `MagCalModel` (`mag_cal_model.dfy`) is a value-level specification. The covariance
  is a `seq<seq<real>>`, and one function stands for each step above:
  - `AxisUpdate` fuses one axis;
  - `SequentialUpdate` runs the x→y→z sequence;
  - `Cycle` is one whole call.
- `MagCalibration` (`mag_calibration.dfy`) is the filter in the source's own form. The
  class `MagCal` holds the fields the source updates in place. The covariance is an
  `array2<real>`. Every loop of the source is a method with loop invariants, proved
  against the functions of `MagCalModel`. `MagCal.FuseMagCal` ensures that the new
  state and the outcome are exactly `Cycle(old state, inputs)`.
- `MagCalProperties` (`mag_cal_properties.dfy`) holds the lemmas about the
  specification. They cover:
  - the hysteresis in both directions;
  - the yaw wrap;
  - the timestamp / reset logic, including a clock that steps backwards;
  - what each early return leaves untouched;
  - the reset contents;
  - that process noise touches `P[3][3]` only;
  - the innovation-variance formula;
  - that the correction keeps symmetry;
  - axis order and fault behaviour;
  - that every cycle preserves "symmetric covariance with floored diagonal, states
    within their limits".

Everything the source computes with trigonometry from the yaw offset is a parameter.
`CycleInputs.geometry` maps the yaw offset to the rotated earth field
`Teb * mag_EF` and to `H_MAG[3]` for the three axes. The caller also supplies:

- the Euler yaw;
- the third row of `_R_to_earth`;
- the IMU and magnetometer samples;
- the noise parameter.

Scalars are mathematical reals.

## Model

| member | source | states |
|---|---|---|
| `MagCalibration.MagCal.FuseMagCal` | EKF/mag_calibration.cpp:49-312 | The new fields and the outcome of one call are exactly `Cycle` of the old fields and the inputs. |
| `MagCalibration.MagCal.ResetOrFuse` | EKF/mag_calibration.cpp:93-312 | After the yaw trigger, the fields become the reset state (timestamp 0 or more than 20 s elapsed) or the fusion result, as `FusionStage` says. |
| `MagCalibration.MagCal.NoiseAndFuse` | EKF/mag_calibration.cpp:111-312 | With no reset due: process noise on `P[3][3]`, predicted field `Teb*mag_EF + bias`, `R_MAG = max(noise,0)^2`, then the axis sequence. Matches `FusionStage`. |
| `MagCalibration.MagCal.FuseAxes` | EKF/mag_calibration.cpp:176-312 | The loop over index 0..2. A fault at axis i stops it with `Aborted(cov, states, i)` and the timestamp unchanged. Otherwise it ends `Completed(cov, states)` and the timestamp is set to now. Both are as `SequentialUpdate` from axis 0 says. |
| `MagCalibration.MagCal.FuseAxisInSequence` | EKF/mag_calibration.cpp:177-310 | One loop pass. It either moves the sequence from axis `index` to `index + 1` or ends it as an abort at `index`. |
| `MagCalibration.MagCal.FuseAxis` | EKF/mag_calibration.cpp:179-309 | One axis. On a conditioning fault: default covariance, states untouched (the fault test includes `S > 0`, see "## Left out"). Otherwise: covariance, states and clamped innovation equal to `AxisUpdate`. |
| `MagCalibration.MagCal.ResetCovariance` | EKF/mag_calibration.cpp:96-100 | memset and diagonal leave the array equal to `DefaultCov()`. |
| `MagCalibration.MagCal.InjectYawProcessNoise` | EKF/mag_calibration.cpp:114 | The array becomes the old one with `q` added to `P[3][3]` only. |
| `MagCalibration.MagCal.RowTimesJacobian` | EKF/mag_calibration.cpp:211-215 | The column loop accumulates row `row` of `P H'`. |
| `MagCalibration.MagCal.InnovationVariance` | EKF/mag_calibration.cpp:208-218 | The row loop accumulates `R + H P H'`. |
| `MagCalibration.MagCal.KalmanGain` | EKF/mag_calibration.cpp:241-251 | `Kfusion[row] = (P H')[row] * (1/S)` equals the gain `P H' / S`. |
| `MagCalibration.MagCal.GainTimesRow` | EKF/mag_calibration.cpp:256-273 | Fills KHP with `K[i] * (H P)[j]`. |
| `MagCalibration.MagCal.GainTimesRowEntries` | EKF/mag_calibration.cpp:261-272 | `KH = K[row] H`, then `sum_j KH[j] P[j][col]`, gives row `row` of KHP; the other rows are left alone. |
| `MagCalibration.MagCal.SubtractCorrection` | EKF/mag_calibration.cpp:276-280 | Every entry becomes `P[i][j] - KHP[i][j]`. |
| `MagCalibration.MagCal.CorrectCovariance` | EKF/mag_calibration.cpp:253-280 | The array becomes `P - K (H P)` of the old covariance. |
| `MagCalibration.MagCal.ForceSymmetry` | EKF/mag_calibration.cpp:283-290 | The lower-triangle walk turns the array into `Symmetrize` of the old one. |
| `MagCalibration.MagCal.AverageRowPairs` | EKF/mag_calibration.cpp:285-289 | The inner loop sets `P[row][c]` and `P[c][row]` to their mean for every `c < row`; no other entry changes. |
| `MagCalibration.MagCal.FloorVariances` | EKF/mag_calibration.cpp:292-294 | The array becomes `FloorDiag` of the old one: `fmaxf(P[i][i], 1e-12)`, off-diagonals kept. |
| `MagCalibration.MagCal.State` | EKF/mag_calibration.cpp:49-312 | The object's fields as a `FilterState` value; its covariance is the array's contents. |
| `MagCalibration.CorrectionFromArrays` | EKF/mag_calibration.cpp:276-280 | Proof step, no source operation of its own: an array holding `P - KHP` with `KHP = K (H P)` is the covariance correction. |
| `MagCalibration.FactorGain` | EKF/mag_calibration.cpp:261-271 | Proof step, no source operation of its own: `sum_j (K[row] H[j]) P[j][c] == K[row] * (H P)[c]`. |
| `MagCalibration.ScaleByInverse` | EKF/mag_calibration.cpp:225 | Proof step, no source operation of its own: multiplying by `1/S` is dividing by `S`. |
| `MagCalibration.RowEntries` | EKF/mag_calibration.cpp:267-270 | Entry `c` of `H P` is the four-term sum the source writes out. |
| `MagCalModel.Cycle` | EKF/mag_calibration.cpp:49-312 | One cycle as a value. Its result is a 4x4 covariance. |
| `MagCalModel.FusionStage` | EKF/mag_calibration.cpp:93-312 | Reset or noise plus sequence as a value. Its result is a 4x4 covariance. |
| `MagCalModel.FusionStageFuses` | EKF/mag_calibration.cpp:111-312 | With no reset due, `FusionStage` is the sequence run from the noisy covariance, the predicted field and `R_MAG`. |
| `MagCalModel.YawRate` | EKF/mag_calibration.cpp:56-59 | The rate times the interval is the down row of `_R_to_earth` applied to the corrected delta angle. |
| `MagCalModel.TiltOk` | EKF/mag_calibration.cpp:61 | The tilt is acceptable when `R_to_earth(2,2) > cos(45 deg)`. No ensures; `CycleBranches` and `NextActive` use it. |
| `MagCalModel.YawChanged` | EKF/mag_calibration.cpp:82-88 | The wrapped yaw change is at least 10 degrees in size. No ensures; its partners are `WrapYawDelta`, `CycleBranches` and `CycleSkipsSmallYawChange`. |
| `MagCalModel.NeedsReset` | EKF/mag_calibration.cpp:94-95 | A reset is due when the timestamp is 0 or more than 20 s have elapsed. No ensures; its partners are `ForwardClockReset`, `BackwardClockForcesReset` and `CycleResetWhenDue`. |
| `MagCalModel.InnovVar` | EKF/mag_calibration.cpp:209-218 | `R + H P H'`. No ensures; `InnovVarOfAxis` states its closed form and `InnovationVariance` computes it. |
| `MagCalModel.GuardAsWritten` | EKF/mag_calibration.cpp:223 | The conditioning test as the source writes it, `S >= R_MAG`. No ensures; `WellConditionedGuard` relates it to the corrected test. |
| `MagCalModel.WellConditioned` | EKF/mag_calibration.cpp:223 | The conditioning test the model uses, `S >= R_MAG && S > 0`. No ensures; `WellConditionedGuard` states that it admits only invertible variances and that it is the written test whenever `R_MAG > 0`. |
| `MagCalModel.FusionOutcome` | EKF/mag_calibration.cpp:237 | After the sequence, covariance and states are those the sequence left, and flag and last yaw are kept. A completed sequence gives `Fused` and the timestamp now (line 312); an abort gives `NumericalFault` at its axis and the timestamp kept (the return at line 237). |
| `MagCalModel.SequentialUpdate` | EKF/mag_calibration.cpp:176-310 | The axes from `index` to 2 in turn; the result always holds a 4x4 covariance. |
| `MagCalModel.SequentialStepFused` | EKF/mag_calibration.cpp:177-310 | An axis that fuses hands its covariance and states to the next axis. |
| `MagCalModel.SequentialStepFault` | EKF/mag_calibration.cpp:222-238 | An axis that fails the check ends the sequence with the default covariance and the states it received. |
| `MagCalModel.AxisUpdate` | EKF/mag_calibration.cpp:205-309 | Faults exactly when the innovation variance is not well conditioned: `S < R_MAG`, or `S <= 0`, a case that adds to the source's test (see "## Left out"). A fused result has a symmetric covariance with floored diagonal, states within limits and innovation within ±0.5. |
| `MagCalModel.UpdatedCov` | EKF/mag_calibration.cpp:253-294 | Correction, symmetrisation and flooring always give a symmetric covariance with floored diagonal. |
| `MagCalModel.CorrectStates` | EKF/mag_calibration.cpp:296-309 | The corrected states are always within ±0.5 bias and ±pi yaw. A zero innovation leaves in-bounds states unchanged. |
| `MagCalModel.Gain` | EKF/mag_calibration.cpp:241-251 | Each gain entry is `(P H')[i] / S`. |
| `MagCalModel.CovCorrection` | EKF/mag_calibration.cpp:253-280 | Each entry is `P[i][j] - K[i] (H P)[j]`. |
| `MagCalModel.Symmetrize` | EKF/mag_calibration.cpp:283-290 | The result is symmetric, keeps the diagonal and keeps every pair sum `P[i][j] + P[j][i]`. |
| `MagCalModel.FloorDiag` | EKF/mag_calibration.cpp:291-294 | Every variance is at least `1e-12`. Off-diagonals and variances already above the floor are kept, and symmetry is preserved. |
| `MagCalModel.JacobianRow` | EKF/mag_calibration.cpp:180-204 | `H_MAG` is 1 on the bias of the axis, 0 on the other biases, and `h3` on the yaw offset. |
| `MagCalModel.MulVec` | EKF/mag_calibration.cpp:210-216 | `(P H')[i]` is the index-order sum over the row. |
| `MagCalModel.VecMul` | EKF/mag_calibration.cpp:266-271 | `(H P)[c]` is the index-order sum over the column. |
| `MagCalModel.DefaultCov` | EKF/mag_calibration.cpp:96-100 | The reset covariance is 4x4. |
| `MagCalModel.AddYawVariance` | EKF/mag_calibration.cpp:114 | Adding to `P[3][3]` keeps a 4x4 matrix. |
| `MagCalModel.NextActive` | EKF/mag_calibration.cpp:63-67 | When off, it turns on iff `abs(rate) > 10 deg/s` and the tilt is acceptable. When on, it turns off iff `abs(rate) < 5 deg/s` or the tilt is not acceptable. |
| `MagCalModel.WrapYawDelta` | EKF/mag_calibration.cpp:82-87 | At most one 2*pi correction. A difference in (-3pi, 3pi) lands in [-pi, pi]. One already there is kept. |
| `MagCalModel.ElapsedUs` | EKF/mag_calibration.cpp:94 | Unsigned 64-bit subtraction: `now - last` when `now >= last`, else `2^64 - (last - now)`. |
| `MagCalModel.ElapsedSec` | EKF/mag_calibration.cpp:94 | The elapsed time in seconds is never negative. |
| `MagCalModel.YawProcessNoise` | EKF/mag_calibration.cpp:112-113 | The added variance is never negative. |
| `MagCalModel.MeasurementVariance` | EKF/mag_calibration.cpp:134-135 | `R_MAG` is `noise^2` for a non-negative noise and 0 otherwise. |
| `MagCalModel.Constrain` | EKF/mag_calibration.cpp:298 | `math::constrain` keeps values inside `[lo, hi]`, maps values below to `lo` and values above to `hi`. |
| `MagCalModel.DotFour` | EKF/mag_calibration.cpp:213-217 | The four-term accumulation written out. |
| `MagCalProperties.HysteresisBand` | EKF/mag_calibration.cpp:63-67 | Between 5 and 10 deg/s with acceptable tilt, the flag never changes. |
| `MagCalProperties.StaysActive` | EKF/mag_calibration.cpp:65-66 | Once on, the flag stays on through any run of rates at or above 5 deg/s with acceptable tilt. |
| `MagCalProperties.StaysInactive` | EKF/mag_calibration.cpp:63-64 | Once off, the flag stays off through any run of rates that never exceed 10 deg/s. |
| `MagCalProperties.EulerYawDeltaWraps` | EKF/mag_calibration.cpp:82-87 | Two Euler yaws in [-pi, pi] give a wrapped difference in [-pi, pi]. |
| `MagCalProperties.BackwardClockForcesReset` | EKF/mag_calibration.cpp:94-95 | A timestamp that steps back wraps to a huge unsigned difference and forces a reset. |
| `MagCalProperties.ForwardClockReset` | EKF/mag_calibration.cpp:94-95 | Once fused, a reset is due iff more than 20 000 000 us have elapsed. |
| `MagCalProperties.ProcessNoiseOnlyYaw` | EKF/mag_calibration.cpp:111-114 | Process noise changes only `P[3][3]`, never lowers it, and keeps the covariance invariant. |
| `MagCalProperties.DefaultCovShape` | EKF/mag_calibration.cpp:96-100 | The reset covariance is exactly diag(0.25, 0.25, 0.25, 1.0) and meets the invariant. |
| `MagCalProperties.InnovVarOfAxis` | EKF/mag_calibration.cpp:207-218 | For axis i: `S = R + P[i][i] + h3 (P[i][3] + P[3][i]) + h3^2 P[3][3]`. |
| `MagCalProperties.ResetCovWellConditioned` | EKF/mag_calibration.cpp:222-226 | On the reset covariance plus any process noise, the conditioning check passes for every axis row. |
| `MagCalProperties.RowTimesSymmetric` | EKF/mag_calibration.cpp:253-273 | For a symmetric `P`, `H P == (P H')'`. |
| `MagCalProperties.GainProductSwap` | EKF/mag_calibration.cpp:241-251 | Proof step, no source operation of its own: with `K = PH/S`, `K[i] PH[j] == K[j] PH[i]`. |
| `MagCalProperties.GainSwapAt` | EKF/mag_calibration.cpp:241-251 | The same swap, stated on the gain and `P H'` of a covariance. |
| `MagCalProperties.GainOuterSymmetric` | EKF/mag_calibration.cpp:241-251 | `K (P H')'` is symmetric for the Kalman gain. |
| `MagCalProperties.CorrectionSymmetricFor` | EKF/mag_calibration.cpp:276-280 | Subtracting a symmetric outer product from a symmetric `P` keeps it symmetric. |
| `MagCalProperties.CorrectionKeepsSymmetry` | EKF/mag_calibration.cpp:253-280 | For a symmetric `P`, `P - K (H P)` is symmetric. |
| `MagCalProperties.SymmetrizeFixesSymmetric` | EKF/mag_calibration.cpp:283-290 | Symmetrising a symmetric matrix changes nothing. |
| `MagCalProperties.SymmetrizeExactForSymmetricCov` | EKF/mag_calibration.cpp:282-290 | With exact arithmetic the force-symmetry step is a no-op on the corrected covariance. |
| `MagCalProperties.ZeroInnovationKeepsStates` | EKF/mag_calibration.cpp:296-309 | A zero innovation leaves in-bounds states unchanged on an axis that fuses. |
| `MagCalProperties.SequentialCompleted` | EKF/mag_calibration.cpp:177-310 | A completed sequence ends with a symmetric covariance with floored diagonal and states within limits. |
| `MagCalProperties.SequentialAborted` | EKF/mag_calibration.cpp:227-238 | An abort ends with the default covariance at some axis `>= index`. The states are as received if the fault was on the first axis, and within limits otherwise. |
| `MagCalProperties.SequentialOrder` | EKF/mag_calibration.cpp:177-205 | The axes are fused x, then y, then z, each from the previous axis's covariance and states. |
| `MagCalProperties.ExactMeasurementKeepsStates` | EKF/mag_calibration.cpp:205-309 | A measurement equal to the prediction never moves in-bounds states. |
| `MagCalProperties.CycleInvalidDt` | EKF/mag_calibration.cpp:55-73 | An interval of 0.1 ms or less leaves every field untouched. |
| `MagCalProperties.CycleGated` | EKF/mag_calibration.cpp:75-78 | Inhibit flag false or calibration off: only the activation flag may change. |
| `MagCalProperties.CycleSmallYawChange` | EKF/mag_calibration.cpp:80-90 | Yaw moved less than 10 degrees: only the activation flag (then on) changes; the last yaw is kept. |
| `MagCalProperties.CycleBranches` | EKF/mag_calibration.cpp:55-109 | Each outcome happens exactly under its own condition, in both directions: invalid interval; gate or inhibit; yaw change under 10 degrees; due reset; otherwise fusion, completed or aborted. |
| `MagCalProperties.CycleResetWhenDue` | EKF/mag_calibration.cpp:93-107 | Past the gate and the trigger, a due reset always gives the default covariance, zero states, timestamp now and the yaw recorded, whatever the old covariance and states were. |
| `MagCalProperties.CycleSkipsSmallYawChange` | EKF/mag_calibration.cpp:80-90 | Past the gate, a wrapped yaw change under 10 degrees returns with every field kept but the activation flag (then on), the last yaw included. |
| `MagCalProperties.CycleRecordsYaw` | EKF/mag_calibration.cpp:91 | Every cycle past the trigger records the current yaw and was active. |
| `MagCalProperties.CycleReset` | EKF/mag_calibration.cpp:93-109 | A reset cycle: reset was due; default covariance, zero states, timestamp now. |
| `MagCalProperties.CycleNumericalFault` | EKF/mag_calibration.cpp:222-238 | A fault cycle: default covariance, timestamp kept, axis < 3. States are kept on an x fault and within limits otherwise. |
| `MagCalProperties.CycleFused` | EKF/mag_calibration.cpp:176-312 | A completed cycle: timestamp now, covariance symmetric with floored diagonal, states within limits. |
| `MagCalProperties.CycleTimestamp` | EKF/mag_calibration.cpp:105 | The timestamp changes only on a reset or a completed fusion, and then becomes now. |
| `MagCalProperties.CycleKeepsInvariant` | EKF/mag_calibration.cpp:49-312 | Every cycle preserves "covariance symmetric with floored diagonal, states within limits". |
| `MagCalProperties.GuardAdmitsZeroVariance` | EKF/mag_calibration.cpp:223-225 | As written, the guard admits a zero innovation variance for a valid covariance when the noise is 0. |
| `MagCalProperties.WellConditionedGuard` | EKF/mag_calibration.cpp:223-225 | The corrected guard only admits an invertible variance. It is identical to the written one whenever `R_MAG > 0`. |

## Left out

- Trigonometry is a parameter, not modelled. This covers `cosf`/`sinf` of the yaw
  offset, the quaternion product, `quat_to_invrotmat`, the Euler conversion and the
  `t2`–`t24` terms of `H_MAG[3]` (lines 81, 119-169, 186, 194, 202). The caller supplies
  `Teb * mag_EF` and `H_MAG[3]` for each axis as a function of the yaw offset.
- `getGeoMagNED` (line 117) reads the main filter; it is part of that parameter.
- Floating point is left out: single-precision rounding, NaN and infinities.
  `fmaxf`/`fabsf` are modelled on reals. `M_PI_F` and `cosf(radians(45))` are real
  constants, and the time uses `1e-6` exactly.
- `ECL_ERR`, `printf` and the commented-out mavlink debug output (lines 235, 315-334)
  are I/O with no effect on the filter. So is the global `_mavlink_log_pub` (line 47).
- The clamped innovations of AxisUpdate are computed but not kept past the cycle. The
  source keeps them only for printing.
- `MagCalibration.MagCal.constructor` zeroes every field. The initial values the real
  `Ekf` class gives these members are declared in `ekf.h`, which is not part of this
  model.
- `MagCalModel.SequentialStep` and `MagCalModel.FuseThenContinue` are the two halves
  of one step of `SequentialUpdate`; they promise only a 4x4 result.
- `MagCalModel.AxisUpdate`: with `mag_noise <= 0` (so `R_MAG == 0`) and an innovation variance of exactly 0, the source passes the check at line 223 and divides by zero at line 225, writing non-finite gains into the covariance and states. The model reports a conditioning fault there instead: it resets the covariance and keeps the states. Reals cannot represent the division. See "## Findings".
- `MagCalibration.MagCal.FuseAxis`: the same case; it resets the covariance where the source divides by zero. `MagCalModel.SequentialUpdate`, `MagCalModel.FusionStage`, `MagCalModel.Cycle` and `MagCalibration.MagCal.FuseMagCal` inherit this, and only this case, from the corrected check.
- Concurrency: none in the source; each call is one sequential cycle.

## Findings

| source | as written | input that shows it | evidently intended | confidence | as-written member | corrected member |
|---|---|---|---|---|---|---|
| EKF/mag_calibration.cpp:223-225 | `if (mag_innov_var >= R_MAG)` then `1.0f / mag_innov_var`. With `mag_noise <= 0`, `R_MAG` is 0 and the guard admits `mag_innov_var == 0`. | `mag_noise = 0`, `H_MAG[3] = 1` on the x axis, P with variances `1e-12` and `P[0][3] = P[3][0] = -1e-12` (symmetric, floored). `R + H P H'` is exactly 0 and passes the guard, so the gain divides by 0. | Divide only by a positive innovation variance, i.e. also require `mag_innov_var > 0`. This is the same guard for every positive noise parameter. | low: exact-arithmetic argument, not executed | `MagCalProperties.GuardAdmitsZeroVariance` | `MagCalProperties.WellConditionedGuard` |

The model uses the corrected guard (`MagCalModel.WellConditioned`) in `AxisUpdate` and
`MagCal.FuseAxis`. The guard as written is `MagCalModel.GuardAsWritten`.
