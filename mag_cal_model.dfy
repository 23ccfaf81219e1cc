/**
 * Value-level specification of one cycle of the magnetometer-calibration
 * filter (Ekf::fuseMagCal): a 4-state estimator holding three magnetometer
 * bias components and a yaw offset, with a 4x4 covariance.
 *
 * Every scalar is a mathematical real.  The trigonometric and rotation
 * quantities are supplied by the caller (see Geometry).
 */
module MagCalModel {

  // ------------------------------------------------------------------ constants

  /** M_PI_F, written as a real. */
  const Pi: real := 3.141592653589793
  /** M_TWOPI_F */
  const TwoPi: real := 2.0 * Pi

  /** math::radians: degrees to radians. */
  function Radians(deg: real): (rad: real)
  {
    deg * Pi / 180.0
  }

  /** cosf(radians(45)): the tilt limit on the down component of the body z axis. */
  const CosMaxTilt: real := 0.7071067811865476
  /** Smallest delta-angle interval accepted as valid (seconds). */
  const MinDeltaAngDt: real := 0.0001
  /** Yaw rate above which the calibration switches on. */
  const EnterYawRate: real := Radians(10.0)
  /** Yaw rate below which the calibration switches off. */
  const ExitYawRate: real := Radians(5.0)
  /** Yaw change needed since the last cycle that got past the yaw check. */
  const MinYawChange: real := Radians(10.0)
  /** Seconds without fusion after which the filter is reset. */
  const ResetTimeoutSec: real := 20.0
  /** Heading random walk, per second. */
  const YawProcessNoiseRate: real := Radians(0.5)
  /** Limit applied to each innovation before it corrects the states. */
  const InnovLimit: real := 0.5
  /** Limit applied to each bias component. */
  const BiasLimit: real := 0.5
  /** Limit applied to the yaw offset: radians(180). */
  const YawLimit: real := Radians(180.0)
  /** Lower bound forced on every variance. */
  const VarianceFloor: real := 0.000000000001
  /** Microseconds to seconds. */
  const UsToSec: real := 0.000001

  const TwoTo64: int := 0x1_0000_0000_0000_0000

  /** A microsecond timestamp (uint64_t). */
  type Uint64 = x: int | 0 <= x < TwoTo64

  // ------------------------------------------------------------ scalar helpers

  function Abs(x: real): (r: real)
    ensures r >= 0.0 && (r == x || r == -x)
  {
    if x < 0.0 then -x else x
  }

  function Max(a: real, b: real): (r: real)
    ensures r >= a && r >= b && (r == a || r == b)
  {
    if a < b then b else a
  }

  /** math::constrain: clamp v into [lo, hi]. */
  function Constrain(v: real, lo: real, hi: real): (r: real)
    ensures lo <= hi ==> lo <= r <= hi
    ensures lo <= v <= hi ==> r == v
    ensures v < lo ==> r == lo
    ensures lo <= hi && v > hi ==> r == hi
  {
    if v < lo then lo else if v > hi then hi else v
  }

  // ------------------------------------------------------------------- vectors

  datatype Vec3 = Vec3(x: real, y: real, z: real)
  {
    /** Component by axis index, as v(i) in the source. */
    function At(i: int): (c: real)
      requires 0 <= i < 3
    {
      if i == 0 then x else if i == 1 then y else z
    }
  }

  function Plus(a: Vec3, b: Vec3): (r: Vec3)
  {
    Vec3(a.x + b.x, a.y + b.y, a.z + b.z)
  }

  function Minus(a: Vec3, b: Vec3): (r: Vec3)
  {
    Vec3(a.x - b.x, a.y - b.y, a.z - b.z)
  }

  function Dot3(a: Vec3, b: Vec3): (r: real)
  {
    a.x * b.x + a.y * b.y + a.z * b.z
  }

  /** Sum of u[k] * v[k] for k < n, accumulated in index order as the source's loops do. */
  function Dot(u: seq<real>, v: seq<real>, n: nat): (r: real)
    requires n <= |u| && n <= |v|
  {
    if n == 0 then 0.0 else Dot(u, v, n - 1) + u[n - 1] * v[n - 1]
  }

  /** The four-term dot product written out. */
  lemma DotFour(u: seq<real>, v: seq<real>)
    requires |u| >= 4 && |v| >= 4
    ensures Dot(u, v, 4) == u[0] * v[0] + u[1] * v[1] + u[2] * v[2] + u[3] * v[3]
  {
    assert Dot(u, v, 1) == u[0] * v[0];
    assert Dot(u, v, 2) == Dot(u, v, 1) + u[1] * v[1];
    assert Dot(u, v, 3) == Dot(u, v, 2) + u[2] * v[2];
  }

  // ------------------------------------------------------------------ matrices

  /** A matrix as a sequence of rows; the filter only uses 4x4 ones. */
  type Mat = seq<seq<real>>

  ghost predicate IsMat4(m: Mat)
  {
    |m| == 4 && forall i :: 0 <= i < 4 ==> |m[i]| == 4
  }

  ghost predicate Symmetric(m: Mat)
    requires IsMat4(m)
  {
    forall i, j :: 0 <= i < 4 && 0 <= j < 4 ==> m[i][j] == m[j][i]
  }

  ghost predicate DiagFloored(m: Mat)
    requires IsMat4(m)
  {
    forall i :: 0 <= i < 4 ==> m[i][i] >= VarianceFloor
  }

  /** The covariance invariant the filter maintains after every update. */
  ghost predicate CovOk(m: Mat)
  {
    IsMat4(m) && Symmetric(m) && DiagFloored(m)
  }

  /** Two 4x4 matrices with the same entries are equal. */
  lemma MatExt(a: Mat, b: Mat)
    requires IsMat4(a) && IsMat4(b)
    requires forall i, j :: 0 <= i < 4 && 0 <= j < 4 ==> a[i][j] == b[i][j]
    ensures a == b
  {
    forall i | 0 <= i < 4
      ensures a[i] == b[i]
    {
      assert forall j :: 0 <= j < 4 ==> a[i][j] == b[i][j];
    }
  }

  /** The initial covariance: diag(0.25, 0.25, 0.25, 1.0). */
  function DefaultCov(): (m: Mat)
    ensures IsMat4(m)
  {
    [[0.25, 0.0, 0.0, 0.0],
     [0.0, 0.25, 0.0, 0.0],
     [0.0, 0.0, 0.25, 0.0],
     [0.0, 0.0, 0.0, 1.0]]
  }

  /** Entry (r, c) of the default covariance, stated by position. */
  function DefaultEntry(r: int, c: int): (e: real)
  {
    if r != c then 0.0 else if r < 3 then 0.25 else 1.0
  }

  /** Adds q to the yaw-offset variance P[3][3]. */
  function AddYawVariance(m: Mat, q: real): (r: Mat)
    requires IsMat4(m)
    ensures IsMat4(r)
  {
    m[3 := m[3][3 := m[3][3] + q]]
  }

  /** PH = P * H^T, one entry per row. */
  function MulVec(m: Mat, h: seq<real>): (r: seq<real>)
    requires IsMat4(m) && |h| == 4
    ensures |r| == 4
    ensures forall i :: 0 <= i < 4 ==> r[i] == Dot(m[i], h, 4)
  {
    seq(4, i requires 0 <= i < 4 => Dot(m[i], h, 4))
  }

  /** Column c of a matrix. */
  function Column(m: Mat, c: int): (r: seq<real>)
    requires IsMat4(m) && 0 <= c < 4
    ensures |r| == 4 && forall k :: 0 <= k < 4 ==> r[k] == m[k][c]
  {
    [m[0][c], m[1][c], m[2][c], m[3][c]]
  }

  /** HP = H * P, one entry per column. */
  function VecMul(h: seq<real>, m: Mat): (r: seq<real>)
    requires IsMat4(m) && |h| == 4
    ensures |r| == 4
    ensures forall c :: 0 <= c < 4 ==> r[c] == Dot(h, Column(m, c), 4)
  {
    seq(4, c requires 0 <= c < 4 => Dot(h, Column(m, c), 4))
  }

  /** Averages every off-diagonal pair; the diagonal is kept. */
  function Symmetrize(m: Mat): (r: Mat)
    requires IsMat4(m)
    ensures IsMat4(r) && Symmetric(r)
    ensures forall i :: 0 <= i < 4 ==> r[i][i] == m[i][i]
    ensures forall i, j :: 0 <= i < 4 && 0 <= j < 4 ==> r[i][j] + r[j][i] == m[i][j] + m[j][i]
  {
    seq(4, i requires 0 <= i < 4 =>
      seq(4, j requires 0 <= j < 4 =>
        if i == j then m[i][j] else (m[i][j] + m[j][i]) / 2.0))
  }

  /** Raises every diagonal entry to at least VarianceFloor; off-diagonals are kept. */
  function FloorDiag(m: Mat): (r: Mat)
    requires IsMat4(m)
    ensures IsMat4(r) && DiagFloored(r)
    ensures Symmetric(m) ==> Symmetric(r)
    ensures forall i, j :: 0 <= i < 4 && 0 <= j < 4 && i != j ==> r[i][j] == m[i][j]
    ensures forall i :: 0 <= i < 4 && m[i][i] >= VarianceFloor ==> r[i][i] == m[i][i]
  {
    seq(4, i requires 0 <= i < 4 =>
      seq(4, j requires 0 <= j < 4 =>
        if i == j then Max(m[i][j], VarianceFloor) else m[i][j]))
  }

  // ------------------------------------------------------------------ states

  /** _mag_cal_states: the body-frame bias and the yaw offset. */
  datatype CalStates = CalStates(bias: Vec3, yawOffset: real)

  const ZeroStates: CalStates := CalStates(Vec3(0.0, 0.0, 0.0), 0.0)

  /** Bias components within BiasLimit and the yaw offset within YawLimit. */
  ghost predicate StatesInBounds(s: CalStates)
  {
    -BiasLimit <= s.bias.x <= BiasLimit &&
    -BiasLimit <= s.bias.y <= BiasLimit &&
    -BiasLimit <= s.bias.z <= BiasLimit &&
    -YawLimit <= s.yawOffset <= YawLimit
  }

  // --------------------------------------------------------- activation gate

  /** Earth-frame yaw rate: the down row of the body-to-earth rotation applied to the
    * corrected delta angle, divided by the delta-angle interval. */
  function YawRate(rotDown: Vec3, correctedDeltaAng: Vec3, dt: real): (rate: real)
    requires dt > MinDeltaAngDt
    ensures rate * dt == Dot3(rotDown, correctedDeltaAng)
  {
    Dot3(rotDown, correctedDeltaAng) / dt
  }

  /** The tilt is acceptable when the body z axis is within 45 degrees of down. */
  predicate TiltOk(rotDown: Vec3)
  {
    rotDown.z > CosMaxTilt
  }

  /** Hysteresis on the yaw rate: switch on above 10 deg/s (tilt acceptable),
    * switch off below 5 deg/s or when tilted; otherwise keep the flag. */
  function NextActive(active: bool, yawRate: real, tiltOk: bool): (next: bool)
    ensures !active ==> (next <==> Abs(yawRate) > EnterYawRate && tiltOk)
    ensures active ==> (!next <==> Abs(yawRate) < ExitYawRate || !tiltOk)
  {
    if !active && Abs(yawRate) > EnterYawRate && tiltOk then true
    else if active && (Abs(yawRate) < ExitYawRate || !tiltOk) then false
    else active
  }

  // --------------------------------------------------------- yaw-change trigger

  /** Brings a yaw difference into [-pi, pi] with at most one 2*pi correction. */
  function WrapYawDelta(d: real): (r: real)
    ensures r == d || r == d - TwoPi || r == d + TwoPi
    ensures -3.0 * Pi < d < 3.0 * Pi ==> -Pi <= r <= Pi
    ensures -Pi <= d <= Pi ==> r == d
  {
    if d > Pi then d - TwoPi else if d < -Pi then d + TwoPi else d
  }

  /** Fusion runs only once the heading has moved by at least MinYawChange. */
  predicate YawChanged(yaw: real, yawLast: real)
  {
    Abs(WrapYawDelta(yaw - yawLast)) >= MinYawChange
  }

  // ------------------------------------------------------- reset and process noise

  /** Unsigned 64-bit subtraction now - last. */
  function ElapsedUs(now: Uint64, last: Uint64): (d: Uint64)
    ensures now >= last ==> d == now - last
    ensures now < last ==> d == TwoTo64 - (last - now)
  {
    (now - last) % TwoTo64
  }

  function ElapsedSec(now: Uint64, last: Uint64): (t: real)
    ensures t >= 0.0
  {
    UsToSec * ElapsedUs(now, last) as real
  }

  /** Reset the first time (timestamp 0) or after more than 20 s without fusion. */
  predicate NeedsReset(now: Uint64, last: Uint64)
  {
    last == 0 || ElapsedSec(now, last) > ResetTimeoutSec
  }

  /** Variance added to the yaw offset: (dt * radians(0.5))^2. */
  function YawProcessNoise(dtSec: real): (q: real)
    ensures q >= 0.0
  {
    var sd := dtSec * YawProcessNoiseRate;
    sd * sd
  }

  /** R_MAG: the squared measurement noise, the parameter floored at zero. */
  function MeasurementVariance(magNoise: real): (r: real)
    ensures r >= 0.0
    ensures magNoise >= 0.0 ==> r == magNoise * magNoise
    ensures magNoise <= 0.0 ==> r == 0.0
  {
    var n := Max(magNoise, 0.0);
    n * n
  }

  // ------------------------------------------------------------ axis fusion

  /** H_MAG for axis index: a unit vector on the bias entry of that axis, and the
    * yaw-offset derivative h3 as the last entry. */
  function JacobianRow(index: int, h3: real): (h: seq<real>)
    requires 0 <= index < 3
    ensures |h| == 4 && h[3] == h3
    ensures forall k :: 0 <= k < 3 ==> h[k] == (if k == index then 1.0 else 0.0)
  {
    [if index == 0 then 1.0 else 0.0,
     if index == 1 then 1.0 else 0.0,
     if index == 2 then 1.0 else 0.0,
     h3]
  }

  /** Innovation variance R + H P H^T. */
  function InnovVar(m: Mat, h: seq<real>, r: real): (s: real)
    requires IsMat4(m) && |h| == 4
  {
    r + Dot(h, MulVec(m, h), 4)
  }

  /** The guard of the conditioning check exactly as the source writes it. */
  predicate GuardAsWritten(s: real, r: real)
  {
    s >= r
  }

  /** The conditioning check the model uses: the covariance contribution is not
    * negative AND the innovation variance can be inverted. */
  predicate WellConditioned(s: real, r: real)
  {
    s >= r && s > 0.0
  }

  /** Kalman gain K = P H^T / (R + H P H^T). */
  function Gain(m: Mat, h: seq<real>, s: real): (k: seq<real>)
    requires IsMat4(m) && |h| == 4 && s != 0.0
    ensures |k| == 4
    ensures forall i :: 0 <= i < 4 ==> k[i] == MulVec(m, h)[i] / s
  {
    seq(4, i requires 0 <= i < 4 => MulVec(m, h)[i] / s)
  }

  /** P - K (H P): the outer product of the gain K and the row HP subtracted from P. */
  function CovCorrection(m: Mat, k: seq<real>, hp: seq<real>): (r: Mat)
    requires IsMat4(m) && |k| == 4 && |hp| == 4
    ensures IsMat4(r)
    ensures forall i, j {:trigger r[i][j]} :: 0 <= i < 4 && 0 <= j < 4 ==> r[i][j] == m[i][j] - k[i] * hp[j]
  {
    seq(4, i requires 0 <= i < 4 =>
      seq(4, j requires 0 <= j < 4 => m[i][j] - k[i] * hp[j]))
  }

  /** The covariance after one axis: corrected, symmetrised, diagonal floored. */
  function UpdatedCov(m: Mat, k: seq<real>, h: seq<real>): (r: Mat)
    requires IsMat4(m) && |k| == 4 && |h| == 4
    ensures CovOk(r)
  {
    FloorDiag(Symmetrize(CovCorrection(m, k, VecMul(h, m))))
  }

  /** Subtracts the gain-scaled innovation e from the states, then clamps them. */
  function CorrectStates(s: CalStates, k: seq<real>, e: real): (r: CalStates)
    requires |k| == 4
    ensures StatesInBounds(r)
    ensures StatesInBounds(s) && e == 0.0 ==> r == s
  {
    CalStates(
      Vec3(Constrain(s.bias.x - k[0] * e, -BiasLimit, BiasLimit),
           Constrain(s.bias.y - k[1] * e, -BiasLimit, BiasLimit),
           Constrain(s.bias.z - k[2] * e, -BiasLimit, BiasLimit)),
      Constrain(s.yawOffset - k[3] * e, -YawLimit, YawLimit))
  }

  /** Outcome of fusing one axis: a conditioning fault, or the new covariance, the
    * new states and the clamped innovation. */
  datatype AxisResult = Fault | AxisFused(cov: Mat, states: CalStates, innov: real)

  /** One scalar Kalman update on axis index, with measurement innovation innov. */
  function AxisUpdate(m: Mat, s: CalStates, index: int, h3: real, innov: real, r: real): (res: AxisResult)
    requires IsMat4(m) && 0 <= index < 3
    ensures res.Fault? <==> !WellConditioned(InnovVar(m, JacobianRow(index, h3), r), r)
    ensures res.AxisFused? ==> CovOk(res.cov) && StatesInBounds(res.states)
    ensures res.AxisFused? ==> -InnovLimit <= res.innov <= InnovLimit
  {
    var h := JacobianRow(index, h3);
    var sv := InnovVar(m, h, r);
    if !WellConditioned(sv, r) then Fault
    else
      var k := Gain(m, h, sv);
      var e := Constrain(innov, -InnovLimit, InnovLimit);
      AxisFused(UpdatedCov(m, k, h), CorrectStates(s, k, e), e)
  }

  /** Outcome of the axis sequence: all axes fused, or aborted at an axis. */
  datatype FusionResult =
    | Completed(cov: Mat, states: CalStates)
    | Aborted(cov: Mat, states: CalStates, axis: nat)

  /** Fuses axes index, index+1, ..., 2 in turn, each starting from the covariance and
    * states left by the previous one; a fault resets the covariance and stops. */
  function SequentialUpdate(m: Mat, s: CalStates, predicted: Vec3, measured: Vec3,
                            yawJacobian: Vec3, r: real, index: nat): (res: FusionResult)
    requires IsMat4(m) && index <= 3
    ensures IsMat4(res.cov)
    // The middle components order the three mutually recursive calls; the trailing,
    // non-literal `m` keeps the verifier from unfolding all three axes on literal indices.
    decreases 3 - index, 1, 0, m
  {
    if index == 3 then Completed(m, s)
    else SequentialStep(m, s, predicted, measured, yawJacobian, r, index)
  }

  /** Axis `index` and the ones after it: the axis's H_MAG[3] entry and its innovation,
    * predicted minus measured, go to FuseThenContinue. */
  function SequentialStep(m: Mat, s: CalStates, predicted: Vec3, measured: Vec3,
                          yawJacobian: Vec3, r: real, index: nat): (res: FusionResult)
    requires IsMat4(m) && index < 3
    ensures IsMat4(res.cov)
    decreases 3 - index, 0, 1, m
  {
    FuseThenContinue(m, s, index, yawJacobian.At(index), predicted.At(index) - measured.At(index),
                     predicted, measured, yawJacobian, r)
  }

  /** The fusion of axis `index` followed by the remaining axes: a fault stops the
    * sequence there with the reset covariance and the states as they were. */
  function FuseThenContinue(m: Mat, s: CalStates, index: nat, h3: real, innov: real,
                            predicted: Vec3, measured: Vec3, yawJacobian: Vec3, r: real): (res: FusionResult)
    requires IsMat4(m) && index < 3
    ensures IsMat4(res.cov)
    decreases 3 - index, 0, 0, m
  {
    match AxisUpdate(m, s, index, h3, innov, r)
    case Fault => Aborted(DefaultCov(), s, index)
    case AxisFused(m1, s1, _) => SequentialUpdate(m1, s1, predicted, measured, yawJacobian, r, index + 1)
  }

  /** Unfolding of SequentialUpdate at an axis that fuses. */
  lemma SequentialStepFused(m: Mat, s: CalStates, predicted: Vec3, measured: Vec3,
                            yawJacobian: Vec3, r: real, index: nat)
    requires IsMat4(m) && index < 3
    requires AxisUpdate(m, s, index, yawJacobian.At(index), predicted.At(index) - measured.At(index), r).AxisFused?
    ensures var a := AxisUpdate(m, s, index, yawJacobian.At(index), predicted.At(index) - measured.At(index), r);
      SequentialUpdate(m, s, predicted, measured, yawJacobian, r, index)
      == SequentialUpdate(a.cov, a.states, predicted, measured, yawJacobian, r, index + 1)
  {
    assert SequentialUpdate(m, s, predicted, measured, yawJacobian, r, index)
      == SequentialStep(m, s, predicted, measured, yawJacobian, r, index)
      == FuseThenContinue(m, s, index, yawJacobian.At(index), predicted.At(index) - measured.At(index),
                          predicted, measured, yawJacobian, r);
  }

  /** Unfolding of SequentialUpdate at an axis whose conditioning check fails. */
  lemma SequentialStepFault(m: Mat, s: CalStates, predicted: Vec3, measured: Vec3,
                            yawJacobian: Vec3, r: real, index: nat)
    requires IsMat4(m) && index < 3
    requires AxisUpdate(m, s, index, yawJacobian.At(index), predicted.At(index) - measured.At(index), r).Fault?
    ensures SequentialUpdate(m, s, predicted, measured, yawJacobian, r, index) == Aborted(DefaultCov(), s, index)
  {
    assert SequentialUpdate(m, s, predicted, measured, yawJacobian, r, index)
      == SequentialStep(m, s, predicted, measured, yawJacobian, r, index)
      == FuseThenContinue(m, s, index, yawJacobian.At(index), predicted.At(index) - measured.At(index),
                          predicted, measured, yawJacobian, r);
  }

  // --------------------------------------------------------------- one cycle

  /** What the caller computes from the yaw offset with trigonometry: the earth field
    * rotated into the body frame (Teb * mag_EF) and H_MAG[3] for the x, y, z axes. */
  datatype Geometry = Geometry(rotatedField: Vec3, yawJacobian: Vec3)

  /** Everything one cycle reads from the primary filter and the sensors. */
  datatype CycleInputs = CycleInputs(
    deltaAng: Vec3,               // _imu_sample_delayed.delta_ang
    gyroBias: Vec3,               // _state.gyro_bias
    deltaAngDt: real,             // _imu_sample_delayed.delta_ang_dt
    timeUs: Uint64,               // _imu_sample_delayed.time_us
    rotDown: Vec3,                // third row of _R_to_earth
    eulerYaw: real,               // yaw of the 3-2-1 Euler angles of _state.quat_nominal
    magMeasured: Vec3,            // _mag_sample_delayed.mag
    magNoise: real,               // _params.mag_noise
    magUseInhibit: bool,          // _mag_use_inhibit
    geometry: real -> Geometry)   // trigonometry as a function of the yaw offset

  /** The fields of the filter that one cycle reads and writes. */
  datatype FilterState = FilterState(
    active: bool,        // _mag_bias_ekf_active
    yawLast: real,       // _mag_bias_ekf_yaw_last
    timeUs: Uint64,      // _mag_bias_ekf_time_us
    states: CalStates,   // _mag_cal_states
    cov: Mat)            // _mag_cov_mat

  datatype Outcome =
    | InvalidDt
    | Gated
    | SmallYawChange
    | Reset
    | NumericalFault(axis: nat)
    | Fused

  datatype CycleResult = CycleResult(state: FilterState, outcome: Outcome)

  /** One complete cycle of the calibration filter. */
  function Cycle(st: FilterState, inp: CycleInputs): (res: CycleResult)
    requires IsMat4(st.cov)
    ensures IsMat4(res.state.cov)
  {
    if !(inp.deltaAngDt > MinDeltaAngDt) then CycleResult(st, InvalidDt)
    else
      var rate := YawRate(inp.rotDown, Minus(inp.deltaAng, inp.gyroBias), inp.deltaAngDt);
      var st1 := st.(active := NextActive(st.active, rate, TiltOk(inp.rotDown)));
      if !inp.magUseInhibit || !st1.active then CycleResult(st1, Gated)
      else if !YawChanged(inp.eulerYaw, st.yawLast) then CycleResult(st1, SmallYawChange)
      else FusionStage(st1.(yawLast := inp.eulerYaw), inp)
  }

  /** The part of a cycle after the yaw trigger: a reset when the estimate is stale,
    * otherwise process noise and the three sequential axis updates. */
  function FusionStage(st: FilterState, inp: CycleInputs): (res: CycleResult)
    requires IsMat4(st.cov)
    ensures IsMat4(res.state.cov)
  {
    if NeedsReset(inp.timeUs, st.timeUs) then
      CycleResult(st.(cov := DefaultCov(), states := ZeroStates, timeUs := inp.timeUs), Reset)
    else
      var m := AddYawVariance(st.cov, YawProcessNoise(ElapsedSec(inp.timeUs, st.timeUs)));
      var g := inp.geometry(st.states.yawOffset);
      var predicted := Plus(g.rotatedField, st.states.bias);
      FusionOutcome(st, inp, SequentialUpdate(m, st.states, predicted, inp.magMeasured, g.yawJacobian,
                                             MeasurementVariance(inp.magNoise), 0))
  }

  /** FusionStage when no reset is due, with its intermediate values named. */
  lemma FusionStageFuses(st: FilterState, inp: CycleInputs, m: Mat, predicted: Vec3, r: real)
    requires IsMat4(st.cov) && !NeedsReset(inp.timeUs, st.timeUs)
    requires m == AddYawVariance(st.cov, YawProcessNoise(ElapsedSec(inp.timeUs, st.timeUs)))
    requires predicted == Plus(inp.geometry(st.states.yawOffset).rotatedField, st.states.bias)
    requires r == MeasurementVariance(inp.magNoise)
    ensures FusionStage(st, inp) == FusionOutcome(st, inp, SequentialUpdate(m, st.states, predicted,
      inp.magMeasured, inp.geometry(st.states.yawOffset).yawJacobian, r, 0))
  {
  }

  /** The filter after the axis sequence: on an abort the reset covariance and the states
    * reached so far, the timestamp kept; on completion the timestamp advanced too. */
  function FusionOutcome(st: FilterState, inp: CycleInputs, fr: FusionResult): (res: CycleResult)
    ensures res.state == st.(cov := fr.cov, states := fr.states, timeUs := res.state.timeUs)
    ensures fr.Completed? ==> res.outcome == Fused && res.state.timeUs == inp.timeUs
    ensures fr.Aborted? ==> res.outcome == NumericalFault(fr.axis) && res.state.timeUs == st.timeUs
  {
    match fr
    case Aborted(m1, s1, axis) =>
      CycleResult(st.(cov := m1, states := s1), NumericalFault(axis))
    case Completed(m1, s1) =>
      CycleResult(st.(cov := m1, states := s1, timeUs := inp.timeUs), Fused)
  }
}
