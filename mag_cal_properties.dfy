/**
 * Properties of the magnetometer-calibration cycle, proved about the
 * value-level specification in MagCalModel.
 */
module MagCalProperties {
  import opened MagCalModel

  // --------------------------------------------------------- activation gate

  /** Between the two thresholds, with the tilt acceptable, the flag never changes. */
  lemma HysteresisBand(active: bool, rate: real)
    requires ExitYawRate <= Abs(rate) <= EnterYawRate
    ensures NextActive(active, rate, true) == active
  {
  }

  /** The flag after a run of cycles with the given yaw rates. */
  function ActiveAfter(active: bool, rates: seq<real>, tiltOk: bool): (a: bool)
    decreases |rates|
  {
    if rates == [] then active
    else ActiveAfter(NextActive(active, rates[0], tiltOk), rates[1..], tiltOk)
  }

  /** Once on, the calibration stays on while the yaw rate stays at or above the exit
    * threshold and the tilt is acceptable, however the rate varies. */
  lemma {:induction false} StaysActive(rates: seq<real>)
    requires forall i :: 0 <= i < |rates| ==> Abs(rates[i]) >= ExitYawRate
    ensures ActiveAfter(true, rates, true)
    decreases |rates|
  {
    if rates != [] {
      StaysActive(rates[1..]);
    }
  }

  /** While off, the calibration stays off while the yaw rate never exceeds the enter
    * threshold. */
  lemma {:induction false} StaysInactive(rates: seq<real>, tiltOk: bool)
    requires forall i :: 0 <= i < |rates| ==> Abs(rates[i]) <= EnterYawRate
    ensures !ActiveAfter(false, rates, tiltOk)
    decreases |rates|
  {
    if rates != [] {
      StaysInactive(rates[1..], tiltOk);
    }
  }

  // ------------------------------------------------------------ yaw trigger

  /** Two Euler yaw angles in [-pi, pi] always have a wrapped difference in [-pi, pi]
    * that differs from the raw one by a whole turn at most. */
  lemma EulerYawDeltaWraps(yaw: real, yawLast: real)
    requires -Pi <= yaw <= Pi && -Pi <= yawLast <= Pi
    ensures -Pi <= WrapYawDelta(yaw - yawLast) <= Pi
  {
  }

  // ---------------------------------------------------------------- timing

  /** A timestamp that steps back (by less than 2^64 - 2*10^7 us) wraps around as an
    * unsigned difference and so forces a reset. */
  lemma BackwardClockForcesReset(now: Uint64, last: Uint64)
    requires now < last && last - now < TwoTo64 - 20000000
    ensures NeedsReset(now, last)
  {
    var d := ElapsedUs(now, last);
    assert d as real > 20000000.0;
  }

  /** A forward step of more than 20 s forces a reset, one of at most 20 s does not
    * (once a fusion has been recorded). */
  lemma ForwardClockReset(now: Uint64, last: Uint64)
    requires last != 0 && now >= last
    ensures NeedsReset(now, last) <==> now - last > 20000000
  {
  }

  // ---------------------------------------------------------- process noise

  /** Process noise touches P[3][3] alone, raises it by a non-negative amount and
    * keeps the covariance invariant. */
  lemma ProcessNoiseOnlyYaw(m: Mat, dtSec: real)
    requires IsMat4(m)
    ensures var r := AddYawVariance(m, YawProcessNoise(dtSec));
      (forall i, j :: 0 <= i < 4 && 0 <= j < 4 && (i != 3 || j != 3) ==> r[i][j] == m[i][j]) &&
      r[3][3] == m[3][3] + YawProcessNoise(dtSec) && r[3][3] >= m[3][3] &&
      (CovOk(m) ==> CovOk(r))
  {
  }

  // ------------------------------------------------------- reset covariance

  /** The default covariance is the diagonal (0.25, 0.25, 0.25, 1.0) and satisfies the
    * covariance invariant. */
  lemma DefaultCovShape()
    ensures CovOk(DefaultCov())
    ensures forall i, j :: 0 <= i < 4 && 0 <= j < 4 ==> DefaultCov()[i][j] == DefaultEntry(i, j)
  {
  }

  // ------------------------------------------------------------ axis algebra

  /** With the unit Jacobian row of an axis the innovation variance is
    * R + P[i][i] + h3 (P[i][3] + P[3][i]) + h3^2 P[3][3]. */
  lemma InnovVarOfAxis(m: Mat, index: int, h3: real, r: real)
    requires IsMat4(m) && 0 <= index < 3
    ensures InnovVar(m, JacobianRow(index, h3), r)
         == r + m[index][index] + h3 * (m[index][3] + m[3][index]) + h3 * h3 * m[3][3]
  {
    var h := JacobianRow(index, h3);
    var ph := MulVec(m, h);
    forall i | 0 <= i < 4
      ensures ph[i] == m[i][index] + m[i][3] * h3
    {
      DotFour(m[i], h);
    }
    DotFour(h, ph);
    assert Dot(h, ph, 4) == ph[index] + h3 * ph[3];
  }

  /** Right after a reset plus any process noise, no axis trips the conditioning check. */
  lemma ResetCovWellConditioned(q: real, index: int, h3: real, r: real)
    requires q >= 0.0 && r >= 0.0 && 0 <= index < 3
    ensures WellConditioned(InnovVar(AddYawVariance(DefaultCov(), q), JacobianRow(index, h3), r), r)
  {
    var m := AddYawVariance(DefaultCov(), q);
    InnovVarOfAxis(m, index, h3, r);
    assert m[index][index] == 0.25 && m[index][3] == 0.0 && m[3][index] == 0.0;
    assert h3 * (m[index][3] + m[3][index]) == 0.0;
    assert h3 * h3 * m[3][3] >= 0.0 by {
      assert h3 * h3 >= 0.0;
      assert m[3][3] >= 1.0;
    }
    assert InnovVar(m, JacobianRow(index, h3), r) >= r + 0.25;
  }

  /** For a symmetric P, H P equals (P H^T)^T. */
  lemma RowTimesSymmetric(m: Mat, h: seq<real>)
    requires IsMat4(m) && Symmetric(m) && |h| == 4
    ensures VecMul(h, m) == MulVec(m, h)
  {
    forall c | 0 <= c < 4
      ensures VecMul(h, m)[c] == MulVec(m, h)[c]
    {
      DotFour(h, Column(m, c));
      DotFour(m[c], h);
    }
  }

  /** With K = PH / S, K[i] PH[j] == K[j] PH[i]. */
  lemma GainProductSwap(ki: real, kj: real, phi: real, phj: real, s: real)
    requires s != 0.0 && ki == phi / s && kj == phj / s
    ensures ki * phj == kj * phi
  {
  }

  /** Entry form of the gain swap for the Kalman gain of P and H. */
  lemma GainSwapAt(m: Mat, h: seq<real>, s: real, i: int, j: int)
    requires IsMat4(m) && |h| == 4 && s != 0.0
    requires 0 <= i < 4 && 0 <= j < 4
    ensures Gain(m, h, s)[i] * MulVec(m, h)[j] == Gain(m, h, s)[j] * MulVec(m, h)[i]
  {
    var k := Gain(m, h, s);
    var ph := MulVec(m, h);
    GainProductSwap(k[i], k[j], ph[i], ph[j], s);
  }

  /** A symmetric P minus an outer product k p' with k p' symmetric is symmetric. */
  lemma CorrectionSymmetricFor(m: Mat, k: seq<real>, p: seq<real>)
    requires IsMat4(m) && Symmetric(m) && |k| == 4 && |p| == 4
    requires forall i, j :: 0 <= i < 4 && 0 <= j < 4 ==> k[i] * p[j] == k[j] * p[i]
    ensures Symmetric(CovCorrection(m, k, p))
  {
    var c := CovCorrection(m, k, p);
    forall i, j | 0 <= i < 4 && 0 <= j < 4
      ensures c[i][j] == c[j][i]
    {
      assert c[i][j] == m[i][j] - k[i] * p[j];
      assert c[j][i] == m[j][i] - k[j] * p[i];
      assert m[i][j] == m[j][i];
      assert k[i] * p[j] == k[j] * p[i];
    }
  }

  /** The Kalman gain K = PH / S makes K PH' symmetric. */
  lemma GainOuterSymmetric(m: Mat, h: seq<real>, s: real)
    requires IsMat4(m) && |h| == 4 && s != 0.0
    ensures forall i, j :: 0 <= i < 4 && 0 <= j < 4 ==>
      Gain(m, h, s)[i] * MulVec(m, h)[j] == Gain(m, h, s)[j] * MulVec(m, h)[i]
  {
    forall i, j | 0 <= i < 4 && 0 <= j < 4
      ensures Gain(m, h, s)[i] * MulVec(m, h)[j] == Gain(m, h, s)[j] * MulVec(m, h)[i]
    {
      GainSwapAt(m, h, s, i, j);
    }
  }

  /** For a symmetric P the update P - K (H P), K the Kalman gain, is symmetric too. */
  lemma CorrectionKeepsSymmetry(m: Mat, h: seq<real>, s: real)
    requires IsMat4(m) && Symmetric(m) && |h| == 4 && s != 0.0
    ensures Symmetric(CovCorrection(m, Gain(m, h, s), VecMul(h, m)))
  {
    var k, p := Gain(m, h, s), MulVec(m, h);
    assert Symmetric(CovCorrection(m, k, p)) by {
      GainOuterSymmetric(m, h, s);
      CorrectionSymmetricFor(m, k, p);
    }
    assert VecMul(h, m) == p by {
      RowTimesSymmetric(m, h);
    }
  }

  /** Averaging the off-diagonal pairs leaves a symmetric matrix as it is. */
  lemma SymmetrizeFixesSymmetric(m: Mat)
    requires IsMat4(m) && Symmetric(m)
    ensures Symmetrize(m) == m
  {
    var sm := Symmetrize(m);
    forall i, j | 0 <= i < 4 && 0 <= j < 4
      ensures sm[i][j] == m[i][j]
    {
      assert sm[i][j] + sm[j][i] == m[i][j] + m[j][i];
    }
    MatExt(sm, m);
  }

  /** For a symmetric P the symmetrisation step changes nothing in exact arithmetic. */
  lemma SymmetrizeExactForSymmetricCov(m: Mat, h: seq<real>, s: real)
    requires IsMat4(m) && Symmetric(m) && |h| == 4 && s != 0.0
    ensures Symmetrize(CovCorrection(m, Gain(m, h, s), VecMul(h, m))) == CovCorrection(m, Gain(m, h, s), VecMul(h, m))
  {
    CorrectionKeepsSymmetry(m, h, s);
    SymmetrizeFixesSymmetric(CovCorrection(m, Gain(m, h, s), VecMul(h, m)));
  }

  /** A zero innovation leaves in-bounds states unchanged. */
  lemma ZeroInnovationKeepsStates(m: Mat, s: CalStates, index: int, h3: real, r: real)
    requires IsMat4(m) && 0 <= index < 3 && StatesInBounds(s)
    ensures AxisUpdate(m, s, index, h3, 0.0, r).AxisFused? ==> AxisUpdate(m, s, index, h3, 0.0, r).states == s
  {
  }

  // ------------------------------------------------------- axis sequence

  /** When every remaining axis fuses, the covariance ends symmetric with a floored
    * diagonal and the states end within their limits. */
  lemma {:induction false} SequentialCompleted(m: Mat, s: CalStates, predicted: Vec3, measured: Vec3,
                                               yj: Vec3, r: real, index: nat)
    requires IsMat4(m) && index < 3
    requires SequentialUpdate(m, s, predicted, measured, yj, r, index).Completed?
    ensures CovOk(SequentialUpdate(m, s, predicted, measured, yj, r, index).cov)
    ensures StatesInBounds(SequentialUpdate(m, s, predicted, measured, yj, r, index).states)
    decreases 3 - index
  {
    var a := AxisUpdate(m, s, index, yj.At(index), predicted.At(index) - measured.At(index), r);
    if a.Fault? {
      SequentialStepFault(m, s, predicted, measured, yj, r, index);
    } else {
      SequentialStepFused(m, s, predicted, measured, yj, r, index);
      if index < 2 {
        SequentialCompleted(a.cov, a.states, predicted, measured, yj, r, index + 1);
      }
    }
  }

  /** A fault on some axis resets the covariance to the default, stops at that axis,
    * and keeps the state corrections made on the axes before it (none when the fault
    * is on the first remaining axis). */
  lemma {:induction false} SequentialAborted(m: Mat, s: CalStates, predicted: Vec3, measured: Vec3,
                                             yj: Vec3, r: real, index: nat)
    requires IsMat4(m) && index <= 3
    requires SequentialUpdate(m, s, predicted, measured, yj, r, index).Aborted?
    ensures var res := SequentialUpdate(m, s, predicted, measured, yj, r, index);
      res.cov == DefaultCov() && index <= res.axis < 3 &&
      (res.axis == index ==> res.states == s) &&
      (res.axis > index ==> StatesInBounds(res.states))
    decreases 3 - index
  {
    if index < 3 {
      var a := AxisUpdate(m, s, index, yj.At(index), predicted.At(index) - measured.At(index), r);
      if a.AxisFused? {
        SequentialStepFused(m, s, predicted, measured, yj, r, index);
        SequentialAborted(a.cov, a.states, predicted, measured, yj, r, index + 1);
      } else {
        SequentialStepFault(m, s, predicted, measured, yj, r, index);
      }
    }
  }

  /** The axes are fused in the order x, y, z, each from the covariance and states the
    * previous axis left; the result is the one the last axis produces. */
  lemma SequentialOrder(m0: Mat, s0: CalStates, predicted: Vec3, measured: Vec3, yj: Vec3, r: real)
    requires IsMat4(m0)
    requires AxisUpdate(m0, s0, 0, yj.x, predicted.x - measured.x, r).AxisFused?
    requires var a0 := AxisUpdate(m0, s0, 0, yj.x, predicted.x - measured.x, r);
      AxisUpdate(a0.cov, a0.states, 1, yj.y, predicted.y - measured.y, r).AxisFused?
    requires var a0 := AxisUpdate(m0, s0, 0, yj.x, predicted.x - measured.x, r);
      var a1 := AxisUpdate(a0.cov, a0.states, 1, yj.y, predicted.y - measured.y, r);
      AxisUpdate(a1.cov, a1.states, 2, yj.z, predicted.z - measured.z, r).AxisFused?
    ensures var a0 := AxisUpdate(m0, s0, 0, yj.x, predicted.x - measured.x, r);
      var a1 := AxisUpdate(a0.cov, a0.states, 1, yj.y, predicted.y - measured.y, r);
      var a2 := AxisUpdate(a1.cov, a1.states, 2, yj.z, predicted.z - measured.z, r);
      SequentialUpdate(m0, s0, predicted, measured, yj, r, 0) == Completed(a2.cov, a2.states)
  {
    var a0 := AxisUpdate(m0, s0, 0, yj.x, predicted.x - measured.x, r);
    var a1 := AxisUpdate(a0.cov, a0.states, 1, yj.y, predicted.y - measured.y, r);
    SequentialStepFused(m0, s0, predicted, measured, yj, r, 0);
    SequentialStepFused(a0.cov, a0.states, predicted, measured, yj, r, 1);
    SequentialStepFused(a1.cov, a1.states, predicted, measured, yj, r, 2);
  }

  /** A measurement equal to the prediction leaves in-bounds states unchanged on every
    * axis that fuses. */
  lemma {:induction false} ExactMeasurementKeepsStates(m: Mat, s: CalStates, predicted: Vec3,
                                                       yj: Vec3, r: real, index: nat)
    requires IsMat4(m) && index <= 3 && StatesInBounds(s)
    ensures SequentialUpdate(m, s, predicted, predicted, yj, r, index).states == s
    decreases 3 - index
  {
    if index < 3 {
      var innov := predicted.At(index) - predicted.At(index);
      assert innov == 0.0;
      ZeroInnovationKeepsStates(m, s, index, yj.At(index), r);
      var a := AxisUpdate(m, s, index, yj.At(index), innov, r);
      if a.AxisFused? {
        SequentialStepFused(m, s, predicted, predicted, yj, r, index);
        ExactMeasurementKeepsStates(a.cov, a.states, predicted, yj, r, index + 1);
      } else {
        SequentialStepFault(m, s, predicted, predicted, yj, r, index);
      }
    }
  }

  // --------------------------------------------------------------- one cycle

  /** An invalid delta-angle interval leaves every field untouched. */
  lemma CycleInvalidDt(st: FilterState, inp: CycleInputs)
    requires IsMat4(st.cov) && inp.deltaAngDt <= MinDeltaAngDt
    ensures Cycle(st, inp) == CycleResult(st, InvalidDt)
  {
  }

  /** The cycle gets past the interval check, the inhibit flag and the activation gate. */
  ghost predicate PastGate(st: FilterState, inp: CycleInputs)
  {
    inp.deltaAngDt > MinDeltaAngDt && inp.magUseInhibit &&
    NextActive(st.active, YawRate(inp.rotDown, Minus(inp.deltaAng, inp.gyroBias), inp.deltaAngDt),
               TiltOk(inp.rotDown))
  }

  /** Each outcome happens exactly under its own condition on the inputs and the old
    * fields: the early returns in order, then a reset when one is due, and fusion
    * (completed or aborted) otherwise. */
  lemma CycleBranches(st: FilterState, inp: CycleInputs)
    requires IsMat4(st.cov)
    ensures Cycle(st, inp).outcome == InvalidDt <==> inp.deltaAngDt <= MinDeltaAngDt
    ensures Cycle(st, inp).outcome == Gated <==> inp.deltaAngDt > MinDeltaAngDt && !PastGate(st, inp)
    ensures Cycle(st, inp).outcome == SmallYawChange <==>
      PastGate(st, inp) && !YawChanged(inp.eulerYaw, st.yawLast)
    ensures Cycle(st, inp).outcome == Reset <==>
      PastGate(st, inp) && YawChanged(inp.eulerYaw, st.yawLast) && NeedsReset(inp.timeUs, st.timeUs)
    ensures Cycle(st, inp).outcome == Fused || Cycle(st, inp).outcome.NumericalFault? <==>
      PastGate(st, inp) && YawChanged(inp.eulerYaw, st.yawLast) && !NeedsReset(inp.timeUs, st.timeUs)
  {
  }

  /** A reset that is due (timestamp 0 or more than 20 s elapsed) past the gate and the
    * trigger always happens, whatever the old covariance and states were: default
    * covariance, zero states, timestamp now, yaw recorded, calibration on. */
  lemma CycleResetWhenDue(st: FilterState, inp: CycleInputs)
    requires IsMat4(st.cov) && PastGate(st, inp)
    requires YawChanged(inp.eulerYaw, st.yawLast) && NeedsReset(inp.timeUs, st.timeUs)
    ensures Cycle(st, inp) ==
      CycleResult(FilterState(true, inp.eulerYaw, inp.timeUs, ZeroStates, DefaultCov()), Reset)
  {
  }

  /** A wrapped yaw change under 10 degrees past the gate returns with every field but
    * the (then set) activation flag kept, the last fused yaw included. */
  lemma CycleSkipsSmallYawChange(st: FilterState, inp: CycleInputs)
    requires IsMat4(st.cov) && PastGate(st, inp)
    requires !YawChanged(inp.eulerYaw, st.yawLast)
    ensures Cycle(st, inp) == CycleResult(st.(active := true), SmallYawChange)
  {
  }

  /** With the gate off or the inhibit flag false, only the activation flag may change. */
  lemma CycleGated(st: FilterState, inp: CycleInputs)
    requires IsMat4(st.cov) && inp.deltaAngDt > MinDeltaAngDt
    requires var next := NextActive(st.active,
        YawRate(inp.rotDown, Minus(inp.deltaAng, inp.gyroBias), inp.deltaAngDt), TiltOk(inp.rotDown));
      !inp.magUseInhibit || !next
    ensures Cycle(st, inp).outcome == Gated
    ensures Cycle(st, inp).state == st.(active := Cycle(st, inp).state.active)
  {
  }

  /** When the heading has moved by less than 10 degrees, only the activation flag may
    * change; in particular the last fused yaw is kept. */
  lemma CycleSmallYawChange(st: FilterState, inp: CycleInputs)
    requires IsMat4(st.cov)
    requires Cycle(st, inp).outcome == SmallYawChange
    ensures !YawChanged(inp.eulerYaw, st.yawLast)
    ensures Cycle(st, inp).state == st.(active := true)
  {
  }

  /** Whenever the cycle gets past the yaw trigger, the current yaw is recorded. */
  lemma CycleRecordsYaw(st: FilterState, inp: CycleInputs)
    requires IsMat4(st.cov)
    requires Cycle(st, inp).outcome in {Reset, Fused} || Cycle(st, inp).outcome.NumericalFault?
    ensures YawChanged(inp.eulerYaw, st.yawLast)
    ensures Cycle(st, inp).state.yawLast == inp.eulerYaw
    ensures Cycle(st, inp).state.active
  {
  }

  /** The reset cycle: default covariance, zero states, timestamp now, no fusion. */
  lemma CycleReset(st: FilterState, inp: CycleInputs)
    requires IsMat4(st.cov)
    ensures Cycle(st, inp).outcome == Reset ==> NeedsReset(inp.timeUs, st.timeUs)
    ensures Cycle(st, inp).outcome == Reset ==>
      var s := Cycle(st, inp).state;
      s.cov == DefaultCov() && s.states == ZeroStates && s.timeUs == inp.timeUs
  {
  }

  /** A conditioning fault: default covariance, timestamp not advanced, and the states
    * either untouched (fault on x) or as corrected by the earlier axes. */
  lemma CycleNumericalFault(st: FilterState, inp: CycleInputs)
    requires IsMat4(st.cov)
    requires Cycle(st, inp).outcome.NumericalFault?
    ensures var res := Cycle(st, inp);
      res.state.cov == DefaultCov() && res.state.timeUs == st.timeUs &&
      res.outcome.axis < 3 &&
      (res.outcome.axis == 0 ==> res.state.states == st.states) &&
      (res.outcome.axis > 0 ==> StatesInBounds(res.state.states))
  {
    var m := AddYawVariance(st.cov, YawProcessNoise(ElapsedSec(inp.timeUs, st.timeUs)));
    var g := inp.geometry(st.states.yawOffset);
    SequentialAborted(m, st.states, Plus(g.rotatedField, st.states.bias), inp.magMeasured,
                      g.yawJacobian, MeasurementVariance(inp.magNoise), 0);
  }

  /** A completed fusion: timestamp now, covariance symmetric with floored diagonal,
    * states within their limits. */
  lemma CycleFused(st: FilterState, inp: CycleInputs)
    requires IsMat4(st.cov)
    requires Cycle(st, inp).outcome == Fused
    ensures var s := Cycle(st, inp).state;
      s.timeUs == inp.timeUs && CovOk(s.cov) && StatesInBounds(s.states)
  {
    var m := AddYawVariance(st.cov, YawProcessNoise(ElapsedSec(inp.timeUs, st.timeUs)));
    var g := inp.geometry(st.states.yawOffset);
    SequentialCompleted(m, st.states, Plus(g.rotatedField, st.states.bias), inp.magMeasured,
                        g.yawJacobian, MeasurementVariance(inp.magNoise), 0);
  }

  /** The timestamp moves only on a reset or a completed three-axis fusion. */
  lemma CycleTimestamp(st: FilterState, inp: CycleInputs)
    requires IsMat4(st.cov)
    ensures Cycle(st, inp).state.timeUs != st.timeUs ==> Cycle(st, inp).outcome in {Reset, Fused}
    ensures Cycle(st, inp).outcome in {Reset, Fused} ==> Cycle(st, inp).state.timeUs == inp.timeUs
  {
  }

  /** Every cycle keeps the covariance invariant and the state limits. */
  lemma CycleKeepsInvariant(st: FilterState, inp: CycleInputs)
    requires CovOk(st.cov) && StatesInBounds(st.states)
    ensures CovOk(Cycle(st, inp).state.cov) && StatesInBounds(Cycle(st, inp).state.states)
  {
    var res := Cycle(st, inp);
    match res.outcome
    case InvalidDt =>
    case Gated =>
    case SmallYawChange =>
    case Reset =>
      CycleReset(st, inp);
      DefaultCovShape();
    case NumericalFault(_) =>
      CycleNumericalFault(st, inp);
      DefaultCovShape();
    case Fused =>
      CycleFused(st, inp);
  }

  // ------------------------------------------------ conditioning guard (finding)

  /** As written, the guard lets a zero innovation variance through when the noise
    * parameter is zero: the covariance below satisfies CovOk, gives R + H P H^T == 0 on
    * the x axis with H_MAG[3] == 1, and the source then divides by it. */
  lemma GuardAdmitsZeroVariance()
    ensures var bad := [[VarianceFloor, 0.0, 0.0, -VarianceFloor],
                        [0.0, VarianceFloor, 0.0, 0.0],
                        [0.0, 0.0, VarianceFloor, 0.0],
                        [-VarianceFloor, 0.0, 0.0, VarianceFloor]];
      var r := MeasurementVariance(0.0);
      CovOk(bad) &&
      InnovVar(bad, JacobianRow(0, 1.0), r) == 0.0 &&
      GuardAsWritten(InnovVar(bad, JacobianRow(0, 1.0), r), r) &&
      !WellConditioned(InnovVar(bad, JacobianRow(0, 1.0), r), r)
  {
    var bad := [[VarianceFloor, 0.0, 0.0, -VarianceFloor],
                [0.0, VarianceFloor, 0.0, 0.0],
                [0.0, 0.0, VarianceFloor, 0.0],
                [-VarianceFloor, 0.0, 0.0, VarianceFloor]];
    InnovVarOfAxis(bad, 0, 1.0, MeasurementVariance(0.0));
  }

  /** The corrected guard only ever admits an invertible innovation variance, and it
    * agrees with the written one whenever the measurement variance is positive, which
    * is the case for every positive noise parameter. */
  lemma WellConditionedGuard(s: real, r: real)
    ensures WellConditioned(s, r) ==> s > 0.0
    ensures r > 0.0 ==> (WellConditioned(s, r) <==> GuardAsWritten(s, r))
  {
  }
}
