/**
 * The calibration filter as the source keeps it: fields of the estimator object
 * updated in place, the 4x4 covariance a fixed-size array, and every step of
 * Ekf::fuseMagCal written as the loops the source runs.  Each method is proved
 * against the value-level functions of MagCalModel.
 */
module MagCalibration {
  import opened MagCalModel

  class MagCal {
    /** _mag_bias_ekf_active */
    var active: bool
    /** _mag_bias_ekf_yaw_last */
    var yawLast: real
    /** _mag_bias_ekf_time_us: time of the last completed fusion or reset, 0 = never */
    var timeUs: Uint64
    /** _mag_cal_states */
    var states: CalStates
    /** _mag_cov_mat */
    const cov: array2<real>

    ghost predicate Valid()
    {
      cov.Length0 == 4 && cov.Length1 == 4
    }

    /** The covariance array as a matrix value. */
    function Cov(): (m: Mat)
      requires Valid()
      reads cov
      ensures IsMat4(m)
      ensures forall i, j :: 0 <= i < 4 && 0 <= j < 4 ==> m[i][j] == cov[i, j]
    {
      MatOf(cov)
    }

    /** A covariance array whose entries are those of f has Cov() == f. */
    lemma EntriesDetermineCov(f: Mat)
      requires Valid() && IsMat4(f)
      requires forall i, j :: 0 <= i < 4 && 0 <= j < 4 ==> cov[i, j] == f[i][j]
      ensures Cov() == f
    {
      MatExt(Cov(), f);
    }

    /** Cov() depends on the array's entries only, so writes to the other fields
      * leave it as it was. */
    twostate lemma CovFrame()
      requires Valid() && unchanged(cov)
      ensures Cov() == old(Cov())
    {
    }

    /** The whole filter as a value. */
    function State(): (st: FilterState)
      requires Valid()
      reads this, cov
      ensures st.cov == Cov()
    {
      FilterState(active, yawLast, timeUs, states, Cov())
    }

    /** A filter that has never fused: inactive, timestamp 0, zero states and covariance. */
    constructor()
      ensures Valid() && fresh(cov)
      ensures !active && yawLast == 0.0 && timeUs == 0 && states == ZeroStates
      ensures forall i, j :: 0 <= i < 4 && 0 <= j < 4 ==> cov[i, j] == 0.0
    {
      active := false;
      yawLast := 0.0;
      timeUs := 0;
      states := ZeroStates;
      cov := new real[4, 4]((i, j) => 0.0);
    }

    /** memset of the covariance followed by the default diagonal. */
    method ResetCovariance()
      requires Valid()
      modifies cov
      ensures Cov() == DefaultCov()
    {
      forall i, j | 0 <= i < 4 && 0 <= j < 4 {
        cov[i, j] := 0.0;
      }
      cov[0, 0] := 0.25;
      cov[1, 1] := 0.25;
      cov[2, 2] := 0.25;
      cov[3, 3] := 1.0;
      ghost var d := DefaultCov();
      forall i, j | 0 <= i < 4 && 0 <= j < 4
        ensures cov[i, j] == d[i][j]
      {
        assert cov[i, j] == DefaultEntry(i, j);
      }
      EntriesDetermineCov(d);
    }

    /** Adds the yaw process-noise variance q to P[3][3]. */
    method InjectYawProcessNoise(q: real)
      requires Valid()
      modifies cov
      ensures Cov() == AddYawVariance(old(Cov()), q)
    {
      cov[3, 3] := cov[3, 3] + q;
      ghost var n := AddYawVariance(old(Cov()), q);
      forall i, j | 0 <= i < 4 && 0 <= j < 4
        ensures cov[i, j] == n[i][j]
      {
      }
      EntriesDetermineCov(n);
    }

    /** Row row of P H^T: the sum of P[row][col] H[col] over the columns. */
    method RowTimesJacobian(row: int, h: seq<real>) returns (acc: real)
      requires Valid() && 0 <= row < 4 && |h| == 4
      ensures acc == MulVec(Cov(), h)[row]
    {
      ghost var m := Cov();
      acc := 0.0;
      var col := 0;
      while col < 4
        invariant 0 <= col <= 4
        invariant acc == Dot(m[row], h, col)
      {
        acc := acc + cov[row, col] * h[col];
        col := col + 1;
      }
    }

    /** R + H P H^T, accumulated row by row through PH as the source does. */
    method InnovationVariance(h: seq<real>, r: real) returns (s: real)
      requires Valid() && |h| == 4
      ensures s == InnovVar(Cov(), h, r)
    {
      ghost var ph := MulVec(Cov(), h);
      s := r;
      var row := 0;
      while row < 4
        invariant 0 <= row <= 4
        invariant s == r + Dot(h, ph, row)
      {
        var phRow := RowTimesJacobian(row, h);
        s := s + h[row] * phRow;
        row := row + 1;
      }
    }

    /** Kfusion: each row of P H^T scaled by the inverse innovation variance. */
    method KalmanGain(h: seq<real>, s: real) returns (k: seq<real>)
      requires Valid() && |h| == 4 && s != 0.0
      ensures k == Gain(Cov(), h, s)
    {
      ghost var ph := MulVec(Cov(), h);
      var sInv := 1.0 / s;
      k := [];
      var row := 0;
      while row < 4
        invariant 0 <= row <= 4 && |k| == row
        invariant forall i :: 0 <= i < row ==> k[i] == ph[i] / s
      {
        var acc := RowTimesJacobian(row, h);
        ScaleByInverse(acc, s);
        k := k + [acc * sInv];
        row := row + 1;
      }
    }

    /** KHP = (K H) P, row by row; hp is the row H P of the current covariance. */
    method GainTimesRow(k: seq<real>, h: seq<real>, ghost hp: seq<real>) returns (khp: array2<real>)
      requires Valid() && |k| == 4 && |h| == 4 && |hp| == 4
      requires forall c :: 0 <= c < 4 ==>
        hp[c] == h[0] * cov[0, c] + h[1] * cov[1, c] + h[2] * cov[2, c] + h[3] * cov[3, c]
      ensures fresh(khp) && khp.Length0 == 4 && khp.Length1 == 4
      ensures forall i, j :: 0 <= i < 4 && 0 <= j < 4 ==> khp[i, j] == k[i] * hp[j]
    {
      khp := new real[4, 4];
      var row := 0;
      while row < 4
        modifies khp
        invariant 0 <= row <= 4
        invariant forall i, j :: 0 <= i < row && 0 <= j < 4 ==> khp[i, j] == k[i] * hp[j]
      {
        label BeforeRow:
        GainTimesRowEntries(khp, row, k, h, hp);
        forall i, j | 0 <= i <= row && 0 <= j < 4
          ensures khp[i, j] == k[i] * hp[j]
        {
          if i < row {
            assert khp[i, j] == old@BeforeRow(khp[i, j]);
          }
        }
        row := row + 1;
      }
    }

    /** One row of KHP: KH[j] = K[row] H[j], then KHP[row][col] = sum of KH[j] P[j][col]. */
    method GainTimesRowEntries(khp: array2<real>, row: int, k: seq<real>, h: seq<real>, ghost hp: seq<real>)
      requires Valid() && khp.Length0 == 4 && khp.Length1 == 4 && khp != cov
      requires 0 <= row < 4 && |k| == 4 && |h| == 4 && |hp| == 4
      requires forall c :: 0 <= c < 4 ==>
        hp[c] == h[0] * cov[0, c] + h[1] * cov[1, c] + h[2] * cov[2, c] + h[3] * cov[3, c]
      modifies khp
      ensures forall j :: 0 <= j < 4 ==> khp[row, j] == k[row] * hp[j]
      ensures forall i, j :: 0 <= i < 4 && i != row && 0 <= j < 4 ==> khp[i, j] == old(khp[i, j])
    {
      var kh := [k[row] * h[0], k[row] * h[1], k[row] * h[2], k[row] * h[3]];
      var col := 0;
      while col < 4
        invariant 0 <= col <= 4
        invariant forall j :: 0 <= j < col ==> khp[row, j] == k[row] * hp[j]
        invariant forall i, j :: 0 <= i < 4 && i != row && 0 <= j < 4 ==> khp[i, j] == old(khp[i, j])
      {
        var tmp := kh[0] * cov[0, col];
        tmp := tmp + kh[1] * cov[1, col];
        tmp := tmp + kh[2] * cov[2, col];
        tmp := tmp + kh[3] * cov[3, col];
        FactorGain(k[row], h, cov[0, col], cov[1, col], cov[2, col], cov[3, col], hp[col]);
        khp[row, col] := tmp;
        col := col + 1;
      }
    }

    /** The loop applying the corrections: P[row][col] -= KHP[row][col]. */
    method SubtractCorrection(khp: array2<real>)
      requires Valid() && khp.Length0 == 4 && khp.Length1 == 4 && khp != cov
      modifies cov
      ensures forall i, j :: 0 <= i < 4 && 0 <= j < 4 ==> cov[i, j] == old(cov[i, j]) - khp[i, j]
    {
      var row := 0;
      while row < 4
        invariant 0 <= row <= 4
        invariant forall i, j :: 0 <= i < row && 0 <= j < 4 ==> cov[i, j] == old(cov[i, j]) - khp[i, j]
        invariant forall i, j :: row <= i < 4 && 0 <= j < 4 ==> cov[i, j] == old(cov[i, j])
      {
        var col := 0;
        while col < 4
          invariant 0 <= col <= 4
          invariant forall i, j :: 0 <= i < row && 0 <= j < 4 ==> cov[i, j] == old(cov[i, j]) - khp[i, j]
          invariant forall j :: 0 <= j < col ==> cov[row, j] == old(cov[row, j]) - khp[row, j]
          invariant forall i, j :: row <= i < 4 && 0 <= j < 4 && (i > row || j >= col) ==> cov[i, j] == old(cov[i, j])
        {
          cov[row, col] := cov[row, col] - khp[row, col];
          col := col + 1;
        }
        row := row + 1;
      }
    }

    /** P_new = (I - K H) P, computed as P - KHP. */
    method CorrectCovariance(k: seq<real>, h: seq<real>)
      requires Valid() && |k| == 4 && |h| == 4
      modifies cov
      ensures Cov() == CovCorrection(old(Cov()), k, VecMul(h, old(Cov())))
    {
      ghost var m := Cov();
      ghost var hp := VecMul(h, m);
      RowEntries(h, m);
      var khp := GainTimesRow(k, h, hp);
      SubtractCorrection(khp);
      CorrectionFromArrays(cov, khp, m, k, hp);
    }

    /** Replaces each off-diagonal pair by its mean, walking the lower triangle. */
    method ForceSymmetry()
      requires Valid()
      modifies cov
      ensures Cov() == Symmetrize(old(Cov()))
    {
      var row := 0;
      while row < 4
        modifies cov
        invariant 0 <= row <= 4
        invariant forall a :: 0 <= a < 4 ==> cov[a, a] == old(cov[a, a])
        invariant forall a, b :: 0 <= b < a < row ==>
          cov[a, b] == (old(cov[a, b]) + old(cov[b, a])) / 2.0 && cov[b, a] == cov[a, b]
        invariant forall a, b :: 0 <= b < a < 4 && a >= row ==>
          cov[a, b] == old(cov[a, b]) && cov[b, a] == old(cov[b, a])
      {
        AverageRowPairs(row);
        row := row + 1;
      }
      ghost var sm := Symmetrize(old(Cov()));
      forall i, j | 0 <= i < 4 && 0 <= j < 4
        ensures cov[i, j] == sm[i][j]
      {
        if i < j {
          assert cov[i, j] == (old(cov[j, i]) + old(cov[i, j])) / 2.0;
        }
      }
      EntriesDetermineCov(sm);
    }

    /** The inner loop of ForceSymmetry: averages P[row][col] with P[col][row] for every
      * col below row, and touches nothing else. */
    method AverageRowPairs(row: nat)
      requires Valid() && row < 4
      modifies cov
      ensures forall b :: 0 <= b < row ==>
        cov[row, b] == (old(cov[row, b]) + old(cov[b, row])) / 2.0 && cov[b, row] == cov[row, b]
      ensures forall a, b :: 0 <= a < 4 && 0 <= b < 4 && !(a == row && b < row) && !(b == row && a < row) ==>
        cov[a, b] == old(cov[a, b])
    {
      var col := 0;
      while col < row
        modifies cov
        invariant 0 <= col <= row
        invariant forall b :: 0 <= b < col ==>
          cov[row, b] == (old(cov[row, b]) + old(cov[b, row])) / 2.0 && cov[b, row] == cov[row, b]
        invariant forall a, b :: 0 <= a < 4 && 0 <= b < 4 && !(a == row && b < col) && !(b == row && a < col) ==>
          cov[a, b] == old(cov[a, b])
      {
        var tmp := (cov[row, col] + cov[col, row]) / 2.0;
        cov[row, col] := tmp;
        cov[col, row] := tmp;
        col := col + 1;
      }
    }

    /** fmaxf(P[i][i], 1e-12) on every variance. */
    method FloorVariances()
      requires Valid()
      modifies cov
      ensures Cov() == FloorDiag(old(Cov()))
    {
      var col := 0;
      while col < 4
        modifies cov
        invariant 0 <= col <= 4
        invariant forall i, j :: 0 <= i < 4 && 0 <= j < 4 && i != j ==> cov[i, j] == old(cov[i, j])
        invariant forall i :: 0 <= i < col ==> cov[i, i] == Max(old(cov[i, i]), VarianceFloor)
        invariant forall i :: col <= i < 4 ==> cov[i, i] == old(cov[i, i])
      {
        cov[col, col] := Max(cov[col, col], VarianceFloor);
        col := col + 1;
      }
      ghost var f := FloorDiag(old(Cov()));
      forall i, j | 0 <= i < 4 && 0 <= j < 4
        ensures cov[i, j] == f[i][j]
      {
      }
      EntriesDetermineCov(f);
    }

    /** One pass of the axis loop: Jacobian, conditioning check, gain, covariance and
      * state corrections.  fused is false when the check failed and the covariance
      * was reset; e is the clamped innovation. */
    method FuseAxis(index: int, h3: real, innovation: real, r: real) returns (fused: bool, e: real)
      requires Valid() && 0 <= index < 3
      modifies this`states, cov
      ensures var res := AxisUpdate(old(Cov()), old(states), index, h3, innovation, r);
        (fused <==> res.AxisFused?) &&
        (res.Fault? ==> Cov() == DefaultCov() && states == old(states)) &&
        (res.AxisFused? ==> Cov() == res.cov && states == res.states && e == res.innov)
    {
      ghost var m := Cov();
      var h := JacobianRow(index, h3);
      var s := InnovationVariance(h, r);
      if !WellConditioned(s, r) {
        ResetCovariance();
        return false, 0.0;
      }
      var k := KalmanGain(h, s);
      CorrectCovariance(k, h);
      ForceSymmetry();
      FloorVariances();
      e := Constrain(innovation, -InnovLimit, InnovLimit);
      states := CorrectStates(states, k, e);
      fused := true;
    }

    /** Ekf::fuseMagCal: one cycle of the calibration filter. */
    method FuseMagCal(inp: CycleInputs) returns (outcome: Outcome)
      requires Valid()
      modifies this, cov
      ensures Cycle(old(State()), inp) == CycleResult(State(), outcome)
    {
      var correctedDeltaAng := Minus(inp.deltaAng, inp.gyroBias);
      if inp.deltaAngDt > MinDeltaAngDt {
        var yawRate := YawRate(inp.rotDown, correctedDeltaAng, inp.deltaAngDt);
        var tiltOk := TiltOk(inp.rotDown);
        if !active && Abs(yawRate) > EnterYawRate && tiltOk {
          active := true;
        } else if active && (Abs(yawRate) < ExitYawRate || !tiltOk) {
          active := false;
        }
      } else {
        return InvalidDt;
      }
      CovFrame();

      if !inp.magUseInhibit || !active {
        return Gated;
      }

      var yawDelta := inp.eulerYaw - yawLast;
      if yawDelta > Pi {
        yawDelta := yawDelta - TwoPi;
      } else if yawDelta < -Pi {
        yawDelta := yawDelta + TwoPi;
      }
      if Abs(yawDelta) < MinYawChange {
        return SmallYawChange;
      }
      yawLast := inp.eulerYaw;
      CovFrame();
      outcome := ResetOrFuse(inp);
    }

    /** The statements after the yaw trigger: reset a stale estimate, or add process
      * noise and fuse the three axes in turn, stopping at a conditioning fault. */
    method ResetOrFuse(inp: CycleInputs) returns (outcome: Outcome)
      requires Valid()
      modifies this, cov
      ensures FusionStage(old(State()), inp) == CycleResult(State(), outcome)
    {
      var timeDeltaSec := ElapsedSec(inp.timeUs, timeUs);
      if timeUs == 0 || timeDeltaSec > ResetTimeoutSec {
        ResetCovariance();
        label AfterReset:
        states := ZeroStates;
        timeUs := inp.timeUs;
        CovFrame@AfterReset();
        return Reset;
      }
      outcome := NoiseAndFuse(inp, timeDeltaSec);
    }

    /** Process noise on the yaw offset variance, then the three axes in turn; the
      * timestamp advances only when all three fuse. */
    method NoiseAndFuse(inp: CycleInputs, timeDeltaSec: real) returns (outcome: Outcome)
      requires Valid() && !NeedsReset(inp.timeUs, timeUs)
      requires timeDeltaSec == ElapsedSec(inp.timeUs, timeUs)
      modifies this, cov
      ensures FusionStage(old(State()), inp) == CycleResult(State(), outcome)
    {
      var yawProcessNoiseVariance := timeDeltaSec * YawProcessNoiseRate;
      yawProcessNoiseVariance := yawProcessNoiseVariance * yawProcessNoiseVariance;
      assert yawProcessNoiseVariance == YawProcessNoise(timeDeltaSec);
      InjectYawProcessNoise(yawProcessNoiseVariance);

      var g := inp.geometry(states.yawOffset);
      var predicted := Plus(g.rotatedField, states.bias);
      var rMag := Max(inp.magNoise, 0.0);
      rMag := rMag * rMag;

      assert Cov() == AddYawVariance(old(Cov()), YawProcessNoise(ElapsedSec(inp.timeUs, old(timeUs))));
      assert rMag == MeasurementVariance(inp.magNoise);
      FusionStageFuses(old(State()), inp, Cov(), predicted, rMag);
      outcome := FuseAxes(predicted, inp.magMeasured, g.yawJacobian, rMag, inp.timeUs);
    }

    /** The x, y and z axes fused in turn from the current covariance and states; a
      * fault on an axis stops the sequence there, and only a completed sequence
      * advances the timestamp to `now`. */
    method FuseAxes(predicted: Vec3, measured: Vec3, yawJacobian: Vec3, r: real, now: Uint64)
      returns (outcome: Outcome)
      requires Valid()
      modifies this`states, this`timeUs, cov
      ensures outcome == Fused || outcome.NumericalFault?
      ensures outcome == Fused ==> timeUs == now
      ensures outcome == Fused ==>
        SequentialUpdate(old(Cov()), old(states), predicted, measured, yawJacobian, r, 0) == Completed(Cov(), states)
      ensures outcome.NumericalFault? ==> timeUs == old(timeUs)
      ensures outcome.NumericalFault? ==>
        SequentialUpdate(old(Cov()), old(states), predicted, measured, yawJacobian, r, 0)
        == Aborted(Cov(), states, outcome.axis)
    {
      ghost var fr := SequentialUpdate(Cov(), states, predicted, measured, yawJacobian, r, 0);
      var index := 0;
      while index <= 2
        invariant 0 <= index <= 3
        invariant timeUs == old(timeUs)
        invariant fr == SequentialUpdate(Cov(), states, predicted, measured, yawJacobian, r, index)
      {
        var fused := FuseAxisInSequence(index, predicted, measured, yawJacobian, r);
        if !fused {
          return NumericalFault(index);
        }
        index := index + 1;
      }
      label AllFused:
      timeUs := now;
      CovFrame@AllFused();
      return Fused;
    }

    /** One pass of the axis loop: axis `index` fused, its outcome stated as a step of
      * SequentialUpdate. */
    method FuseAxisInSequence(index: nat, predicted: Vec3, measured: Vec3, yawJacobian: Vec3, r: real)
      returns (fused: bool)
      requires Valid() && index < 3
      modifies this`states, cov
      ensures fused ==>
        SequentialUpdate(old(Cov()), old(states), predicted, measured, yawJacobian, r, index)
        == SequentialUpdate(Cov(), states, predicted, measured, yawJacobian, r, index + 1)
      ensures !fused ==>
        SequentialUpdate(old(Cov()), old(states), predicted, measured, yawJacobian, r, index)
        == Aborted(Cov(), states, index)
    {
      ghost var m := Cov();
      ghost var s := states;
      var e;
      fused, e := FuseAxis(index, yawJacobian.At(index), predicted.At(index) - measured.At(index), r);
      if fused {
        SequentialStepFused(m, s, predicted, measured, yawJacobian, r, index);
      } else {
        SequentialStepFault(m, s, predicted, measured, yawJacobian, r, index);
      }
    }
  }

  /** The entries of a 4x4 array as a matrix value. */
  function MatOf(a: array2<real>): (m: Mat)
    requires a.Length0 == 4 && a.Length1 == 4
    reads a
    ensures IsMat4(m)
    ensures forall i, j :: 0 <= i < 4 && 0 <= j < 4 ==> m[i][j] == a[i, j]
  {
    [RowOf(a, 0), RowOf(a, 1), RowOf(a, 2), RowOf(a, 3)]
  }

  /** Row i of a 4x4 array as a vector. */
  function RowOf(a: array2<real>, i: nat): (r: seq<real>)
    requires a.Length0 == 4 && a.Length1 == 4 && i < 4
    reads a
    ensures |r| == 4 && forall j :: 0 <= j < 4 ==> r[j] == a[i, j]
  {
    [a[i, 0], a[i, 1], a[i, 2], a[i, 3]]
  }

  /** Entry c of H P written out. */
  lemma RowEntries(h: seq<real>, m: Mat)
    requires IsMat4(m) && |h| == 4
    ensures forall c :: 0 <= c < 4 ==>
      VecMul(h, m)[c] == h[0] * m[0][c] + h[1] * m[1][c] + h[2] * m[2][c] + h[3] * m[3][c]
  {
    forall c | 0 <= c < 4
      ensures VecMul(h, m)[c] == h[0] * m[0][c] + h[1] * m[1][c] + h[2] * m[2][c] + h[3] * m[3][c]
    {
      DotFour(h, Column(m, c));
    }
  }

  /** An array holding P[i][j] - KHP[i][j], where KHP[i][j] = K[i] HP[j], holds the
    * covariance correction. */
  lemma CorrectionFromArrays(a: array2<real>, khp: array2<real>, m: Mat, k: seq<real>, hp: seq<real>)
    requires a.Length0 == 4 && a.Length1 == 4 && khp.Length0 == 4 && khp.Length1 == 4
    requires IsMat4(m) && |k| == 4 && |hp| == 4
    requires forall i, j :: 0 <= i < 4 && 0 <= j < 4 ==> a[i, j] == m[i][j] - khp[i, j]
    requires forall i, j :: 0 <= i < 4 && 0 <= j < 4 ==> khp[i, j] == k[i] * hp[j]
    ensures MatOf(a) == CovCorrection(m, k, hp)
  {
    MatExt(MatOf(a), CovCorrection(m, k, hp));
  }

  /** acc * (1 / s) is acc / s. */
  lemma ScaleByInverse(acc: real, s: real)
    requires s != 0.0
    ensures acc * (1.0 / s) == acc / s
  {
  }

  /** The four products (kr h_j) a_j add up to kr times the sum of the h_j a_j. */
  lemma FactorGain(kr: real, h: seq<real>, a0: real, a1: real, a2: real, a3: real, hpc: real)
    requires |h| == 4 && hpc == h[0] * a0 + h[1] * a1 + h[2] * a2 + h[3] * a3
    ensures (kr * h[0]) * a0 + (kr * h[1]) * a1 + (kr * h[2]) * a2 + (kr * h[3]) * a3 == kr * hpc
  {
  }
}
