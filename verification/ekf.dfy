/**
  One call of `ekf_slam`: predict with the control, then for each observation in
  order associate it, augment the state when it is a new landmark, and apply
  the Kalman update; finally wrap the yaw once.
 */
module Ekf {
  import opened Matrices
  import opened Geometry
  import opened State
  import opened Motion
  import opened Association
  import opened Observation

  /** The Kalman update `K = P H.T inv(S)`, `x + K y`, `(I - K H) P`. */
  function KalmanUpdate(e: Estimate, inn: Innovation, Sinv: Matrix): (r: Estimate)
    requires WellFormed(e) && |inn.y| == 2 && IsMatrix(inn.H, 2, |e.x|) && IsSquare(Sinv, 2)
    ensures WellFormed(r) && |r.x| == |e.x|
  {
    var n := |e.x|;
    var K := Mul(Mul(e.P, Transpose(inn.H)), Sinv);
    var x' := VecAdd(e.x, MatVec(K, inn.y));
    var P' := Mul(Sub(Identity(n), Mul(K, inn.H)), e.P);
    Estimate(x', P')
  }

  /** A zero innovation leaves the mean where it was, whatever the gain. */
  lemma KalmanUpdateZeroInnovation(e: Estimate, inn: Innovation, Sinv: Matrix)
    requires WellFormed(e) && IsMatrix(inn.H, 2, |e.x|) && IsSquare(Sinv, 2)
    requires inn.y == [0.0, 0.0]
    ensures KalmanUpdate(e, inn, Sinv).x == e.x
  {
    var K := Mul(Mul(e.P, Transpose(inn.H)), Sinv);
    var r := KalmanUpdate(e, inn, Sinv);
    forall i | 0 <= i < |e.x|
      ensures r.x[i] == e.x[i]
    {
      DotZero(K[i], inn.y);
    }
  }

  /** The association of `search_correspond_LM_ID` for one observation: the
      candidate index, or the error of a singular innovation covariance. */
  function Associate(lib: MathLib, e: Estimate, z: Measurement): (r: Result<nat>)
    requires WellFormed(e)
    ensures r.Ok? ==> r.value <= CalcNLM(e.x)
    ensures r.Ok? <==> Distances(lib, e, z).Ok?
    ensures r.Ok? ==> (r.value == CalcNLM(e.x) <==>
      forall i | 0 <= i < CalcNLM(e.x) :: Distances(lib, e, z).value[i] > M_DIST_TH)
  {
    var d := Distances(lib, e, z);
    if d.Err? then Err(d.error) else Ok(SearchCorrespondLMID(d.value))
  }

  /** The augmentation branch of the loop: a new landmark at the position the
      observation implies when the association chose index nLM, the estimate
      unchanged otherwise. Either way the chosen index is then a stored
      landmark. */
  function AugmentIfNew(lib: MathLib, e: Estimate, z: Measurement, minid: nat): (r: Estimate)
    requires WellFormed(e) && minid <= LandmarkCount(e)
    ensures WellFormed(r)
    ensures LandmarkCount(r) == if minid == LandmarkCount(e) then LandmarkCount(e) + 1 else LandmarkCount(e)
    ensures minid < CalcNLM(r.x)
    ensures minid == LandmarkCount(e) ==> GetLMPosFromState(r.x, minid) == CalcLMPos(lib, e.x, z)
    ensures minid < LandmarkCount(e) ==> r == e
  {
    CalcNLMIsLandmarkCount(e);
    AugmentAddsOneLandmark(e, CalcLMPos(lib, e.x, z));
    var r := if minid == CalcNLM(e.x) then Augment(e, CalcLMPos(lib, e.x, z)) else e;
    CalcNLMIsLandmarkCount(r);
    r
  }

  /** The rest of one iteration once `minid` is chosen: augment when it is
      the "new landmark" index, compute the innovation against that landmark,
      invert `S` and apply the Kalman update. */
  function ApplyObservation(lib: MathLib, e: Estimate, z: Measurement, minid: nat): (r: Result<Estimate>)
    requires WellFormed(e) && minid <= LandmarkCount(e)
    ensures r.Ok? ==> WellFormed(r.value)
    ensures r.Ok? ==>
      LandmarkCount(r.value) == (if minid == LandmarkCount(e) then LandmarkCount(e) + 1 else LandmarkCount(e))
  {
    var e1 := AugmentIfNew(lib, e, z, minid);
    var lm := GetLMPosFromState(e1.x, minid);
    var inn := CalcInnovation(lib, lm, e1, z, minid);
    match Inverse2(inn.S)
    case None => Err(SingularInnovationCovariance(minid))
    case Some(Sinv) => Ok(KalmanUpdate(e1, inn, Sinv))
  }

  /** One iteration of the observation loop. The estimate stays well-formed,
      and the landmark count grows by one exactly when the association chose
      the "new landmark" candidate, and is unchanged otherwise. */
  function CorrectOne(lib: MathLib, e: Estimate, z: Measurement): (r: Result<Estimate>)
    requires WellFormed(e)
    ensures r.Ok? ==> Associate(lib, e, z).Ok? && WellFormed(r.value)
    ensures r.Ok? ==>
      LandmarkCount(r.value) == (if Associate(lib, e, z).value == LandmarkCount(e) then LandmarkCount(e) + 1 else LandmarkCount(e))
  {
    CalcNLMIsLandmarkCount(e);
    var a := Associate(lib, e, z);
    if a.Err? then Err(a.error) else ApplyObservation(lib, e, z, a.value)
  }

  /** The observation loop: each observation is associated and applied against
      the estimate the previous one left. The count never decreases and grows
      by at most one per observation. */
  function Correct(lib: MathLib, e: Estimate, zs: seq<Measurement>): (r: Result<Estimate>)
    requires WellFormed(e)
    ensures r.Ok? ==> WellFormed(r.value)
    ensures r.Ok? ==> LandmarkCount(e) <= LandmarkCount(r.value) <= LandmarkCount(e) + |zs|
    decreases |zs|
  {
    if |zs| == 0 then Ok(e)
    else
      var first := CorrectOne(lib, e, zs[0]);
      if first.Err? then first else Correct(lib, first.value, zs[1..])
  }

  /** `xEst[2] = pi_2_pi(xEst[2])`: the yaw is brought into [-pi, pi) and
      nothing else changes. */
  function WrapYaw(e: Estimate): (r: Estimate)
    requires WellFormed(e)
    ensures WellFormed(r) && LandmarkCount(r) == LandmarkCount(e)
    ensures -PI <= r.x[2] < PI
    ensures r.P == e.P && |r.x| == |e.x|
    ensures forall i | 0 <= i < |e.x| && i != 2 :: r.x[i] == e.x[i]
  {
    Estimate(e.x[2 := PiToPi(e.x[2])], e.P)
  }

  /** `ekf_slam`. On success the estimate is well-formed, the landmark count
      has grown by at most the number of observations, and the yaw lies in
      [-pi, pi). An empty batch cannot fail and keeps the state's length. */
  function EkfSlam(lib: MathLib, e: Estimate, u: Control, zs: seq<Measurement>): (r: Result<Estimate>)
    requires WellFormed(e)
    ensures r.Ok? ==> WellFormed(r.value)
    ensures r.Ok? ==> LandmarkCount(e) <= LandmarkCount(r.value) <= LandmarkCount(e) + |zs|
    ensures r.Ok? ==> -PI <= r.value.x[2] < PI
    ensures |zs| == 0 ==> r.Ok? && |r.value.x| == |e.x|
  {
    var predicted := Predict(lib, e, u);
    var corrected := Correct(lib, predicted, zs);
    if corrected.Err? then corrected else Ok(WrapYaw(corrected.value))
  }

  /** With no observation a call is the predict step plus the final yaw wrap:
      the landmark part of the mean and every covariance entry outside the pose
      block are unchanged, and the pose block has gained `Q`. */
  lemma EmptyBatchKeepsMap(lib: MathLib, e: Estimate, u: Control)
    requires WellFormed(e)
    ensures var r := EkfSlam(lib, e, u, []);
      && r.Ok?
      && r.value.x[STATE_SIZE..] == e.x[STATE_SIZE..]
      && r.value.x[..2] == MotionModel(lib, e.x[..STATE_SIZE], u)[..2]
      && r.value.x[2] == PiToPi(MotionModel(lib, e.x[..STATE_SIZE], u)[2])
      && forall i, j | 0 <= i < |e.x| && 0 <= j < |e.x| ::
           r.value.P[i][j] == if i < STATE_SIZE && j < STATE_SIZE then e.P[i][j] + Q[i][j] else e.P[i][j]
  {
    var p := Predict(lib, e, u);
    assert Correct(lib, p, []) == Ok(p);
    var r := EkfSlam(lib, e, u, []);
    assert r.value.x[STATE_SIZE..] == p.x[STATE_SIZE..];
    assert r.value.x[..2] == p.x[..STATE_SIZE][..2];
    assert p.x[2] == p.x[..STATE_SIZE][2];
  }

  /** An observation grows the map exactly when its Mahalanobis distance to
      every stored landmark is strictly above the gate `M_DIST_TH`; a tie with
      the gate goes to the stored landmark. */
  lemma NewLandmarkIffOutsideGate(lib: MathLib, e: Estimate, z: Measurement)
    requires WellFormed(e)
    requires CorrectOne(lib, e, z).Ok?
    ensures Distances(lib, e, z).Ok?
    ensures LandmarkCount(CorrectOne(lib, e, z).value) == LandmarkCount(e) + 1 <==>
      forall i | 0 <= i < LandmarkCount(e) :: Distances(lib, e, z).value[i] > M_DIST_TH
  {
    CalcNLMIsLandmarkCount(e);
  }
}
