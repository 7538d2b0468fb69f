/**
  The prediction half of a step: the velocity motion model, its Jacobian and
  pose-selection matrix `Fx`, and the covariance update the step performs with
  them.
 */
module Motion {
  import opened Matrices
  import opened Geometry
  import opened State

  /** Time tick `DT` [s]. */
  const DT: real := 0.1

  /** The standard deviation of the yaw process noise: `np.deg2rad(30.0)`. */
  const YAW_SIGMA: real := 30.0 * PI / 180.0

  /** Process noise `Q = np.diag([0.5, 0.5, deg2rad(30)]) ** 2`. */
  const Q: Matrix := [[0.25, 0.0, 0.0], [0.0, 0.25, 0.0], [0.0, 0.0, YAW_SIGMA * YAW_SIGMA]]

  /** `motion_model`: `F x + B u` with `F = eye(3)` and
      `B = [[DT cos(yaw), 0], [DT sin(yaw), 0], [0, DT]]`. The matrix form is the
      unicycle update: the position advances `v DT` along the heading and the
      heading turns by `w DT`. */
  function MotionModel(lib: MathLib, x: Vector, u: Control): (r: Vector)
    requires |x| == STATE_SIZE
    ensures r == [x[0] + DT * lib.cos(x[2]) * u.v, x[1] + DT * lib.sin(x[2]) * u.v, x[2] + DT * u.w]
  {
    var F := Identity(STATE_SIZE);
    var B := [[DT * lib.cos(x[2]), 0.0], [DT * lib.sin(x[2]), 0.0], [0.0, DT]];
    var uv := [u.v, u.w];
    MulIdentityVec(x);
    DotPair(B[0], uv);
    DotPair(B[1], uv);
    DotPair(B[2], uv);
    var r := VecAdd(MatVec(F, x), MatVec(B, uv));
    var expected := [x[0] + DT * lib.cos(x[2]) * u.v, x[1] + DT * lib.sin(x[2]) * u.v, x[2] + DT * u.w];
    assert forall i | 0 <= i < STATE_SIZE :: r[i] == expected[i];
    r
  }

  /** The new yaw is `yaw + DT w` whatever the linear velocity. */
  lemma MotionModelYaw(lib: MathLib, x: Vector, u: Control)
    requires |x| == STATE_SIZE
    ensures MotionModel(lib, x, u)[2] == x[2] + DT * u.w
  {
  }

  /** Under the zero command the pose is returned unchanged. */
  lemma MotionModelAtRest(lib: MathLib, x: Vector)
    requires |x| == STATE_SIZE
    ensures MotionModel(lib, x, Control(0.0, 0.0)) == x
  {
  }

  lemma MulIdentityVec(x: Vector)
    requires |x| == STATE_SIZE
    ensures MatVec(Identity(STATE_SIZE), x) == x
  {
    var I := Identity(STATE_SIZE);
    forall i | 0 <= i < STATE_SIZE
      ensures MatVec(I, x)[i] == x[i]
    {
      DotCommutes(I[i], x);
      DotUnit(x, I[i], i);
    }
  }

  /** `Fx = hstack(eye(3), zeros(3, 2 n))`: the projection of a state with `n`
      landmarks onto its pose. */
  function PoseSelection(n: nat): (Fx: Matrix)
    ensures IsMatrix(Fx, STATE_SIZE, STATE_SIZE + LM_SIZE * n)
    ensures forall i, j | 0 <= i < STATE_SIZE && 0 <= j < STATE_SIZE + LM_SIZE * n ::
      Fx[i][j] == if i == j then 1.0 else 0.0
  {
    HStack(Identity(STATE_SIZE), Zeros(STATE_SIZE, LM_SIZE * n))
  }

  /** `jacob_motion`. numpy can only add `eye(3)` to the
      `(3 + 2n)`-square `Fx.T jF Fx` when `n` is zero, so the function demands a
      vector with no landmark entries, as the pose slice it receives is. Then
      `Fx` is the identity and `G` is the identity plus `jF`. */
  function JacobMotion(lib: MathLib, x: Vector, u: Control): (r: (Matrix, Matrix))
    requires |x| >= STATE_SIZE && CalcNLM(x) == 0
    ensures r.1 == Identity(STATE_SIZE)
    ensures r.0 == [[1.0, 0.0, -DT * u.v * lib.sin(x[2])], [0.0, 1.0, DT * u.v * lib.cos(x[2])], [0.0, 0.0, 1.0]]
  {
    var Fx := PoseSelection(CalcNLM(x));
    var jF := [[0.0, 0.0, -DT * u.v * lib.sin(x[2])], [0.0, 0.0, DT * u.v * lib.cos(x[2])], [0.0, 0.0, 0.0]];
    PoseSelectionOfPose();
    TransposeIdentity(STATE_SIZE);
    MulIdentityLeft(jF, STATE_SIZE, STATE_SIZE);
    MulIdentityRight(jF, STATE_SIZE, STATE_SIZE);
    var G := Add(Identity(STATE_SIZE), Mul(Mul(Transpose(Fx), jF), Fx));
    MatrixEquality(G, [[1.0, 0.0, -DT * u.v * lib.sin(x[2])], [0.0, 1.0, DT * u.v * lib.cos(x[2])], [0.0, 0.0, 1.0]],
      STATE_SIZE, STATE_SIZE);
    (G, Fx)
  }

  /** On the 3-element pose slice the selection matrix is the 3-by-3 identity. */
  lemma PoseSelectionOfPose()
    ensures PoseSelection(0) == Identity(STATE_SIZE)
  {
    MatrixEquality(PoseSelection(0), Identity(STATE_SIZE), STATE_SIZE, STATE_SIZE);
  }

  /** The covariance half of the predict step,
      `P[0:3, 0:3] = Fx P[0:3, 0:3] Fx.T + Q`: only the pose block is
      replaced, and when `Fx` is the identity the new block is the old one
      plus `Q`. */
  function PredictCovariance(P: Matrix, Fx: Matrix): (P': Matrix)
    requires |P| >= STATE_SIZE && IsSquare(P, |P|) && IsSquare(Fx, STATE_SIZE)
    ensures IsSquare(P', |P|)
    ensures forall i, j | 0 <= i < |P| && 0 <= j < |P| && !(i < STATE_SIZE && j < STATE_SIZE) :: P'[i][j] == P[i][j]
    ensures Fx == Identity(STATE_SIZE) ==>
      forall i, j | 0 <= i < STATE_SIZE && 0 <= j < STATE_SIZE :: P'[i][j] == P[i][j] + Q[i][j]
  {
    var blk := SubBlock(P, 0, 0, STATE_SIZE, STATE_SIZE);
    TransposeIdentity(STATE_SIZE);
    MulIdentityLeft(blk, STATE_SIZE, STATE_SIZE);
    MulIdentityRight(blk, STATE_SIZE, STATE_SIZE);
    SetBlock(P, 0, 0, Add(Mul(Mul(Fx, blk), Transpose(Fx)), Q))
  }

  /** The predict step of `ekf_slam`: the pose slice goes through the motion
      model, `jacob_motion` is evaluated on the new pose slice, and the
      covariance's pose block is propagated with its `Fx`. Since `Fx` is the
      identity there, prediction adds `Q` to the pose block and changes no
      landmark entry of the mean and no other entry of the covariance. */
  function Predict(lib: MathLib, e: Estimate, u: Control): (r: Estimate)
    requires WellFormed(e)
    ensures WellFormed(r) && |r.x| == |e.x|
    ensures r.x[..STATE_SIZE] == MotionModel(lib, e.x[..STATE_SIZE], u)
    ensures r.x[STATE_SIZE..] == e.x[STATE_SIZE..]
    ensures forall i, j | 0 <= i < |e.x| && 0 <= j < |e.x| ::
      r.P[i][j] == if i < STATE_SIZE && j < STATE_SIZE then e.P[i][j] + Q[i][j] else e.P[i][j]
  {
    var pose := MotionModel(lib, e.x[..STATE_SIZE], u);
    var x1 := pose + e.x[STATE_SIZE..];
    var (G, Fx) := JacobMotion(lib, pose, u);
    assert x1[..STATE_SIZE] == pose;
    Estimate(x1, PredictCovariance(e.P, Fx))
  }

  /** Prediction always adds `Q`, even under the zero command: the pose block
      of the covariance grows by the process noise while the mean is unchanged. */
  lemma PredictAtRest(lib: MathLib, e: Estimate)
    requires WellFormed(e)
    ensures Predict(lib, e, Control(0.0, 0.0)).x == e.x
    ensures Predict(lib, e, Control(0.0, 0.0)).P[0][0] == e.P[0][0] + 0.25
  {
    var r := Predict(lib, e, Control(0.0, 0.0));
    MotionModelAtRest(lib, e.x[..STATE_SIZE]);
    assert r.x == r.x[..STATE_SIZE] + r.x[STATE_SIZE..];
    assert e.x == e.x[..STATE_SIZE] + e.x[STATE_SIZE..];
  }
}
