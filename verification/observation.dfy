/**
  The range-bearing observation model: the Jacobian `H` assembled from a 2-by-5
  block through the selection matrix `F`, the innovation `y` and its
  covariance `S`, and the Mahalanobis distances the association compares.
 */
module Observation {
  import opened Matrices
  import opened Geometry
  import opened State
  import Motion

  /** Why a step stops: `np.linalg.inv` raised on the innovation covariance `S`
      computed against stored landmark `landmark`. */
  datatype StepError = SingularInnovationCovariance(landmark: nat)

  datatype Result<T> = Ok(value: T) | Err(error: StepError)

  /** `y, S, H` as `calc_innovation` returns them. */
  datatype Innovation = Innovation(y: Vector, S: Matrix, H: Matrix)

  /** The observation noise the innovation covariance adds: `Q[0:2, 0:2]`, the
      position block of the process noise. */
  function InnovationNoise(): (R: Matrix)
    ensures IsSquare(R, 2) && R == [[0.25, 0.0], [0.0, 0.25]]
  {
    var R := SubBlock(Motion.Q, 0, 0, 2, 2);
    MatrixEquality(R, [[0.25, 0.0], [0.0, 0.25]], 2, 2);
    R
  }

  /** The state column that row `k` of the selection matrix picks for the
      landmark numbered `i` (counting from one): the pose columns for the first
      three rows, then columns `3 + 2 (i - 1)` and `3 + 2 (i - 1) + 1`. */
  function SelectedColumn(k: nat, i: nat): nat
    requires 1 <= i
  {
    if k < STATE_SIZE then k else STATE_SIZE + LM_SIZE * (i - 1) + (k - STATE_SIZE)
  }

  /** The columns of `H` that may be non-zero for landmark index `lmId`. */
  predicate IsObservedColumn(c: int, lmId: nat) {
    0 <= c < STATE_SIZE || c == STATE_SIZE + LM_SIZE * lmId || c == STATE_SIZE + LM_SIZE * lmId + 1
  }

  /** `F = vstack(F1, F2)` with `F1 = hstack(eye(3), zeros(3, 2 nLM))` and
      `F2 = hstack(zeros(2, 3), zeros(2, 2 (i - 1)), eye(2), zeros(2, 2 nLM - 2 i))`.
      numpy refuses a negative dimension, so `i` is in [1, nLM]. */
  function LandmarkSelection(nLM: nat, i: nat): (F: Matrix)
    requires 1 <= i <= nLM
    ensures IsMatrix(F, STATE_SIZE + LM_SIZE, STATE_SIZE + LM_SIZE * nLM)
    ensures forall k, c | 0 <= k < STATE_SIZE + LM_SIZE && 0 <= c < STATE_SIZE + LM_SIZE * nLM ::
      F[k][c] == if c == SelectedColumn(k, i) then 1.0 else 0.0
  {
    var F1 := HStack(Identity(STATE_SIZE), Zeros(STATE_SIZE, LM_SIZE * nLM));
    var F2 := HStack(HStack(HStack(Zeros(LM_SIZE, STATE_SIZE), Zeros(LM_SIZE, LM_SIZE * (i - 1))), Identity(LM_SIZE)),
                     Zeros(LM_SIZE, LM_SIZE * nLM - LM_SIZE * i));
    var F := VStack(F1, F2);
    forall k, c | 0 <= k < STATE_SIZE + LM_SIZE && 0 <= c < STATE_SIZE + LM_SIZE * nLM
      ensures F[k][c] == if c == SelectedColumn(k, i) then 1.0 else 0.0
    {
      if k >= STATE_SIZE {
        SecondBlockRow(nLM, i, k - STATE_SIZE, c);
      }
    }
    F
  }

  lemma SecondBlockRow(nLM: nat, i: nat, k: nat, c: nat)
    requires 1 <= i <= nLM && k < LM_SIZE && c < STATE_SIZE + LM_SIZE * nLM
    ensures var row := Zeros(LM_SIZE, STATE_SIZE)[k] + Zeros(LM_SIZE, LM_SIZE * (i - 1))[k] + Identity(LM_SIZE)[k]
                       + Zeros(LM_SIZE, LM_SIZE * nLM - LM_SIZE * i)[k];
            |row| == STATE_SIZE + LM_SIZE * nLM &&
            row[c] == if c == STATE_SIZE + LM_SIZE * (i - 1) + k then 1.0 else 0.0
  {
    var a := Zeros(LM_SIZE, STATE_SIZE)[k] + Zeros(LM_SIZE, LM_SIZE * (i - 1))[k];
    var b := Identity(LM_SIZE)[k];
    var d := Zeros(LM_SIZE, LM_SIZE * nLM - LM_SIZE * i)[k];
    assert |a| == STATE_SIZE + LM_SIZE * (i - 1);
    if c < |a| {
      assert (a + b + d)[c] == a[c];
    } else if c < |a| + |b| {
      assert (a + b + d)[c] == b[c - |a|];
    } else {
      assert (a + b + d)[c] == d[c - |a| - |b|];
    }
  }

  /** The 2-by-5 block of the range-bearing Jacobian, `G / q`. */
  function JacobianBlock(lib: MathLib, q: real, delta: Vector): (G: Matrix)
    requires |delta| == 2
    ensures IsMatrix(G, 2, STATE_SIZE + LM_SIZE)
  {
    var sq := lib.sqrt(q);
    var G0 := [[-sq * delta[0], -sq * delta[1], 0.0, sq * delta[0], sq * delta[1]],
               [delta[1], -delta[0], -1.0, -delta[1], delta[0]]];
    seq(2, r requires 0 <= r < 2 => seq(STATE_SIZE + LM_SIZE, c requires 0 <= c < STATE_SIZE + LM_SIZE => lib.divide(G0[r][c], q)))
  }

  /** `jacobH`: `H = G F`. `H` is 2-by-(3 + 2 nLM); its pose columns and the two
      columns of landmark `i - 1` carry the block `G`, and every other column is
      zero. */
  function JacobH(lib: MathLib, q: real, delta: Vector, x: Vector, i: nat): (H: Matrix)
    requires |delta| == 2 && 1 <= i <= CalcNLM(x)
    ensures IsMatrix(H, 2, STATE_SIZE + LM_SIZE * CalcNLM(x))
    ensures forall r, c | 0 <= r < 2 && 0 <= c < STATE_SIZE + LM_SIZE * CalcNLM(x) && !IsObservedColumn(c, i - 1) ::
      H[r][c] == 0.0
    ensures forall r, k | 0 <= r < 2 && 0 <= k < STATE_SIZE + LM_SIZE ::
      H[r][SelectedColumn(k, i)] == JacobianBlock(lib, q, delta)[r][k]
  {
    var G := JacobianBlock(lib, q, delta);
    var nLM := CalcNLM(x);
    var F := LandmarkSelection(nLM, i);
    var H := Mul(G, F);
    forall r, c | 0 <= r < 2 && 0 <= c < STATE_SIZE + LM_SIZE * nLM
      ensures !IsObservedColumn(c, i - 1) ==> H[r][c] == 0.0
      ensures forall k | 0 <= k < STATE_SIZE + LM_SIZE && c == SelectedColumn(k, i) :: H[r][c] == G[r][k]
    {
      var col := Column(F, c);
      if IsObservedColumn(c, i - 1) {
        var k := if c < STATE_SIZE then c else c - LM_SIZE * (i - 1);
        assert SelectedColumn(k, i) == c;
        DotUnit(G[r], col, k);
      } else {
        DotZero(G[r], col);
      }
    }
    H
  }

  /** `calc_innovation` for the stored landmark `lmId` at position `lm`: the
      residual `y = z - [sqrt(q), pi_2_pi(atan2(dy, dx) - yaw)]` with its bearing
      wrapped again, `H = jacobH(q, delta, x, lmId + 1)` and
      `S = H P H.T + Q[0:2, 0:2]`. */
  function CalcInnovation(lib: MathLib, lm: Vector, e: Estimate, z: Measurement, lmId: nat): (r: Innovation)
    requires WellFormed(e) && |lm| == LM_SIZE && lmId < CalcNLM(e.x)
    ensures |r.y| == 2 && -PI <= r.y[1] < PI
    ensures IsSquare(r.S, 2)
    ensures IsMatrix(r.H, 2, |e.x|)
    ensures forall row, c | 0 <= row < 2 && 0 <= c < |e.x| && !IsObservedColumn(c, lmId) :: r.H[row][c] == 0.0
  {
    CalcNLMIsLandmarkCount(e);
    var delta := [lm[0] - e.x[0], lm[1] - e.x[1]];
    var q := Dot(delta, delta);
    var zangle := lib.atan2(delta[1], delta[0]) - e.x[2];
    var zp := [lib.sqrt(q), PiToPi(zangle)];
    var y := [z.range - zp[0], PiToPi(z.bearing - zp[1])];
    var H := JacobH(lib, q, delta, e.x, lmId + 1);
    var S := Add(Mul(Mul(H, e.P), Transpose(H)), InnovationNoise());
    Innovation(y, S, H)
  }

  /** The squared Mahalanobis distance `y.T inv(S) y` of the observation to
      stored landmark `i`, or nothing when `S` is singular. */
  function Mahalanobis(lib: MathLib, e: Estimate, z: Measurement, i: nat): (d: Option<real>)
    requires WellFormed(e) && i < CalcNLM(e.x)
    ensures d.None? <==> Det2(CalcInnovation(lib, GetLMPosFromState(e.x, i), e, z, i).S) == 0.0
  {
    var inn := CalcInnovation(lib, GetLMPosFromState(e.x, i), e, z, i);
    match Inverse2(inn.S)
    case None => None
    case Some(Sinv) => Some(Dot(inn.y, MatVec(Sinv, inn.y)))
  }

  /** The first failure among `opts`, or all their values in order: how a
      loop that raises on its first failing iteration ends. */
  function Collect(opts: seq<Option<real>>): (r: Result<seq<real>>)
    ensures r.Ok? <==> forall j | 0 <= j < |opts| :: opts[j].Some?
    ensures r.Ok? ==> |r.value| == |opts| && forall j | 0 <= j < |opts| :: opts[j] == Some(r.value[j])
    ensures r.Err? ==> (r.error.landmark < |opts| && opts[r.error.landmark].None? &&
      forall j | 0 <= j < r.error.landmark :: opts[j].Some?)
    decreases |opts|
  {
    if |opts| == 0 then Ok([])
    else
      var init := opts[..|opts| - 1];
      assert forall j | 0 <= j < |opts| - 1 :: init[j] == opts[j];
      var prev := Collect(init);
      if prev.Err? then prev
      else if opts[|opts| - 1].None? then Err(SingularInnovationCovariance(|opts| - 1))
      else
        var ds := prev.value + [opts[|opts| - 1].value];
        assert forall j | 0 <= j < |opts| - 1 :: ds[j] == prev.value[j];
        Ok(ds)
  }

  /** The distance of the observation to each stored landmark, in order. */
  function Trials(lib: MathLib, e: Estimate, z: Measurement): (t: seq<Option<real>>)
    requires WellFormed(e)
    ensures |t| == CalcNLM(e.x)
    ensures forall j | 0 <= j < |t| :: t[j] == Mahalanobis(lib, e, z, j)
  {
    seq(CalcNLM(e.x), j requires 0 <= j < CalcNLM(e.x) => Mahalanobis(lib, e, z, j))
  }

  /** The loop of `search_correspond_LM_ID` over the stored landmarks: their
      distances in order, or the error of the first landmark whose innovation
      covariance cannot be inverted. */
  function Distances(lib: MathLib, e: Estimate, z: Measurement): (r: Result<seq<real>>)
    requires WellFormed(e)
    ensures r.Ok? ==> |r.value| == CalcNLM(e.x)
    ensures r.Ok? ==> forall j | 0 <= j < CalcNLM(e.x) :: Trials(lib, e, z)[j] == Some(r.value[j])
    ensures r.Ok? <==> forall j | 0 <= j < CalcNLM(e.x) :: Trials(lib, e, z)[j].Some?
    ensures r.Err? ==> (r.error.landmark < CalcNLM(e.x) && Trials(lib, e, z)[r.error.landmark].None? &&
      forall j | 0 <= j < r.error.landmark :: Trials(lib, e, z)[j].Some?)
  {
    Collect(Trials(lib, e, z))
  }
}
