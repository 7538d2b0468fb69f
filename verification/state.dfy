/**
  The estimator's state layout: the mean `[x, y, yaw, lm0x, lm0y, lm1x, ...]`,
  the covariance of the same side, the map between a landmark index and its
  offset in the mean, and the augmentation that appends a newly seen landmark.
 */
module State {
  import opened Matrices
  import opened Geometry

  /** Pose entries at the head of the mean: x, y, yaw. */
  const STATE_SIZE: nat := 3
  /** Entries per landmark: x, y. */
  const LM_SIZE: nat := 2

  /** The mean and covariance the estimator threads from call to call. */
  datatype Estimate = Estimate(x: Vector, P: Matrix)

  /** One observation row `z[iz, 0:2]`: range and bearing relative to the pose.
      The third column, the simulator's landmark id, is not read by the
      estimator. */
  datatype Measurement = Measurement(range: real, bearing: real)

  /** The motion command `u`: linear and angular velocity. */
  datatype Control = Control(v: real, w: real)

  /** Mean length 3 + 2n and a covariance whose side equals it: the shape every
      numpy product in a step needs. */
  predicate WellFormed(e: Estimate) {
    |e.x| >= STATE_SIZE && (|e.x| - STATE_SIZE) % LM_SIZE == 0 && IsSquare(e.P, |e.x|)
  }

  /** The number of landmarks a well-formed estimate holds. */
  function LandmarkCount(e: Estimate): nat
    requires WellFormed(e)
  {
    (|e.x| - STATE_SIZE) / LM_SIZE
  }

  /** Python's `int(a / b)` for a positive `b`: true division, then truncation
      toward zero. */
  function TruncDiv(a: int, b: nat): (q: int)
    requires b > 0
    ensures a >= 0 ==> q >= 0 && q * b <= a < (q + 1) * b
    ensures a < 0 ==> q <= 0 && (q - 1) * b < a <= q * b
  {
    if a >= 0 then a / b else -((-a) / b)
  }

  /** `calc_n_LM`: `int((len(x) - STATE_SIZE) / LM_SIZE)`. */
  function CalcNLM(x: Vector): (n: int)
    ensures |x| >= STATE_SIZE ==> n >= 0 && STATE_SIZE + LM_SIZE * n <= |x| < STATE_SIZE + LM_SIZE * (n + 1)
    ensures |x| < STATE_SIZE ==> n == if |x| <= 1 then -1 else 0
  {
    TruncDiv(|x| - STATE_SIZE, LM_SIZE)
  }

  /** For a mean of the form 3 + 2k, `calc_n_LM` is k, and it agrees with
      `LandmarkCount`. */
  lemma CalcNLMOfLayout(x: Vector, k: nat)
    requires |x| == STATE_SIZE + LM_SIZE * k
    ensures CalcNLM(x) == k
  {
  }

  lemma CalcNLMIsLandmarkCount(e: Estimate)
    requires WellFormed(e)
    ensures CalcNLM(e.x) == LandmarkCount(e)
  {
    CalcNLMOfLayout(e.x, LandmarkCount(e));
  }

  /** A Python slice bound: negative bounds count from the end, and both are
      clamped to [0, n]. */
  function SliceBound(i: int, n: nat): (b: nat)
    ensures b <= n
    ensures 0 <= i <= n ==> b == i
  {
    if i < 0 then (if i + n < 0 then 0 else i + n) else if i > n then n else i
  }

  /** The Python slice `s[lo:hi]` with step 1. */
  function Slice<T>(s: seq<T>, lo: int, hi: int): (r: seq<T>)
    ensures 0 <= lo <= hi <= |s| ==> r == s[lo..hi]
    ensures 0 <= lo && |s| <= lo ==> r == []
    ensures lo <= hi && (lo < 0 <==> hi < 0) ==> |r| <= hi - lo
  {
    var a := SliceBound(lo, |s|);
    var b := SliceBound(hi, |s|);
    if a < b then s[a..b] else []
  }

  /** `get_LM_Pos_from_state`: the slice `x[3 + 2 ind : 3 + 2 (ind + 1)]`. For a
      stored landmark this is its two entries; past the end of the mean it is
      empty, and numpy's clamping makes it at most two entries for any index. */
  function GetLMPosFromState(x: Vector, ind: int): (lm: Vector)
    ensures |lm| <= LM_SIZE
    ensures 0 <= ind < CalcNLM(x) ==>
      lm == [x[STATE_SIZE + LM_SIZE * ind], x[STATE_SIZE + LM_SIZE * ind + 1]]
    ensures 0 <= ind && |x| <= STATE_SIZE + LM_SIZE * ind ==> lm == []
  {
    Slice(x, STATE_SIZE + LM_SIZE * ind, STATE_SIZE + LM_SIZE * (ind + 1))
  }

  /** `calc_LM_Pos`: the world position of a landmark seen at range `z.range`
      and bearing `z.bearing` from the pose at the head of `x`. */
  function CalcLMPos(lib: MathLib, x: Vector, z: Measurement): (lm: Vector)
    requires |x| >= STATE_SIZE
    ensures |lm| == LM_SIZE
  {
    [x[0] + z.range * lib.cos(x[2] + z.bearing), x[1] + z.range * lib.sin(x[2] + z.bearing)]
  }

  /** A landmark seen at range zero is placed on the robot's position. */
  lemma CalcLMPosAtZeroRange(lib: MathLib, x: Vector, bearing: real)
    requires |x| >= STATE_SIZE
    ensures CalcLMPos(lib, x, Measurement(0.0, bearing)) == x[..2]
  {
  }

  /** The new landmark's prior covariance block `initP = np.eye(2)`. */
  function InitP(): (m: Matrix)
    ensures IsSquare(m, LM_SIZE)
  {
    Identity(LM_SIZE)
  }

  /** State augmentation: `xAug = vstack(x, lm)` and
      `PAug = vstack(hstack(P, zeros(n, 2)), hstack(zeros(2, n), initP))`. The
      old covariance stays in the top-left corner, the new cross terms are
      zero and the new diagonal block is the identity. */
  function Augment(e: Estimate, lm: Vector): (r: Estimate)
    requires IsSquare(e.P, |e.x|) && |lm| == LM_SIZE
    ensures |r.x| == |e.x| + LM_SIZE
    ensures r.x[..|e.x|] == e.x && r.x[|e.x|..] == lm
    ensures IsSquare(r.P, |e.x| + LM_SIZE)
    ensures forall i, j | 0 <= i < |e.x| && 0 <= j < |e.x| :: r.P[i][j] == e.P[i][j]
    ensures forall i, j | 0 <= i < |e.x| && |e.x| <= j < |e.x| + LM_SIZE :: r.P[i][j] == 0.0 && r.P[j][i] == 0.0
    ensures forall i, j | |e.x| <= i < |e.x| + LM_SIZE && |e.x| <= j < |e.x| + LM_SIZE ::
      r.P[i][j] == if i == j then 1.0 else 0.0
  {
    var n := |e.x|;
    var top := HStack(e.P, Zeros(n, LM_SIZE));
    var bottom := HStack(Zeros(LM_SIZE, n), InitP());
    Estimate(e.x + lm, VStack(top, bottom))
  }

  /** Augmenting a well-formed estimate keeps it well-formed and adds exactly
      one landmark, so the old count becomes a valid landmark index whose
      stored position is the appended one. */
  lemma AugmentAddsOneLandmark(e: Estimate, lm: Vector)
    requires WellFormed(e) && |lm| == LM_SIZE
    ensures WellFormed(Augment(e, lm))
    ensures LandmarkCount(Augment(e, lm)) == LandmarkCount(e) + 1
    ensures CalcNLM(Augment(e, lm).x) == CalcNLM(e.x) + 1
    ensures GetLMPosFromState(Augment(e, lm).x, CalcNLM(e.x)) == lm
  {
    var r := Augment(e, lm);
    CalcNLMIsLandmarkCount(e);
    CalcNLMIsLandmarkCount(r);
    assert r.x[|e.x|..] == lm;
    assert r.x[|e.x|] == lm[0] && r.x[|e.x| + 1] == lm[1];
  }
}
