# EKF-SLAM step: a Dafny model of the landmark estimator

This project models the estimator core of `scripts/object_detection_based_landmark_slam.py`. That core is an
Extended Kalman Filter for simultaneous localisation and mapping. The robot's pose `[x, y, yaw]` and the
positions of the point landmarks it has found so far share one mean vector `[x, y, yaw, lm0x, lm0y, ...]`
and one covariance matrix. Each call of `ekf_slam` does three things:

1. It predicts the pose from the control `(v, w)`.
2. It handles the batch of range-bearing observations one at a time. For each one it finds the nearest
   stored landmark by Mahalanobis distance, using a "new landmark" sentinel at the gate `M_DIST_TH = 2.0`.
   When no stored landmark is within the gate it grows the state by one landmark. Then it applies the
   Kalman update.
3. It wraps the yaw into `[-pi, pi)`.

The model works with reals in place of doubles. Vectors are `seq<real>` (numpy's n-by-1 columns) and
matrices are `seq<seq<real>>`. Each step is a pure function. `sin`, `cos`, `atan2`, `sqrt`, and the
division by the squared landmark distance in `jacobH`, are fields of a `MathLib` value passed as a
parameter. So every proof holds whatever values those functions return. The 2-by-2 inverse
`np.linalg.inv(S)` is modelled exactly: it is the adjugate divided by the determinant. It fails when the
determinant is zero, which is where numpy raises `LinAlgError`. The model proves `S S^-1 = S^-1 S = I`.

Modules:

- `Geometry` holds `PI`, `pi_2_pi` and `MathLib`.
- `Matrices` holds the numpy operations the step uses (`dot`, `eye`, `zeros`, `hstack`, `vstack`, `.T`,
  block slices, 2-by-2 `inv`).
- `State` holds the layout, `calc_n_LM`, `get_LM_Pos_from_state`, `calc_LM_Pos` and augmentation.
- `Motion` holds `motion_model`, `jacob_motion` and the predict step.
- `Association` holds `search_correspond_LM_ID` over a list of distances.
- `Observation` holds `jacobH`, `calc_innovation` and the distance loop.
- `Ekf` holds the Kalman update, the observation loop and `ekf_slam`.

Points where the code differs from a textbook description of the algorithm. The model follows the code in
each case:

- The association gate is `M_DIST_TH = 2.0`. The chi-square constant `CHI_2 = 9.21934` is only used to
  size the plotting ellipses.
- The innovation covariance adds `Q[0:2, 0:2]` (diagonal 0.25, 0.25). It does not add
  `observation_noise`.
- `pi_2_pi` returns values in `[-pi, pi)`, not `(-pi, pi]`.
- The predict step does not wrap the yaw. The yaw is wrapped once, at the end of `ekf_slam`.
- The predict step calls `jacob_motion` on the 3-entry pose slice, so its `Fx` is the 3-by-3 identity. The
  covariance update adds `Q` to the pose block and leaves every other entry alone. The `G Q G^T` term is
  commented out in the code. `Q` is added on every call, even under the zero command, so a tick with no
  motion and no observations does not leave the covariance unchanged.
- Nothing in the step reports non-finite values. The only error is the singular-inverse exception.

## Model

| member | source | states |
|---|---|---|
| `Geometry.PiToPi` | scripts/object_detection_based_landmark_slam.py:217-218 | the wrapped angle lies in [-pi, pi) and differs from the input by a whole number of turns |
| `Geometry.PiToPiUnique` | scripts/object_detection_based_landmark_slam.py:217-218 | any value in [-pi, pi) a whole number of turns from the input is the wrapped angle, so the wrap is the canonical representative |
| `Geometry.PiToPiOfCanonical` | scripts/object_detection_based_landmark_slam.py:217-218 | an angle already in [-pi, pi) is unchanged |
| `Geometry.PiToPiIdempotent` | scripts/object_detection_based_landmark_slam.py:217-218 | wrapping twice equals wrapping once |
| `Geometry.PiToPiPeriodic` | scripts/object_detection_based_landmark_slam.py:217-218 | angles a whole number of turns apart wrap to the same value |
| `Matrices.Inverse2` | scripts/object_detection_based_landmark_slam.py:61 | the inverse fails exactly when the determinant is zero, and otherwise is a two-sided inverse |
| `State.CalcNLM` | scripts/object_detection_based_landmark_slam.py:122-124 | for a length of at least 3 the count n satisfies 3 + 2n <= len < 3 + 2(n + 1); shorter vectors give -1 or 0, as int() truncation toward zero gives |
| `State.CalcNLMOfLayout` | scripts/object_detection_based_landmark_slam.py:122-124 | a mean of length 3 + 2k has k landmarks |
| `State.CalcNLMIsLandmarkCount` | scripts/object_detection_based_landmark_slam.py:122-124 | on a well-formed estimate the count agrees with (len - 3) / 2 |
| `State.Slice` | scripts/object_detection_based_landmark_slam.py:152 | Python slicing: an in-range slice is the subsequence, a slice starting at or past the end is empty, and a slice with bounds of equal sign is never longer than hi - lo |
| `State.GetLMPosFromState` | scripts/object_detection_based_landmark_slam.py:150-154 | for a stored landmark index the slice is exactly entries 3 + 2i and 3 + 2i + 1; past the end it is empty; it never has more than two entries |
| `State.CalcLMPos` | scripts/object_detection_based_landmark_slam.py:141-147 | the new landmark position has two entries |
| `State.CalcLMPosAtZeroRange` | scripts/object_detection_based_landmark_slam.py:141-147 | a landmark seen at range zero is placed on the robot's position |
| `State.Augment` | scripts/object_detection_based_landmark_slam.py:49-58 | the mean grows by exactly 2 with the old entries kept and the new position appended; the covariance becomes (n+2)-square with the old matrix in the top-left, zero cross blocks and I2 on the new diagonal block |
| `State.AugmentAddsOneLandmark` | scripts/object_detection_based_landmark_slam.py:49-58 | augmentation keeps the estimate well-formed, adds one to the count, and makes the old count a valid index whose stored position is the appended one |
| `Motion.MotionModel` | scripts/object_detection_based_landmark_slam.py:108-119 | the matrix form F x + B u equals the unicycle update x + DT v cos(yaw), y + DT v sin(yaw), yaw + DT w |
| `Motion.MotionModelYaw` | scripts/object_detection_based_landmark_slam.py:108-119 | the new yaw is yaw + DT w whatever v is |
| `Motion.MotionModelAtRest` | scripts/object_detection_based_landmark_slam.py:108-119 | under the command (0, 0) the pose is returned unchanged |
| `Motion.PoseSelection` | scripts/object_detection_based_landmark_slam.py:129-130 | Fx is 3-by-(3 + 2n) with ones exactly on the pose diagonal and zeros elsewhere |
| `Motion.PoseSelectionOfPose` | scripts/object_detection_based_landmark_slam.py:37-38 | on the 3-entry pose slice Fx is the 3-by-3 identity |
| `Motion.JacobMotion` | scripts/object_detection_based_landmark_slam.py:127-138 | on a vector with no landmark entries Fx is I3 and G is I3 plus the single column of yaw derivatives -DT v sin(yaw), DT v cos(yaw) |
| `Motion.PredictCovariance` | scripts/object_detection_based_landmark_slam.py:41 | only the pose block of the covariance is replaced; with Fx = I3 the new block is the old block plus Q |
| `Motion.Predict` | scripts/object_detection_based_landmark_slam.py:36-41 | the estimate stays well-formed; the pose is the motion model's; landmark mean entries are unchanged; the pose block gains Q and every other covariance entry is unchanged |
| `Motion.PredictAtRest` | scripts/object_detection_based_landmark_slam.py:36-41 | under the zero command the mean is unchanged but the covariance still gains Q |
| `Association.MinOf` | scripts/object_detection_based_landmark_slam.py:173 | `min` returns an element of the list that is no larger than any element |
| `Association.IndexOf` | scripts/object_detection_based_landmark_slam.py:173 | `index` returns the first position holding the value |
| `Association.Candidates` | scripts/object_detection_based_landmark_slam.py:171 | the candidate list is the landmark distances followed by the gate M_DIST_TH |
| `Association.SearchCorrespondLMID` | scripts/object_detection_based_landmark_slam.py:157-175 | the result is in [0, nLM] and is the first minimum of distances-plus-gate; it is nLM exactly when every distance is strictly above M_DIST_TH; a chosen stored landmark is within the gate |
| `Association.FirstMinimumUnique` | scripts/object_detection_based_landmark_slam.py:173 | at most one index is the first minimum of a list |
| `Association.SearchIsTheFirstMinimum` | scripts/object_detection_based_landmark_slam.py:171-173 | any first minimum of the candidates is the index the search returns |
| `Association.SearchWithoutLandmarks` | scripts/object_detection_based_landmark_slam.py:166-173 | with no stored landmark the search always answers "new landmark" (index 0) |
| `Observation.InnovationNoise` | scripts/object_detection_based_landmark_slam.py:191 | the noise added to S is Q[0:2, 0:2], the diagonal 0.25, 0.25 |
| `Observation.LandmarkSelection` | scripts/object_detection_based_landmark_slam.py:205-210 | F is 5-by-(3 + 2 nLM) with a single one per row, on the pose columns and on columns 3 + 2(i - 1) and 3 + 2(i - 1) + 1, and zeros elsewhere |
| `Observation.JacobianBlock` | scripts/object_detection_based_landmark_slam.py:198-204 | the Jacobian block G / q is 2-by-5 |
| `Observation.JacobH` | scripts/object_detection_based_landmark_slam.py:196-214 | H is 2-by-(3 + 2 nLM), carries G on the pose columns and on landmark i - 1's two columns, and is zero on every other column |
| `Observation.CalcInnovation` | scripts/object_detection_based_landmark_slam.py:178-193 | y has two entries with the bearing residual in [-pi, pi); S is 2-by-2; H is 2-by-len(x) and zero outside the pose columns and landmark lmId's columns |
| `Observation.Mahalanobis` | scripts/object_detection_based_landmark_slam.py:167-169 | the distance to a stored landmark is missing exactly when that landmark's S is singular |
| `Observation.Collect` | scripts/object_detection_based_landmark_slam.py:166-169 | the loop succeeds exactly when every iteration does, keeping the values in order; otherwise it reports the first failing landmark |
| `Observation.Trials` | scripts/object_detection_based_landmark_slam.py:166-169 | one distance attempt per stored landmark, in index order |
| `Observation.Distances` | scripts/object_detection_based_landmark_slam.py:162-169 | on success there is one distance per stored landmark, in order; it fails exactly when some S is singular, and it reports the first such landmark |
| `Ekf.KalmanUpdate` | scripts/object_detection_based_landmark_slam.py:61-63 | the update keeps the mean length and the covariance side, so the estimate stays well-formed |
| `Ekf.KalmanUpdateZeroInnovation` | scripts/object_detection_based_landmark_slam.py:61-62 | a zero innovation leaves the mean unchanged whatever the gain |
| `Ekf.Associate` | scripts/object_detection_based_landmark_slam.py:47 | association fails exactly when the distance loop does; it answers "new landmark" (nLM) exactly when every distance is strictly above the gate |
| `Ekf.AugmentIfNew` | scripts/object_detection_based_landmark_slam.py:49-58 | the count grows by one exactly when minid == nLM, and the new landmark's stored position is calc_LM_Pos's; otherwise the estimate is unchanged; afterwards minid is a valid landmark index |
| `Ekf.ApplyObservation` | scripts/object_detection_based_landmark_slam.py:49-63 | augmentation, innovation and update keep the estimate well-formed; the count grows by one exactly for the "new landmark" index |
| `Ekf.CorrectOne` | scripts/object_detection_based_landmark_slam.py:46-63 | one loop iteration keeps the estimate well-formed and grows the count by one exactly when the association chose nLM |
| `Ekf.NewLandmarkIffOutsideGate` | scripts/object_detection_based_landmark_slam.py:47-50 | an observation grows the map exactly when every stored landmark's distance is strictly above M_DIST_TH |
| `Ekf.Correct` | scripts/object_detection_based_landmark_slam.py:46-63 | processing the batch in order keeps the estimate well-formed; the count never decreases and grows by at most the batch size |
| `Ekf.WrapYaw` | scripts/object_detection_based_landmark_slam.py:65 | the yaw is brought into [-pi, pi); the covariance and every other mean entry are unchanged |
| `Ekf.EkfSlam` | scripts/object_detection_based_landmark_slam.py:33-67 | on success the estimate is well-formed, the count grows by at most the number of observations, and the yaw is in [-pi, pi); an empty batch cannot fail and keeps the state length |
| `Ekf.EmptyBatchKeepsMap` | scripts/object_detection_based_landmark_slam.py:36-41 | with no observation the landmark mean entries and every covariance entry outside the pose block are unchanged; the pose block gains Q; the pose is the motion model's, with the yaw wrapped |

## Left out

- `observation` (lines 77-105) is the random sensor and actuator simulator. `calc_input`, `main`, all plotting,
  `calculate_error_ellipse`, the empty `ObjectDetectionBasedLandmarkSLAM` class and the `print` calls are
  also left out. They are test harness, I/O or UI, not estimator logic.
- Floating-point behaviour is not modelled. Reals have no rounding, inf or nan. In doubles, `pi_2_pi` can
  round to exactly `pi` for an input just below `-pi`. The model's `[-pi, pi)` holds only over the reals.
- The values of `sin`, `cos`, `atan2`, `sqrt` and of `G / q` are uninterpreted. At `q = 0` the source
  produces inf or nan and carries on, and the model leaves that value open.
- Symmetry and positive semi-definiteness of the covariance are not modelled. Both depend on the values of
  the floating-point computation.
- When `np.linalg.inv` raises, the model returns an error and no estimate. In the source the exception
  leaves the caller's arrays with the prediction already written into them, because `xEst[0:S] = ...` and
  `PEst[0:S, 0:S] = ...` assign in place. The demo never catches the exception.
- A numpy singularity test on a nearly singular double matrix is not modelled. The model treats a matrix as
  singular exactly when its determinant is zero.
- In `jacob_motion`, `u[0]` is a one-element array placed inside `np.array`. The model reads it as the
  scalar `v`. `G` is never used by the step.
- The third column of an observation row is the simulator's landmark id. The estimator never reads it.
- `State.CalcLMPos`: the contract states only that the result has two entries, because its values are
  products with the uninterpreted `cos` and `sin`. `State.CalcLMPosAtZeroRange` pins down the one case
  whose value does not depend on them.
- `Ekf.KalmanUpdate`: the contract states shapes only, because the gain depends on `S^-1` and on the
  uninterpreted Jacobian values. `Ekf.KalmanUpdateZeroInnovation` gives the value-level fact that holds for
  every gain.
- `Observation.JacobianBlock`: the contract states the 2-by-5 shape only. Its entries are uninterpreted
  quotients.
- `Observation.Trials`: the contract only names what each entry is. It lines the distances up in the
  loop's order.
