/**
  Nearest-neighbour data association with a gate: the Mahalanobis distances of
  an observation to every stored landmark, followed by a sentinel distance for
  "new landmark", and the first position of their minimum.
 */
module Association {

  /** `M_DIST_TH`: the Mahalanobis gate for associating with a stored landmark. */
  const M_DIST_TH: real := 2.0

  /** Python's `min` over a non-empty list: a left-to-right scan that keeps the
      current value unless an item is strictly smaller. */
  function MinOf(s: seq<real>): (m: real)
    requires |s| > 0
    ensures m in s
    ensures forall i | 0 <= i < |s| :: m <= s[i]
    decreases |s|
  {
    if |s| == 1 then s[0]
    else
      var m := MinOf(s[..|s| - 1]);
      assert forall i | 0 <= i < |s| - 1 :: s[..|s| - 1][i] == s[i];
      if s[|s| - 1] < m then s[|s| - 1] else m
  }

  /** Python's `list.index(v)`: the first position holding `v`. */
  function IndexOf(s: seq<real>, v: real): (k: nat)
    requires v in s
    ensures k < |s| && s[k] == v
    ensures forall j | 0 <= j < k :: s[j] != v
    decreases |s|
  {
    if s[0] == v then 0
    else
      assert v in s[1..];
      1 + IndexOf(s[1..], v)
  }

  /** `mdist` after the loop: the distances to the stored landmarks, then the
      gate as the distance of the "new landmark" hypothesis. */
  function Candidates(dists: seq<real>): (c: seq<real>)
    ensures |c| == |dists| + 1 && c[|dists|] == M_DIST_TH
    ensures forall i | 0 <= i < |dists| :: c[i] == dists[i]
  {
    dists + [M_DIST_TH]
  }

  /** `k` is the first position of a minimum of `s`. */
  predicate IsFirstMinimum(s: seq<real>, k: int) {
    && 0 <= k < |s|
    && (forall j | 0 <= j < |s| :: s[k] <= s[j])
    && (forall j | 0 <= j < k :: s[k] < s[j])
  }

  /** `search_correspond_LM_ID` over the stored landmarks' distances `dists`:
      `mdist.index(min(mdist))` for `mdist = dists + [M_DIST_TH]`. The result
      is a candidate index in [0, nLM], the first minimum of the candidates,
      and it is nLM (a new landmark) exactly when every stored landmark is
      strictly farther than the gate; a tie with the gate goes to the stored
      landmark. */
  function SearchCorrespondLMID(dists: seq<real>): (minid: nat)
    ensures minid <= |dists|
    ensures IsFirstMinimum(Candidates(dists), minid)
    ensures minid == |dists| <==> forall i | 0 <= i < |dists| :: dists[i] > M_DIST_TH
    ensures minid < |dists| ==> dists[minid] <= M_DIST_TH
  {
    var mdist := Candidates(dists);
    var minid := IndexOf(mdist, MinOf(mdist));
    assert mdist[minid] <= mdist[|dists|];
    minid
  }

  /** The first minimum is unique, so `SearchCorrespondLMID` is the only index
      with that property. */
  lemma FirstMinimumUnique(s: seq<real>, k: int, k': int)
    requires IsFirstMinimum(s, k) && IsFirstMinimum(s, k')
    ensures k == k'
  {
    assert s[k] <= s[k'] && s[k'] <= s[k];
  }

  /** Any index that is the first minimum of the candidates is the one the
      search returns. */
  lemma SearchIsTheFirstMinimum(dists: seq<real>, k: int)
    requires IsFirstMinimum(Candidates(dists), k)
    ensures SearchCorrespondLMID(dists) == k
  {
    FirstMinimumUnique(Candidates(dists), k, SearchCorrespondLMID(dists));
  }

  /** With no stored landmark the observation always opens a new one. */
  lemma SearchWithoutLandmarks()
    ensures SearchCorrespondLMID([]) == 0
  {
  }
}
