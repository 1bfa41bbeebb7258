/**
 * Track-visibility filtering in the bundle-adjustment driver: a status mask
 * that starts all ones is AND-ed with the optical-flow status vector of every
 * later frame, and each frame's point list is then cut down to the points whose
 * mask entry survived. Points are kept or dropped in every frame together.
 */
module StableTracks {

  /** A per-point tracking status byte: 1 when the point was found again, 0 when it was lost. */
  type Status = bv8

  /** The mask entry of point j after AND-ing in the given status vectors in order, starting from 1. */
  function TotalStatus(statuses: seq<seq<Status>>, j: nat): (r: Status)
    ensures r == 0 || r == 1
  {
    if statuses == [] then 1
    else
      var before := TotalStatus(statuses[..|statuses| - 1], j);
      var last := statuses[|statuses| - 1];
      if j < |last| then before & last[j] else before
  }

  /** Point j kept the low status bit in every status vector that covers it. */
  predicate TrackedThroughout(statuses: seq<seq<Status>>, j: nat) {
    forall i | 0 <= i < |statuses| && j < |statuses[i]| :: statuses[i][j] & 1 == 1
  }

  /** Every status byte is 0 or 1, as the optical-flow tracker reports them. */
  predicate BinaryStatuses(statuses: seq<seq<Status>>) {
    forall i, j | 0 <= i < |statuses| && 0 <= j < |statuses[i]| :: statuses[i][j] == 0 || statuses[i][j] == 1
  }

  /** The mask entry of a point is 1 exactly when the point was tracked in every frame. */
  lemma {:induction false} TotalStatusIsConjunction(statuses: seq<seq<Status>>, j: nat)
    ensures TotalStatus(statuses, j) == 1 <==> TrackedThroughout(statuses, j)
  {
    if statuses != [] {
      var before := statuses[..|statuses| - 1];
      TotalStatusIsConjunction(before, j);
      assert forall i | 0 <= i < |before| :: before[i] == statuses[i];
    }
  }

  /** With 0/1 statuses: entry j is 1 exactly when every frame's status for j was 1. */
  lemma TotalStatusOfBinary(statuses: seq<seq<Status>>, j: nat)
    requires BinaryStatuses(statuses)
    ensures TotalStatus(statuses, j) == 1 <==> forall i | 0 <= i < |statuses| && j < |statuses[i]| :: statuses[i][j] == 1
  {
  }

  /** Once a mask entry is 0 it stays 0 through all later frames. */
  lemma {:induction false} LostStaysLost(statuses: seq<seq<Status>>, k: nat, j: nat)
    requires k <= |statuses|
    requires TotalStatus(statuses[..k], j) == 0
    ensures TotalStatus(statuses, j) == 0
    decreases |statuses| - k
  {
    if k < |statuses| {
      var next := statuses[..k + 1];
      assert next[..|next| - 1] == statuses[..k];
      assert TotalStatus(next, j) == 0;
      LostStaysLost(statuses, k + 1, j);
    } else {
      assert statuses[..k] == statuses;
    }
  }

  /** The mask over n points after all the given status vectors. */
  function Mask(statuses: seq<seq<Status>>, n: nat): (mask: seq<Status>)
    ensures |mask| == n
  {
    seq(n, j requires 0 <= j < n => TotalStatus(statuses, j))
  }

  /**
   * Builds the mask in place: a vector of n ones, AND-ed entry by entry with
   * each status vector in turn.
   */
  method ConjoinStatuses(n: nat, statuses: seq<seq<Status>>) returns (totalStatus: seq<Status>)
    requires forall i | 0 <= i < |statuses| :: |statuses[i]| <= n
    ensures |totalStatus| == n
    ensures forall j | 0 <= j < n :: totalStatus[j] == TotalStatus(statuses, j)
  {
    var total := new Status[n](_ => 1);
    for i := 0 to |statuses|
      invariant forall j | 0 <= j < n :: total[j] == TotalStatus(statuses[..i], j)
    {
      var status := statuses[i];
      assert statuses[..i + 1][..i] == statuses[..i];
      for j := 0 to |status|
        invariant forall m | 0 <= m < j :: total[m] == TotalStatus(statuses[..i + 1], m)
        invariant forall m | j <= m < n :: total[m] == TotalStatus(statuses[..i], m)
      {
        total[j] := total[j] & status[j];
      }
      forall m | |status| <= m < n
        ensures total[m] == TotalStatus(statuses[..i + 1], m)
      {
      }
    }
    assert statuses[..|statuses|] == statuses;
    totalStatus := total[..];
  }

  /** The points of one frame whose mask entry is nonzero, in frame order. */
  function Filter<P>(frame: seq<P>, mask: seq<Status>): seq<P>
    requires |frame| <= |mask|
  {
    if frame == [] then []
    else
      var n := |frame| - 1;
      Filter(frame[..n], mask) + (if mask[n] != 0 then [frame[n]] else [])
  }

  /** The indices below n whose mask entry is nonzero, in increasing order. */
  function Kept(mask: seq<Status>, n: nat): (ks: seq<nat>)
    requires n <= |mask|
    ensures forall t | 0 <= t < |ks| :: ks[t] < n && mask[ks[t]] != 0
    ensures forall t, u | 0 <= t < u < |ks| :: ks[t] < ks[u]
  {
    if n == 0 then [] else Kept(mask, n - 1) + (if mask[n - 1] != 0 then [n - 1] else [])
  }

  /** Every index below n with a nonzero mask entry is kept. */
  lemma {:induction false} KeptComplete(mask: seq<Status>, n: nat, j: nat)
    requires n <= |mask| && j < n && mask[j] != 0
    ensures j in Kept(mask, n)
  {
    if j < n - 1 {
      KeptComplete(mask, n - 1, j);
    } else {
      assert Kept(mask, n)[|Kept(mask, n)| - 1] == j;
    }
  }

  /**
   * Filtering a frame picks exactly the points at the kept indices, in
   * increasing index order.
   */
  lemma {:induction false} FilterGathers<P>(frame: seq<P>, mask: seq<Status>)
    requires |frame| <= |mask|
    ensures |Filter(frame, mask)| == |Kept(mask, |frame|)|
    ensures forall t | 0 <= t < |Filter(frame, mask)| :: Filter(frame, mask)[t] == frame[Kept(mask, |frame|)[t]]
  {
    if frame != [] {
      var n := |frame| - 1;
      FilterGathers(frame[..n], mask);
    }
  }

  /**
   * Cuts every frame down to its masked points, pushing the kept points of
   * each frame in order and then the frame itself.
   */
  method FilterStable<P>(track: seq<seq<P>>, totalStatus: seq<Status>) returns (stable: seq<seq<P>>)
    requires forall i | 0 <= i < |track| :: |track[i]| <= |totalStatus|
    ensures |stable| == |track|
    ensures forall i | 0 <= i < |track| :: stable[i] == Filter(track[i], totalStatus)
  {
    stable := [];
    for i := 0 to |track|
      invariant |stable| == i
      invariant forall f | 0 <= f < i :: stable[f] == Filter(track[f], totalStatus)
    {
      var frame := track[i];
      var points: seq<P> := [];
      for j := 0 to |frame|
        invariant points == Filter(frame[..j], totalStatus)
      {
        assert frame[..j + 1][..j] == frame[..j];
        if totalStatus[j] != 0 {
          points := points + [frame[j]];
        }
      }
      assert frame[..|frame|] == frame;
      stable := stable + [points];
    }
  }

  /**
   * The whole filtering stage: track holds every frame's points, statuses the
   * status vector reported for every frame after the first. The result has
   * one list per frame, and every list holds exactly the points whose mask
   * entry survived, in order, at the same positions in every frame.
   */
  method StableTrackPoints<P>(track: seq<seq<P>>, statuses: seq<seq<Status>>) returns (stable: seq<seq<P>>)
    requires |track| >= 1 && |statuses| == |track| - 1
    requires forall i | 0 <= i < |statuses| :: |statuses[i]| <= |track[0]|
    requires forall i | 0 <= i < |track| :: |track[i]| <= |track[0]|
    ensures |stable| == |track|
    ensures forall i | 0 <= i < |track| :: stable[i] == Filter(track[i], Mask(statuses, |track[0]|))
    ensures forall i | 0 <= i < |track| && |track[i]| == |track[0]| :: |stable[i]| == |stable[0]|
    ensures forall i | 0 <= i < |track| ::
              |stable[i]| == |Kept(Mask(statuses, |track[0]|), |track[i]|)| &&
              forall t | 0 <= t < |stable[i]| :: stable[i][t] == track[i][Kept(Mask(statuses, |track[0]|), |track[i]|)[t]]
  {
    var totalStatus := ConjoinStatuses(|track[0]|, statuses);
    assert totalStatus == Mask(statuses, |track[0]|);
    stable := FilterStable(track, totalStatus);
    forall i | 0 <= i < |track|
      ensures |stable[i]| == |Kept(totalStatus, |track[i]|)|
      ensures forall t | 0 <= t < |stable[i]| :: stable[i][t] == track[i][Kept(totalStatus, |track[i]|)[t]]
    {
      FilterGathers(track[i], totalStatus);
    }
  }

  /**
   * A point lost in any one frame is absent from every filtered frame: no
   * kept index is its index.
   */
  lemma LostPointDropped(statuses: seq<seq<Status>>, n: nat, i: nat, j: nat, m: nat)
    requires i < |statuses| && j < |statuses[i]| && j < n && m <= n
    requires statuses[i][j] == 0
    ensures forall t | 0 <= t < |Kept(Mask(statuses, n), m)| :: Kept(Mask(statuses, n), m)[t] != j
  {
    TotalStatusIsConjunction(statuses, j);
    assert statuses[i][j] & 1 == 0;
    assert Mask(statuses, n)[j] == 0;
  }

  /**
   * A point tracked in every frame appears in every filtered frame that
   * covers it.
   */
  lemma TrackedPointKept(statuses: seq<seq<Status>>, n: nat, j: nat, m: nat)
    requires j < m <= n
    requires TrackedThroughout(statuses, j)
    ensures j in Kept(Mask(statuses, n), m)
  {
    TotalStatusIsConjunction(statuses, j);
    KeptComplete(Mask(statuses, n), m, j);
  }
}
