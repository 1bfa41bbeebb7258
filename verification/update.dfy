/**
 * The solver's parameter state as a value, the flat parameter vector it
 * corresponds to, and the update step that adds a solved vector v into it:
 * once as the solver's code is written, once as the vector layout intends.
 */
module ParameterUpdate {
  import opened ParameterLayout

  /** Per-camera translation and orientation, per-point x, y and inverse depth. */
  datatype Params = Params(
    tx: seq<real>, ty: seq<real>, tz: seq<real>,
    poseX: seq<real>, poseY: seq<real>, poseZ: seq<real>,
    px: seq<real>, py: seq<real>, pz: seq<real>)

  /** Nc entries in every camera array and Np in every point array. */
  predicate Shaped(p: Params, nc: nat, np: nat) {
    |p.tx| == nc && |p.ty| == nc && |p.tz| == nc &&
    |p.poseX| == nc && |p.poseY| == nc && |p.poseZ| == nc &&
    |p.px| == np && |p.py| == np && |p.pz| == np
  }

  /** The array that holds a block's parameters. */
  function Field(p: Params, b: Block): seq<real> {
    match b
    case Tx => p.tx
    case Ty => p.ty
    case Tz => p.tz
    case PoseX => p.poseX
    case PoseY => p.poseY
    case PoseZ => p.poseZ
    case PointX => p.px
    case PointY => p.py
    case PointZ => p.pz
  }

  /** The value of one parameter. */
  function At(p: Params, s: Slot, nc: nat, np: nat): real
    requires Shaped(p, nc, np) && ValidSlot(s, nc, np)
  {
    Field(p, s.block)[s.offset]
  }

  /** The parameter vector: all nine arrays concatenated in layout order. */
  function Flatten(p: Params): seq<real> {
    p.tx + p.ty + p.tz + p.poseX + p.poseY + p.poseZ + p.px + p.py + p.pz
  }

  /** Cuts a parameter vector of length K back into the nine arrays. */
  function Unflatten(f: seq<real>, nc: nat, np: nat): (p: Params)
    requires |f| == Size(nc, np)
    ensures Shaped(p, nc, np)
  {
    Params(f[..nc], f[nc..2 * nc], f[2 * nc..3 * nc],
           f[3 * nc..4 * nc], f[4 * nc..5 * nc], f[5 * nc..6 * nc],
           f[6 * nc..6 * nc + np], f[6 * nc + np..6 * nc + 2 * np], f[6 * nc + 2 * np..])
  }

  /** Entry Index(s) of the parameter vector is the parameter s. */
  lemma FlattenAt(p: Params, s: Slot, nc: nat, np: nat)
    requires Shaped(p, nc, np) && ValidSlot(s, nc, np)
    ensures |Flatten(p)| == Size(nc, np)
    ensures Flatten(p)[Index(s, nc, np)] == At(p, s, nc, np)
  {
  }

  /** Flatten and Unflatten are inverse: from the arrays to the vector and back. */
  lemma UnflattenFlatten(p: Params, nc: nat, np: nat)
    requires Shaped(p, nc, np)
    ensures |Flatten(p)| == Size(nc, np)
    ensures Unflatten(Flatten(p), nc, np) == p
  {
    var f := Flatten(p);
    var q := Unflatten(f, nc, np);
    forall s | ValidSlot(s, nc, np)
      ensures At(q, s, nc, np) == At(p, s, nc, np)
    {
      FlattenAt(p, s, nc, np);
      UnflattenAt(f, s, nc, np);
    }
    SameParameters(q, p, nc, np);
  }

  /** Two shaped states that agree on every parameter are equal. */
  lemma SameParameters(q: Params, p: Params, nc: nat, np: nat)
    requires Shaped(q, nc, np) && Shaped(p, nc, np)
    requires forall s | ValidSlot(s, nc, np) :: At(q, s, nc, np) == At(p, s, nc, np)
    ensures q == p
  {
    forall b: Block
      ensures Field(q, b) == Field(p, b)
    {
      forall n | 0 <= n < BlockSize(b, nc, np)
        ensures Field(q, b)[n] == Field(p, b)[n]
      {
        assert At(q, Slot(b, n), nc, np) == At(p, Slot(b, n), nc, np);
      }
    }
    assert Field(q, Tx) == Field(p, Tx) && Field(q, Ty) == Field(p, Ty);
    assert Field(q, Tz) == Field(p, Tz) && Field(q, PoseX) == Field(p, PoseX);
    assert Field(q, PoseY) == Field(p, PoseY) && Field(q, PoseZ) == Field(p, PoseZ);
    assert Field(q, PointX) == Field(p, PointX) && Field(q, PointY) == Field(p, PointY);
    assert Field(q, PointZ) == Field(p, PointZ);
  }

  /** Flatten and Unflatten are inverse: from the vector to the arrays and back. */
  lemma FlattenUnflatten(f: seq<real>, nc: nat, np: nat)
    requires |f| == Size(nc, np)
    ensures Flatten(Unflatten(f, nc, np)) == f
  {
  }

  /** Parameter s of the cut-up vector is entry Index(s) of the vector. */
  lemma UnflattenAt(f: seq<real>, s: Slot, nc: nat, np: nat)
    requires |f| == Size(nc, np) && ValidSlot(s, nc, np)
    ensures At(Unflatten(f, nc, np), s, nc, np) == f[Index(s, nc, np)]
  {
  }

  /**
   * The update exactly as the solver's code performs it: every parameter array
   * gets the entries of v at its own block, except that the Tz block's entries
   * are added into the y translation and the z translation is left as it was.
   */
  function AsWritten(p: Params, v: seq<real>, nc: nat, np: nat): (q: Params)
    requires Shaped(p, nc, np) && |v| == Size(nc, np)
    ensures Shaped(q, nc, np)
  {
    Params(
      seq(nc, i requires 0 <= i < nc => p.tx[i] + v[i]),
      seq(nc, i requires 0 <= i < nc => p.ty[i] + v[i + nc] + v[i + 2 * nc]),
      p.tz,
      seq(nc, i requires 0 <= i < nc => p.poseX[i] + v[i + 3 * nc]),
      seq(nc, i requires 0 <= i < nc => p.poseY[i] + v[i + 4 * nc]),
      seq(nc, i requires 0 <= i < nc => p.poseZ[i] + v[i + 5 * nc]),
      seq(np, j requires 0 <= j < np => p.px[j] + v[j + 6 * nc]),
      seq(np, j requires 0 <= j < np => p.py[j] + v[j + np + 6 * nc]),
      seq(np, j requires 0 <= j < np => p.pz[j] + v[j + 2 * np + 6 * nc]))
  }

  /** The parameter that entry k of v is added into by the code as written. */
  function Target(k: nat, nc: nat, np: nat): (s: Slot)
    requires k < Size(nc, np)
    ensures ValidSlot(s, nc, np) && s.block != Tz
  {
    var d := Decode(k, nc, np);
    if d.block == Tz then Slot(Ty, d.offset) else d
  }

  /** The entries of v that the code as written adds into parameter s, in the order it adds them. */
  function Sources(s: Slot, nc: nat, np: nat): (ks: seq<nat>)
    requires ValidSlot(s, nc, np)
    ensures forall i | 0 <= i < |ks| :: ks[i] < Size(nc, np)
  {
    match s.block
    case Ty => [Index(s, nc, np), Index(Slot(Tz, s.offset), nc, np)]
    case Tz => []
    case _ => [Index(s, nc, np)]
  }

  /** The sum of the entries of v at the indices ks. */
  function SumAt(v: seq<real>, ks: seq<nat>): real
    requires forall i | 0 <= i < |ks| :: ks[i] < |v|
  {
    if ks == [] then 0.0 else v[ks[0]] + SumAt(v, ks[1..])
  }

  /**
   * As written, each parameter grows by exactly the entries of v that are
   * routed to it: Tx, the three orientations and the three point coordinates
   * by the entry at their own index, Ty by its own entry plus the Tz entry of
   * the same camera, and Tz by nothing.
   */
  lemma AsWrittenAt(p: Params, v: seq<real>, s: Slot, nc: nat, np: nat)
    requires Shaped(p, nc, np) && |v| == Size(nc, np) && ValidSlot(s, nc, np)
    ensures At(AsWritten(p, v, nc, np), s, nc, np) == At(p, s, nc, np) + SumAt(v, Sources(s, nc, np))
  {
    var ks := Sources(s, nc, np);
    if s.block == Ty {
      assert ks[1..][1..] == [];
      assert SumAt(v, ks[1..]) == v[ks[1]] + 0.0;
    } else if s.block != Tz {
      assert SumAt(v, ks) == v[ks[0]] + 0.0 by {
        assert ks[1..] == [];
      }
    }
  }

  /**
   * As written, every entry of v is used exactly once: entry k is among the
   * sources of parameter s exactly when s is the target of k. So no index of v
   * is skipped or read twice, and the Tz block's entries all land in Ty.
   */
  lemma SourcesPartition(k: nat, s: Slot, nc: nat, np: nat)
    requires k < Size(nc, np) && ValidSlot(s, nc, np)
    ensures k in Sources(s, nc, np) <==> s == Target(k, nc, np)
  {
    var d := Decode(k, nc, np);
    IndexDecodes(s, nc, np);
    if s.block == Ty {
      IndexDecodes(Slot(Tz, s.offset), nc, np);
    }
  }

  /** The update the vector layout intends: entry k of v is added into the parameter at index k. */
  function Intended(p: Params, v: seq<real>, nc: nat, np: nat): (q: Params)
    requires Shaped(p, nc, np) && |v| == Size(nc, np)
    ensures Shaped(q, nc, np)
  {
    var f := Flatten(p);
    Unflatten(seq(|v|, k requires 0 <= k < |v| => f[k] + v[k]), nc, np)
  }

  /** With the intended update, every parameter grows by the entry of v at its own index. */
  lemma IntendedAt(p: Params, v: seq<real>, s: Slot, nc: nat, np: nat)
    requires Shaped(p, nc, np) && |v| == Size(nc, np) && ValidSlot(s, nc, np)
    ensures At(Intended(p, v, nc, np), s, nc, np) == At(p, s, nc, np) + v[Index(s, nc, np)]
  {
    var f := Flatten(p);
    var g := seq(|v|, k requires 0 <= k < |v| => f[k] + v[k]);
    UnflattenAt(g, s, nc, np);
    FlattenAt(p, s, nc, np);
  }

  /** The intended update adds v to the parameter vector entry by entry. */
  lemma IntendedIsVectorSum(p: Params, v: seq<real>, nc: nat, np: nat)
    requires Shaped(p, nc, np) && |v| == Size(nc, np)
    ensures |Flatten(Intended(p, v, nc, np))| == |v|
    ensures forall k | 0 <= k < |v| :: Flatten(Intended(p, v, nc, np))[k] == Flatten(p)[k] + v[k]
  {
    var f := Flatten(p);
    var g := seq(|v|, k requires 0 <= k < |v| => f[k] + v[k]);
    FlattenUnflatten(g, nc, np);
  }

  /**
   * The code as written agrees with the intended update exactly when the
   * solved step has no z-translation component for any camera.
   */
  lemma AsWrittenIsIntendedIff(p: Params, v: seq<real>, nc: nat, np: nat)
    requires Shaped(p, nc, np) && |v| == Size(nc, np)
    ensures AsWritten(p, v, nc, np) == Intended(p, v, nc, np)
        <==> forall i | 0 <= i < nc :: v[Index(Slot(Tz, i), nc, np)] == 0.0
  {
    if forall i | 0 <= i < nc :: v[Index(Slot(Tz, i), nc, np)] == 0.0 {
      AgreeWithoutTzStep(p, v, nc, np);
    } else {
      var i :| 0 <= i < nc && v[Index(Slot(Tz, i), nc, np)] != 0.0;
      DisagreeOnTz(p, v, i, nc, np);
    }
  }

  lemma AgreeWithoutTzStep(p: Params, v: seq<real>, nc: nat, np: nat)
    requires Shaped(p, nc, np) && |v| == Size(nc, np)
    requires forall i | 0 <= i < nc :: v[Index(Slot(Tz, i), nc, np)] == 0.0
    ensures AsWritten(p, v, nc, np) == Intended(p, v, nc, np)
  {
    var w := AsWritten(p, v, nc, np);
    var n := Intended(p, v, nc, np);
    forall s | ValidSlot(s, nc, np)
      ensures At(w, s, nc, np) == At(n, s, nc, np)
    {
      AsWrittenAt(p, v, s, nc, np);
      IntendedAt(p, v, s, nc, np);
      if s.block == Ty {
        assert v[Index(Slot(Tz, s.offset), nc, np)] == 0.0;
      }
    }
    SameParameters(w, n, nc, np);
  }

  lemma DisagreeOnTz(p: Params, v: seq<real>, i: nat, nc: nat, np: nat)
    requires Shaped(p, nc, np) && |v| == Size(nc, np)
    requires i < nc && v[Index(Slot(Tz, i), nc, np)] != 0.0
    ensures AsWritten(p, v, nc, np).tz[i] != Intended(p, v, nc, np).tz[i]
  {
  }

  /**
   * A concrete step that shows the difference: one camera, no points, and a
   * step of 1 in the Tz entry moves the y translation instead of the z one.
   */
  lemma TzStepMovesTy()
    ensures AsWritten(Params([0.0], [0.0], [0.0], [0.0], [0.0], [0.0], [], [], []), [0.0, 0.0, 1.0, 0.0, 0.0, 0.0], 1, 0).ty == [1.0]
    ensures AsWritten(Params([0.0], [0.0], [0.0], [0.0], [0.0], [0.0], [], [], []), [0.0, 0.0, 1.0, 0.0, 0.0, 0.0], 1, 0).tz == [0.0]
    ensures Intended(Params([0.0], [0.0], [0.0], [0.0], [0.0], [0.0], [], [], []), [0.0, 0.0, 1.0, 0.0, 0.0, 0.0], 1, 0).tz == [1.0]
  {
  }
}
