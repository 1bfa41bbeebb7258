/**
 * The bundle-adjustment solver object and its one-step iteration: scale the
 * Hessian diagonal by the damping factor, add the solved update vector into
 * the camera and point arrays, recompute the reprojection error and adapt the
 * damping factor.
 *
 * The numerical routines the step calls (the Hessian entries, the linear solve
 * and the reprojection error) are not part of this model; they enter as
 * parameters: the Hessian base value and the error as functions of the
 * parameter state, the solve's result as the vector v.
 */
module BundleAdjustment {
  import opened ParameterLayout
  import opened ParameterUpdate
  import opened Damping

  class Solver {
    /** Number of cameras (frames) and of tracked points. */
    const nc: nat
    const np: nat

    /** Per-camera translation and orientation. */
    const camTx: array<real>
    const camTy: array<real>
    const camTz: array<real>
    const camPoseX: array<real>
    const camPoseY: array<real>
    const camPoseZ: array<real>

    /** Per-point image-plane x, y and inverse depth z. */
    const pointX: array<real>
    const pointY: array<real>
    const pointZ: array<real>

    /** The damped K-by-K system matrix. */
    const hessian: array2<real>

    /** The error cached after the last step, and the damping factor. */
    var reprojectionError: real
    var c: real

    /** K, the number of unknowns. */
    function K(): nat {
      Size(nc, np)
    }

    /** The nine parameter arrays are separate objects. */
    ghost predicate Separate()
      reads this
    {
      camTx != camTy && camTx != camTz && camTx != camPoseX && camTx != camPoseY &&
      camTx != camPoseZ && camTx != pointX && camTx != pointY && camTx != pointZ &&
      camTy != camTz && camTy != camPoseX && camTy != camPoseY && camTy != camPoseZ &&
      camTy != pointX && camTy != pointY && camTy != pointZ &&
      camTz != camPoseX && camTz != camPoseY && camTz != camPoseZ &&
      camTz != pointX && camTz != pointY && camTz != pointZ &&
      camPoseX != camPoseY && camPoseX != camPoseZ &&
      camPoseX != pointX && camPoseX != pointY && camPoseX != pointZ &&
      camPoseY != camPoseZ && camPoseY != pointX && camPoseY != pointY && camPoseY != pointZ &&
      camPoseZ != pointX && camPoseZ != pointY && camPoseZ != pointZ &&
      pointX != pointY && pointX != pointZ && pointY != pointZ
    }

    /**
     * Object invariant: every camera array has Nc entries, every point array
     * Np, the Hessian is K by K, and the damping factor is positive.
     */
    ghost predicate Valid()
      reads this
    {
      camTx.Length == nc && camTy.Length == nc && camTz.Length == nc &&
      camPoseX.Length == nc && camPoseY.Length == nc && camPoseZ.Length == nc &&
      pointX.Length == np && pointY.Length == np && pointZ.Length == np &&
      hessian.Length0 == K() && hessian.Length1 == K() &&
      Separate() && c > 0.0
    }

    /** The current parameter state as a value. */
    function Snapshot(): Params
      reads this, camTx, camTy, camTz, camPoseX, camPoseY, camPoseZ, pointX, pointY, pointZ
    {
      Params(camTx[..], camTy[..], camTz[..], camPoseX[..], camPoseY[..], camPoseZ[..],
             pointX[..], pointY[..], pointZ[..])
    }

    /**
     * A solver over nc cameras and np points, holding the given initial
     * parameters, their reprojection error and a positive damping factor.
     */
    constructor (nc: nat, np: nat, initial: Params, initialError: real, initialDamping: real)
      requires Shaped(initial, nc, np)
      requires initialDamping > 0.0
      ensures Valid()
      ensures this.nc == nc && this.np == np
      ensures Snapshot() == initial
      ensures reprojectionError == initialError && c == initialDamping
      ensures fresh(camTx) && fresh(camTy) && fresh(camTz) && fresh(camPoseX) && fresh(camPoseY)
      ensures fresh(camPoseZ) && fresh(pointX) && fresh(pointY) && fresh(pointZ) && fresh(hessian)
    {
      this.nc := nc;
      this.np := np;
      camTx := new real[nc](i requires 0 <= i < nc => initial.tx[i]);
      camTy := new real[nc](i requires 0 <= i < nc => initial.ty[i]);
      camTz := new real[nc](i requires 0 <= i < nc => initial.tz[i]);
      camPoseX := new real[nc](i requires 0 <= i < nc => initial.poseX[i]);
      camPoseY := new real[nc](i requires 0 <= i < nc => initial.poseY[i]);
      camPoseZ := new real[nc](i requires 0 <= i < nc => initial.poseZ[i]);
      pointX := new real[np](j requires 0 <= j < np => initial.px[j]);
      pointY := new real[np](j requires 0 <= j < np => initial.py[j]);
      pointZ := new real[np](j requires 0 <= j < np => initial.pz[j]);
      hessian := new real[Size(nc, np), Size(nc, np)];
      reprojectionError := initialError;
      c := initialDamping;
    }

    /**
     * Fills the Hessian: each diagonal entry is the base value times the
     * damping factor, each off-diagonal entry is the base value unscaled.
     */
    method ScaleHessian(hessianBase: (Params, nat, nat) -> real)
      requires Valid()
      modifies hessian
      ensures Valid()
      ensures forall k | 0 <= k < K() :: hessian[k, k] == c * hessianBase(Snapshot(), k, k)
      ensures forall k1, k2 | 0 <= k1 < K() && 0 <= k2 < K() && k1 != k2 ::
                hessian[k1, k2] == hessianBase(Snapshot(), k1, k2)
    {
      var p := Snapshot();
      var k1 := 0;
      while k1 < K()
        invariant 0 <= k1 <= K()
        invariant forall a, b | 0 <= a < k1 && 0 <= b < K() ::
                    hessian[a, b] == if a == b then c * hessianBase(p, a, b) else hessianBase(p, a, b)
      {
        var k2 := 0;
        while k2 < K()
          invariant 0 <= k2 <= K()
          invariant forall a, b | 0 <= a < k1 && 0 <= b < K() ::
                      hessian[a, b] == if a == b then c * hessianBase(p, a, b) else hessianBase(p, a, b)
          invariant forall b | 0 <= b < k2 ::
                      hessian[k1, b] == if k1 == b then c * hessianBase(p, k1, b) else hessianBase(p, k1, b)
        {
          var scale := if k1 == k2 then this.c else 1.0;
          hessian[k1, k2] := scale * hessianBase(p, k1, k2);
          k2 := k2 + 1;
        }
        k1 := k1 + 1;
      }
    }

    /**
     * Adds the solved update v into the camera and point arrays, as the
     * solver's code does it: the Tz block of v goes into the y translation
     * and the z translation is left unchanged.
     */
    method ApplyUpdate(v: seq<real>)
      requires Valid() && |v| == K()
      modifies camTx, camTy, camPoseX, camPoseY, camPoseZ, pointX, pointY, pointZ
      ensures Valid()
      ensures Snapshot() == AsWritten(old(Snapshot()), v, nc, np)
      ensures forall i | 0 <= i < nc :: camTy[i] == old(camTy[i]) + v[i + nc] + v[i + 2 * nc]
      ensures camTz[..] == old(camTz[..])
    {
      UpdateCameras(v);
      UpdatePoints(v);
      ghost var w := AsWritten(old(Snapshot()), v, nc, np);
      assert camTx[..] == w.tx && camTy[..] == w.ty && camTz[..] == w.tz;
      assert camPoseX[..] == w.poseX && camPoseY[..] == w.poseY && camPoseZ[..] == w.poseZ;
      assert pointX[..] == w.px && pointY[..] == w.py && pointZ[..] == w.pz;
    }

    /** The camera half of the update: one pass over the cameras. */
    method UpdateCameras(v: seq<real>)
      requires Valid() && |v| == K()
      modifies camTx, camTy, camPoseX, camPoseY, camPoseZ
      ensures Valid()
      ensures forall i | 0 <= i < nc :: camTx[i] == old(camTx[i]) + v[i]
      ensures forall i | 0 <= i < nc :: camTy[i] == old(camTy[i]) + v[i + nc] + v[i + 2 * nc]
      ensures forall i | 0 <= i < nc :: camPoseX[i] == old(camPoseX[i]) + v[i + 3 * nc]
      ensures forall i | 0 <= i < nc :: camPoseY[i] == old(camPoseY[i]) + v[i + 4 * nc]
      ensures forall i | 0 <= i < nc :: camPoseZ[i] == old(camPoseZ[i]) + v[i + 5 * nc]
    {
      for i := 0 to nc
        invariant forall m | 0 <= m < nc :: camTx[m] == if m < i then old(camTx[m]) + v[m] else old(camTx[m])
        invariant forall m | 0 <= m < nc ::
                    camTy[m] == if m < i then old(camTy[m]) + v[m + nc] + v[m + 2 * nc] else old(camTy[m])
        invariant forall m | 0 <= m < nc ::
                    camPoseX[m] == if m < i then old(camPoseX[m]) + v[m + 3 * nc] else old(camPoseX[m])
        invariant forall m | 0 <= m < nc ::
                    camPoseY[m] == if m < i then old(camPoseY[m]) + v[m + 4 * nc] else old(camPoseY[m])
        invariant forall m | 0 <= m < nc ::
                    camPoseZ[m] == if m < i then old(camPoseZ[m]) + v[m + 5 * nc] else old(camPoseZ[m])
      {
        camTx[i] := camTx[i] + v[i];
        camTy[i] := camTy[i] + v[i + nc];
        camTy[i] := camTy[i] + v[i + 2 * nc];
        camPoseX[i] := camPoseX[i] + v[i + 3 * nc];
        camPoseY[i] := camPoseY[i] + v[i + 4 * nc];
        camPoseZ[i] := camPoseZ[i] + v[i + 5 * nc];
      }
    }

    /** The point half of the update: one pass over the points. */
    method UpdatePoints(v: seq<real>)
      requires Valid() && |v| == K()
      modifies pointX, pointY, pointZ
      ensures Valid()
      ensures forall j | 0 <= j < np :: pointX[j] == old(pointX[j]) + v[j + 6 * nc]
      ensures forall j | 0 <= j < np :: pointY[j] == old(pointY[j]) + v[j + np + 6 * nc]
      ensures forall j | 0 <= j < np :: pointZ[j] == old(pointZ[j]) + v[j + 2 * np + 6 * nc]
    {
      for j := 0 to np
        invariant forall m | 0 <= m < np ::
                    pointX[m] == if m < j then old(pointX[m]) + v[m + 6 * nc] else old(pointX[m])
        invariant forall m | 0 <= m < np ::
                    pointY[m] == if m < j then old(pointY[m]) + v[m + np + 6 * nc] else old(pointY[m])
        invariant forall m | 0 <= m < np ::
                    pointZ[m] == if m < j then old(pointZ[m]) + v[m + 2 * np + 6 * nc] else old(pointZ[m])
      {
        pointX[j] := pointX[j] + v[j + 6 * nc];
        pointY[j] := pointY[j] + v[j + np + 6 * nc];
        pointZ[j] := pointZ[j] + v[j + 2 * np + 6 * nc];
      }
    }

    /**
     * Recomputes the reprojection error of the current parameters and adapts
     * the damping factor by comparing it with the error cached before.
     */
    method UpdateErrorAndDamping(reprojectionErrorOf: Params -> real)
      requires Valid()
      modifies this
      ensures Valid()
      ensures Snapshot() == old(Snapshot())
      ensures reprojectionError == reprojectionErrorOf(Snapshot())
      ensures c == NextDamping(old(reprojectionError), reprojectionError, old(c))
    {
      var prevReprojectionError := reprojectionError;
      reprojectionError := reprojectionErrorOf(Snapshot());
      if prevReprojectionError - reprojectionError > 0.0 {
        c := c / 10.0;
      } else {
        c := c * 10.0;
      }
    }

    /**
     * One solver step. The Hessian is built from the parameters and damping
     * factor before the step; the parameters then move by v as the code is
     * written; the error cached afterwards is that of the new parameters, and
     * the damping factor follows the comparison with the error cached before.
     */
    method RunOneStep(hessianBase: (Params, nat, nat) -> real, v: seq<real>, reprojectionErrorOf: Params -> real)
      requires Valid() && |v| == K()
      modifies this, hessian, camTx, camTy, camPoseX, camPoseY, camPoseZ, pointX, pointY, pointZ
      ensures Valid()
      ensures forall k | 0 <= k < K() :: hessian[k, k] == old(c) * hessianBase(old(Snapshot()), k, k)
      ensures forall k1, k2 | 0 <= k1 < K() && 0 <= k2 < K() && k1 != k2 ::
                hessian[k1, k2] == hessianBase(old(Snapshot()), k1, k2)
      ensures Snapshot() == AsWritten(old(Snapshot()), v, nc, np)
      ensures reprojectionError == reprojectionErrorOf(Snapshot())
      ensures c == NextDamping(old(reprojectionError), reprojectionError, old(c))
    {
      ScaleHessian(hessianBase);
      ApplyUpdate(v);
      UpdateErrorAndDamping(reprojectionErrorOf);
    }
  }
}
