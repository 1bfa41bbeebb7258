/**
 * The layout of the bundle-adjustment parameter vector.
 *
 * With Nc cameras and Np points the vector has K = 6*Nc + 3*Np entries, in nine
 * contiguous blocks: the camera translations Tx, Ty, Tz, the camera orientations
 * pose_x, pose_y, pose_z (Nc entries each), then the point coordinates x, y and
 * inverse depth z (Np entries each).
 */
module ParameterLayout {

  /** The nine blocks of the parameter vector, in vector order. */
  datatype Block = Tx | Ty | Tz | PoseX | PoseY | PoseZ | PointX | PointY | PointZ

  /** One parameter: a block and a camera or point index inside it. */
  datatype Slot = Slot(block: Block, offset: nat)

  predicate IsCameraBlock(b: Block) {
    b in {Tx, Ty, Tz, PoseX, PoseY, PoseZ}
  }

  /** K, the length of the parameter vector. */
  function Size(nc: nat, np: nat): nat {
    6 * nc + 3 * np
  }

  /** Number of entries in a block: one per camera or one per point. */
  function BlockSize(b: Block, nc: nat, np: nat): nat {
    if IsCameraBlock(b) then nc else np
  }

  /** First vector index of a block. */
  function BlockStart(b: Block, nc: nat, np: nat): (start: nat)
    ensures start + BlockSize(b, nc, np) <= Size(nc, np)
  {
    match b
    case Tx => 0
    case Ty => nc
    case Tz => 2 * nc
    case PoseX => 3 * nc
    case PoseY => 4 * nc
    case PoseZ => 5 * nc
    case PointX => 6 * nc
    case PointY => 6 * nc + np
    case PointZ => 6 * nc + 2 * np
  }

  predicate ValidSlot(s: Slot, nc: nat, np: nat) {
    s.offset < BlockSize(s.block, nc, np)
  }

  /** Vector index of a parameter. */
  function Index(s: Slot, nc: nat, np: nat): (k: nat)
    requires ValidSlot(s, nc, np)
    ensures k < Size(nc, np)
    ensures BlockStart(s.block, nc, np) <= k < BlockStart(s.block, nc, np) + BlockSize(s.block, nc, np)
  {
    BlockStart(s.block, nc, np) + s.offset
  }

  /**
   * Which parameter a vector index stands for: the chain of comparisons the
   * solver uses to name the derivative at index k.
   */
  function Decode(k: nat, nc: nat, np: nat): (s: Slot)
    requires k < Size(nc, np)
    ensures ValidSlot(s, nc, np)
    ensures Index(s, nc, np) == k
  {
    if k < nc then Slot(Tx, k)
    else if k < 2 * nc then Slot(Ty, k - nc)
    else if k < 3 * nc then Slot(Tz, k - 2 * nc)
    else if k < 4 * nc then Slot(PoseX, k - 3 * nc)
    else if k < 5 * nc then Slot(PoseY, k - 4 * nc)
    else if k < 6 * nc then Slot(PoseZ, k - 5 * nc)
    else if k < 6 * nc + np then Slot(PointX, k - 6 * nc)
    else if k < 6 * nc + 2 * np then Slot(PointY, k - 6 * nc - np)
    else Slot(PointZ, k - 6 * nc - 2 * np)
  }

  /**
   * The blocks are disjoint: two different parameters never share an index,
   * and decoding the index of a parameter gives that parameter back.
   */
  lemma IndexDecodes(s: Slot, nc: nat, np: nat)
    requires ValidSlot(s, nc, np)
    ensures Decode(Index(s, nc, np), nc, np) == s
  {
  }

  /**
   * Indices and parameters are in one-to-one correspondence: every index in
   * 0..K-1 belongs to exactly one parameter, and equal indices mean equal
   * parameters.
   */
  lemma IndexInjective(s: Slot, t: Slot, nc: nat, np: nat)
    requires ValidSlot(s, nc, np) && ValidSlot(t, nc, np)
    ensures Index(s, nc, np) == Index(t, nc, np) <==> s == t
  {
  }
}
