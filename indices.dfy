/** The constant index table `boxIndices` (generateCube/script.js:121-146):
    two triangles per face, each naming three of the face's four records. */
module IndexTable {

  /** `boxIndices`, faces in the order of the face table. */
  const BoxIndices: seq<nat> :=
    [  0,  1,  2,   0,  2,  3,    // top
       5,  4,  6,   6,  4,  7,    // left
       8,  9, 10,   8, 10, 11,    // right
      13, 12, 14,  15, 14, 12,    // front
      16, 17, 18,  16, 18, 19,    // back
      21, 20, 22,  22, 20, 23 ]   // bottom

  /** Corner `j` of triangle `t`: the record entry `3 t + j` of the table names. */
  function TriangleCorner(t: nat, j: nat): (v: nat)
    requires t < 12 && j < 3
  {
    BoxIndices[3 * t + j]
  }

  /** The three records triangle `t` joins. */
  function TriangleRecords(t: nat): (vs: set<nat>)
    requires t < 12
  {
    {TriangleCorner(t, 0), TriangleCorner(t, 1), TriangleCorner(t, 2)}
  }

  /** The records both triangles of face `f` join. */
  function SharedRecords(f: nat): (vs: set<nat>)
    requires f < 6
  {
    TriangleRecords(2 * f) * TriangleRecords(2 * f + 1)
  }

  /** The four records of face `f`: `4 f` to `4 f + 3`. */
  function FaceBlock(f: nat): (vs: set<nat>)
  {
    {4 * f, 4 * f + 1, 4 * f + 2, 4 * f + 3}
  }

  /** 36 indices, all below 24: the draw over `boxIndices.length` reads none of
      the records past the 24 that `generateCube` emits. */
  lemma IndicesInRange()
    ensures |BoxIndices| == 36
    ensures forall v :: v in BoxIndices ==> v < 24
  {
  }

  /** Each triangle joins three different records, all of one face: triangles
      `2 f` and `2 f + 1` lie in the block of face `f`. */
  lemma TrianglesWithinFaces()
    ensures forall t :: 0 <= t < 12 ==>
      BoxIndices[3 * t] != BoxIndices[3 * t + 1] &&
      BoxIndices[3 * t + 1] != BoxIndices[3 * t + 2] &&
      BoxIndices[3 * t] != BoxIndices[3 * t + 2]
    ensures forall t :: 0 <= t < 12 ==> TriangleRecords(t) <= FaceBlock(t / 2)
  {
    forall t | 0 <= t < 12
      ensures BoxIndices[3 * t] != BoxIndices[3 * t + 1]
      ensures BoxIndices[3 * t + 1] != BoxIndices[3 * t + 2]
      ensures BoxIndices[3 * t] != BoxIndices[3 * t + 2]
      ensures TriangleRecords(t) <= FaceBlock(t / 2)
    {
      assert t == 0 || t == 1 || t == 2 || t == 3 || t == 4 || t == 5 ||
             t == 6 || t == 7 || t == 8 || t == 9 || t == 10 || t == 11;
    }
  }

  /** The two triangles of a face together use all four of its records and
      share exactly its records 0 and 2: each face is cut along the edge from
      its first corner to its third. */
  lemma FaceTrianglesCoverFace()
    ensures forall f :: 0 <= f < 6 ==> TriangleRecords(2 * f) + TriangleRecords(2 * f + 1) == FaceBlock(f)
    ensures forall f :: 0 <= f < 6 ==> SharedRecords(f) == {4 * f, 4 * f + 2}
  {
    forall f | 0 <= f < 6
      ensures TriangleRecords(2 * f) + TriangleRecords(2 * f + 1) == FaceBlock(f)
      ensures SharedRecords(f) == {4 * f, 4 * f + 2}
    {
      assert f == 0 || f == 1 || f == 2 || f == 3 || f == 4 || f == 5;
    }
  }

  /** A record of the block of face `f` belongs to face `f`. */
  lemma BlockFace(v: nat, f: nat)
    requires v in FaceBlock(f)
    ensures v / 4 == f
  {
  }

  /** Record `v` belongs to face `v / 4`. */
  lemma InOwnBlock(v: nat)
    ensures v in FaceBlock(v / 4)
  {
    var r := v % 4;
    assert v == 4 * (v / 4) + r;
    assert r == 0 || r == 1 || r == 2 || r == 3;
  }

  /** Record `v` is named by some entry of the table. */
  predicate Drawn(v: nat)
  {
    exists i :: 0 <= i < |BoxIndices| && BoxIndices[i] == v
  }

  /** No record is orphaned: every one of the 24 is drawn by some triangle. */
  lemma NoOrphanVertices()
    ensures forall v :: 0 <= v < 24 ==> Drawn(v)
  {
    forall v | 0 <= v < 24 ensures Drawn(v) {
      var f := v / 4;
      InOwnBlock(v);
      assert f < 6;
      FaceTrianglesCoverFace();
      assert TriangleRecords(2 * f) + TriangleRecords(2 * f + 1) == FaceBlock(f);
      assert v in TriangleRecords(2 * f) + TriangleRecords(2 * f + 1);
      var t := if v in TriangleRecords(2 * f) then 2 * f else 2 * f + 1;
      var i := if v == BoxIndices[3 * t] then 3 * t else if v == BoxIndices[3 * t + 1] then 3 * t + 1 else 3 * t + 2;
      assert BoxIndices[i] == v;
    }
  }
}
