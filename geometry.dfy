/** The two constant tables of `generateCube` (generateCube/script.js:33-60):
    the eight canonical corners of a cube of half edge `h` and the six faces,
    each an ordered list of four corner numbers. */
module CubeGeometry {

  /** A point in object space. */
  datatype Vec3 = Vec3(x: real, y: real, z: real)

  datatype Axis = X | Y | Z

  /** The side of the origin a coordinate lies on. */
  datatype Sign = Neg | Pos

  function Coord(p: Vec3, a: Axis): (c: real)
  {
    match a
    case X => p.x
    case Y => p.y
    case Z => p.z
  }

  /** `h` on the positive side, `-h` on the negative one. */
  function Signed(s: Sign, h: real): (c: real)
  {
    if s == Pos then h else -h
  }

  /** The three values `push(...vertices[i])` appends, in x, y, z order. */
  function Components(p: Vec3): (r: seq<real>)
    ensures |r| == 3
    ensures forall j :: 0 <= j < 3 ==> r[j] == Coord(p, [X, Y, Z][j])
  {
    [p.x, p.y, p.z]
  }

  function ScaleBy(p: Vec3, k: real): (q: Vec3)
    ensures forall a :: Coord(q, a) == k * Coord(p, a)
  {
    Vec3(k * p.x, k * p.y, k * p.z)
  }

  /** A corner number, an index into the corner table. */
  type CornerId = i: nat | i < 8

  /** A face: four corner numbers in drawing order. */
  type Quad = s: seq<CornerId> | |s| == 4 witness [0, 1, 2, 3]

  /** The corner table `vertices`: four top corners (y = +h), then the four
      bottom ones (y = -h) in the same x/z order. */
  function Corners(h: real): (cs: seq<Vec3>)
  {
    [ Vec3(-h, h, -h), Vec3(-h, h, h), Vec3(h, h, h), Vec3(h, h, -h),
      Vec3(-h, -h, -h), Vec3(-h, -h, h), Vec3(h, -h, h), Vec3(h, -h, -h) ]
  }

  /** The face table `faces`, in the order top, left, right, front, back, bottom. */
  const Faces: seq<Quad> :=
    [ [0, 1, 2, 3], [1, 5, 4, 0], [2, 6, 7, 3],
      [2, 6, 5, 1], [3, 7, 4, 0], [4, 5, 6, 7] ]

  /** The number of faces, `faces.length`. */
  const FaceCount := 6

  /** The plane each face is named after, by the comments on the face table. */
  datatype Side = Side(axis: Axis, sign: Sign)

  const FaceSides: seq<Side> :=
    [ Side(Y, Pos), Side(X, Neg), Side(X, Pos),
      Side(Z, Pos), Side(Z, Neg), Side(Y, Neg) ]

  /** The point whose coordinates have the given signs. */
  function CornerAt(sx: Sign, sy: Sign, sz: Sign, h: real): (p: Vec3)
  {
    Vec3(Signed(sx, h), Signed(sy, h), Signed(sz, h))
  }

  /** The number of axes on which two points differ. */
  function DiffCount(p: Vec3, q: Vec3): (n: nat)
    ensures n <= 3
    ensures n == 0 <==> p == q
  {
    (if p.x != q.x then 1 else 0) + (if p.y != q.y then 1 else 0) + (if p.z != q.z then 1 else 0)
  }

  /** Every coordinate of every corner is `h` or `-h`. */
  lemma CornerCoordinates(h: real)
    ensures |Corners(h)| == 8
    ensures forall i, a :: 0 <= i < 8 ==> Coord(Corners(h)[i], a) == h || Coord(Corners(h)[i], a) == -h
  {
    forall i, a | 0 <= i < 8
      ensures Coord(Corners(h)[i], a) == h || Coord(Corners(h)[i], a) == -h
    {
      var cs := Corners(h);
      assert cs[i] == CornerAt(if i == 2 || i == 3 || i == 6 || i == 7 then Pos else Neg,
                               if i < 4 then Pos else Neg,
                               if i == 1 || i == 2 || i == 5 || i == 6 then Pos else Neg, h);
    }
  }

  /** Every combination of signs appears in the corner table. */
  lemma CornersCoverSignCombinations(h: real)
    ensures forall sx, sy, sz :: CornerAt(sx, sy, sz, h) in Corners(h)
  {
    forall sx, sy, sz ensures CornerAt(sx, sy, sz, h) in Corners(h) {
      var i := (if sy == Pos then 0 else 4) +
               (if sx == Neg then (if sz == Neg then 0 else 1)
                else (if sz == Pos then 2 else 3));
      assert Corners(h)[i] == CornerAt(sx, sy, sz, h);
    }
  }

  /** For a cube of non-zero size the eight corners are pairwise distinct, so
      with the two lemmas above they are exactly the eight sign combinations. */
  lemma CornersDistinct(h: real)
    requires h != 0.0
    ensures forall i, j :: 0 <= i < j < 8 ==> Corners(h)[i] != Corners(h)[j]
  {
    forall i, j | 0 <= i < j < 8 ensures Corners(h)[i] != Corners(h)[j] {
      var cs := Corners(h);
      assert h != -h;
      assert cs[i].x != cs[j].x || cs[i].y != cs[j].y || cs[i].z != cs[j].z;
    }
  }

  /** Each face lists four different corners. */
  lemma FaceCornersDistinct()
    ensures |Faces| == FaceCount
    ensures forall f, c, d :: 0 <= f < 6 && 0 <= c < d < 4 ==> Faces[f][c] != Faces[f][d]
  {
  }

  /** Each face is planar: all four of its corners have the coordinate of the
      face's side (top y = +h, left x = -h, right x = +h, front z = +h,
      back z = -h, bottom y = -h). */
  lemma FacesArePlanar(h: real)
    ensures forall f, c :: 0 <= f < 6 && 0 <= c < 4 ==>
      Coord(Corners(h)[Faces[f][c]], FaceSides[f].axis) == Signed(FaceSides[f].sign, h)
  {
    forall f, c | 0 <= f < 6 && 0 <= c < 4
      ensures Coord(Corners(h)[Faces[f][c]], FaceSides[f].axis) == Signed(FaceSides[f].sign, h)
    {
      assert f == 0 || f == 1 || f == 2 || f == 3 || f == 4 || f == 5;
    }
  }

  /** The six faces lie on six different sides of the cube. */
  lemma FacesOnDistinctSides()
    ensures |FaceSides| == FaceCount
    ensures forall f, g :: 0 <= f < g < 6 ==> FaceSides[f] != FaceSides[g]
  {
  }

  /** Read in order, the four corners of `q` walk round the boundary of a
      square: consecutive corners share an edge of the cube (they differ on one
      axis) and opposite corners differ on two. */
  predicate IsSimpleQuad(q: Quad, h: real)
  {
    var p := Corners(h);
    DiffCount(p[q[0]], p[q[1]]) == 1 && DiffCount(p[q[1]], p[q[2]]) == 1 &&
    DiffCount(p[q[2]], p[q[3]]) == 1 && DiffCount(p[q[3]], p[q[0]]) == 1 &&
    DiffCount(p[q[0]], p[q[2]]) == 2 && DiffCount(p[q[1]], p[q[3]]) == 2
  }

  /** For a cube of non-zero size no face is self-intersecting. */
  lemma FacesAreSimpleQuads(h: real)
    requires h != 0.0
    ensures forall f :: 0 <= f < 6 ==> IsSimpleQuad(Faces[f], h)
  {
    assert h != -h;
    assert IsSimpleQuad(Faces[0], h);
    assert IsSimpleQuad(Faces[1], h);
    assert IsSimpleQuad(Faces[2], h);
    assert IsSimpleQuad(Faces[3], h);
    assert IsSimpleQuad(Faces[4], h);
    assert IsSimpleQuad(Faces[5], h);
  }

  /** Each component of a scaled point is the scaled component. */
  lemma ComponentsScale(p: Vec3, k: real, j: nat)
    requires j < 3
    ensures Components(ScaleBy(p, k))[j] == k * Components(p)[j]
  {
  }

  /** Scaling the half edge by `k` scales every corner by `k`. */
  lemma CornersScale(h: real, h': real, k: real)
    requires h' == k * h
    ensures forall i :: 0 <= i < 8 ==> Corners(h')[i] == ScaleBy(Corners(h)[i], k)
  {
    forall i | 0 <= i < 8 ensures Corners(h')[i] == ScaleBy(Corners(h)[i], k) {
      assert k * -h == -h';
    }
  }
}
