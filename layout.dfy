/** How the demo function `Triangle` reads the generated stream (generateCube/script.js:157-173,
    202): two vertex attributes over 6-float records, and an indexed draw of
    `boxIndices.length` indices, reduced to the vertices it assembles. */
module VertexLayout {
  import opened CubeGeometry
  import opened CubeMesh
  import opened IndexTable

  /** `Float32Array.BYTES_PER_ELEMENT`. */
  const FloatBytes := 4

  /** What `vertexAttribPointer` is told: components per vertex, and the
      stride and offset in bytes. */
  datatype AttribPointer = AttribPointer(size: nat, strideBytes: nat, offsetBytes: nat)

  /** `vertPosition`: 3 floats at offset 0 of a 6-float record. */
  const PositionAttrib := AttribPointer(3, 6 * FloatBytes, 0)

  /** `vertColor`: 3 floats at offset 3 of a 6-float record. */
  const ColorAttrib := AttribPointer(3, 6 * FloatBytes, 3 * FloatBytes)

  datatype Option<T> = None | Some(value: T)

  /** The floats attribute `a` reads for vertex `v`, or `None` when they run
      past the end of the buffer. */
  function Fetch(buffer: seq<real>, a: AttribPointer, v: nat): (r: Option<seq<real>>)
  {
    var start := (a.offsetBytes + v * a.strideBytes) / FloatBytes;
    if start + a.size <= |buffer| then Some(buffer[start .. start + a.size]) else None
  }

  /** A vertex as the shaders see it. */
  datatype Vertex = Vertex(position: seq<real>, color: seq<real>)

  function FetchVertex(buffer: seq<real>, v: nat): (r: Option<Vertex>)
  {
    var p, c := Fetch(buffer, PositionAttrib, v), Fetch(buffer, ColorAttrib, v);
    if p.Some? && c.Some? then Some(Vertex(p.value, c.value)) else None
  }

  /** `drawElements(TRIANGLES, count, UNSIGNED_SHORT, 0)`: the vertices named
      by the first `count` indices, in order, every three a triangle; `None`
      when `count` exceeds the index buffer or an index reads past the vertex
      buffer. */
  function DrawElements(buffer: seq<real>, indices: seq<nat>, count: nat): (r: Option<seq<Vertex>>)
  {
    if count > |indices| then None
    else if count == 0 then Some([])
    else
      var prefix := DrawElements(buffer, indices, count - 1);
      var last := FetchVertex(buffer, indices[count - 1]);
      if prefix.Some? && last.Some? then Some(prefix.value + [last.value]) else None
  }

  /** The position of record `v` of a cube of half edge `h`. */
  function RecordPosition(h: real, v: nat): (p: Vec3)
    requires v < 24
  {
    Corners(h)[Faces[v / 4][v % 4]]
  }

  /** The two attributes agree with the records `generateCube` emits: for
      each of its 24 vertices the position attribute reads the corner and the
      colour attribute the face colour, and any vertex past the 24 reads past
      the buffer. */
  lemma AttributesReadRecords(size: real, colors: seq<Color>, v: nat)
    requires WellFormedColors(colors)
    ensures FetchVertex(CubeStream(size, colors), v).Some? <==> v < 24
    ensures v < 24 ==>
      FetchVertex(CubeStream(size, colors), v) == Some(Vertex(Components(RecordPosition(size / 2.0, v)), colors[v / 4]))
  {
    var s := CubeStream(size, colors);
    RecordAt(size, colors, 0);
    if v < 24 {
      RecordAt(size, colors, v);
      assert (PositionAttrib.offsetBytes + v * PositionAttrib.strideBytes) / FloatBytes == 6 * v;
      assert (ColorAttrib.offsetBytes + v * ColorAttrib.strideBytes) / FloatBytes == 6 * v + 3;
      assert s[6 * v .. 6 * v + 3] == RecordOf(s, v)[..3];
      assert s[6 * v + 3 .. 6 * v + 6] == RecordOf(s, v)[3..];
    } else {
      assert (PositionAttrib.offsetBytes + v * PositionAttrib.strideBytes) / FloatBytes == 6 * v;
    }
  }

  /** The draw succeeds exactly when every index it reads names a vertex
      inside the buffer, and then yields those vertices in index order. */
  lemma {:induction false} DrawElementsFetches(buffer: seq<real>, indices: seq<nat>, count: nat)
    ensures DrawElements(buffer, indices, count).Some? <==>
      count <= |indices| && forall i :: 0 <= i < count ==> FetchVertex(buffer, indices[i]).Some?
    ensures DrawElements(buffer, indices, count).Some? ==>
      |DrawElements(buffer, indices, count).value| == count &&
      forall i :: 0 <= i < count ==>
        Some(DrawElements(buffer, indices, count).value[i]) == FetchVertex(buffer, indices[i])
  {
    if count > 0 && count <= |indices| {
      DrawElementsFetches(buffer, indices, count - 1);
    }
  }

  /** Drawing the cube's stream over all of `boxIndices` reads no vertex past
      the 24 it holds and yields 36 vertices; the three vertices of triangle
      `t` lie on the plane of face `t / 2` and carry that face's colour. */
  lemma DrawCube(size: real, colors: seq<Color>)
    requires WellFormedColors(colors)
    ensures DrawElements(CubeStream(size, colors), BoxIndices, |BoxIndices|).Some?
    ensures |DrawElements(CubeStream(size, colors), BoxIndices, |BoxIndices|).value| == 36
    ensures forall i :: 0 <= i < 36 ==>
      var vertex := DrawElements(CubeStream(size, colors), BoxIndices, |BoxIndices|).value[i];
      var side := FaceSides[i / 6];
      vertex.color == colors[i / 6] &&
      |vertex.position| == 3 &&
      vertex.position[AxisIndex(side.axis)] == Signed(side.sign, size / 2.0)
  {
    var s := CubeStream(size, colors);
    IndicesInRange();
    forall i | 0 <= i < 36 ensures FetchVertex(s, BoxIndices[i]).Some? {
      CubeVertexAt(size, colors, i);
    }
    DrawElementsFetches(s, BoxIndices, |BoxIndices|);
    var vs := DrawElements(s, BoxIndices, |BoxIndices|).value;
    forall i | 0 <= i < 36
      ensures vs[i].color == colors[i / 6]
      ensures |vs[i].position| == 3
      ensures vs[i].position[AxisIndex(FaceSides[i / 6].axis)] == Signed(FaceSides[i / 6].sign, size / 2.0)
    {
      CubeVertexAt(size, colors, i);
      assert Some(vs[i]) == FetchVertex(s, BoxIndices[i]);
    }
  }

  /** The vertex entry `i` of the index table fetches: the record of face
      `i / 6` it names, whose position lies on that face's plane. */
  lemma CubeVertexAt(size: real, colors: seq<Color>, i: nat)
    requires WellFormedColors(colors) && i < 36
    ensures BoxIndices[i] < 24
    ensures FetchVertex(CubeStream(size, colors), BoxIndices[i]) ==
      Some(Vertex(Components(RecordPosition(size / 2.0, BoxIndices[i])), colors[i / 6]))
    ensures Components(RecordPosition(size / 2.0, BoxIndices[i]))[AxisIndex(FaceSides[i / 6].axis)] ==
      Signed(FaceSides[i / 6].sign, size / 2.0)
  {
    var v := BoxIndices[i];
    assert v < 24 by {
      IndicesInRange();
      assert v in BoxIndices;
    }
    BlockOfIndex(i);
    AttributesReadRecords(size, colors, v);
    var f, c := v / 4, v % 4;
    assert Coord(Corners(size / 2.0)[Faces[f][c]], FaceSides[f].axis) == Signed(FaceSides[f].sign, size / 2.0) by {
      FacesArePlanar(size / 2.0);
    }
    ComponentOnAxis(RecordPosition(size / 2.0, v), FaceSides[f].axis);
  }

  /** The position of an axis within the three components. */
  function AxisIndex(a: Axis): (j: nat)
    ensures j < 3
  {
    match a
    case X => 0
    case Y => 1
    case Z => 2
  }

  lemma ComponentOnAxis(p: Vec3, a: Axis)
    ensures Components(p)[AxisIndex(a)] == Coord(p, a)
  {
  }

  /** Entry `i` of the index table belongs to triangle `i / 3`, hence to face
      `i / 6`. */
  lemma BlockOfIndex(i: nat)
    requires i < 36
    ensures BoxIndices[i] / 4 == i / 6
  {
    var t := i / 3;
    assert 3 * t <= i < 3 * t + 3 && t < 12;
    TrianglesWithinFaces();
    assert BoxIndices[i] in TriangleRecords(t) by {
      assert i == 3 * t || i == 3 * t + 1 || i == 3 * t + 2;
    }
    BlockFace(BoxIndices[i], t / 2);
  }

  /** For a cube of non-zero size the two triangles of each face share the
      face's corners 0 and 2, which are diagonally opposite; as the face's
      corners walk round a square, the two triangles tile it. */
  lemma TrianglesSplitAlongDiagonal(h: real)
    requires h != 0.0
    ensures forall f :: 0 <= f < 6 ==>
      SharedRecords(f) == {4 * f, 4 * f + 2} &&
      DiffCount(RecordPosition(h, 4 * f), RecordPosition(h, 4 * f + 2)) == 2
  {
    FaceTrianglesCoverFace();
    FacesAreSimpleQuads(h);
    forall f | 0 <= f < 6
      ensures DiffCount(RecordPosition(h, 4 * f), RecordPosition(h, 4 * f + 2)) == 2
    {
      assert IsSimpleQuad(Faces[f], h);
      assert (4 * f) / 4 == f && (4 * f) % 4 == 0;
      assert (4 * f + 2) / 4 == f && (4 * f + 2) % 4 == 2;
    }
  }

  /** The three vertices of triangle `t` are at three different points. */
  predicate NonDegenerate(h: real, t: nat)
    requires t < 12
  {
    var a, b, c := TriangleCorner(t, 0), TriangleCorner(t, 1), TriangleCorner(t, 2);
    a < 24 && b < 24 && c < 24 &&
    RecordPosition(h, a) != RecordPosition(h, b) &&
    RecordPosition(h, b) != RecordPosition(h, c) &&
    RecordPosition(h, a) != RecordPosition(h, c)
  }

  /** For a cube of non-zero size no triangle is degenerate. */
  lemma TrianglesNonDegenerate(h: real)
    requires h != 0.0
    ensures forall t :: 0 <= t < 12 ==> NonDegenerate(h, t)
  {
    TrianglesWithinFaces();
    forall t | 0 <= t < 12 ensures NonDegenerate(h, t) {
      var a, b, c := TriangleCorner(t, 0), TriangleCorner(t, 1), TriangleCorner(t, 2);
      assert TriangleRecords(t) <= FaceBlock(t / 2);
      assert a in FaceBlock(t / 2) && b in FaceBlock(t / 2) && c in FaceBlock(t / 2);
      BlockFace(a, t / 2);
      BlockFace(b, t / 2);
      BlockFace(c, t / 2);
      RecordsOfFaceApart(h, a, b);
      RecordsOfFaceApart(h, b, c);
      RecordsOfFaceApart(h, a, c);
    }
  }

  /** Two different records of one face are at different points: they are
      different corners of the face, hence different corners of the cube. */
  lemma RecordsOfFaceApart(h: real, a: nat, b: nat)
    requires h != 0.0 && a != b && a / 4 == b / 4 < 6
    ensures a < 24 && b < 24
    ensures RecordPosition(h, a) != RecordPosition(h, b)
  {
    var f := a / 4;
    assert a == 4 * f + a % 4 && b == 4 * f + b % 4;
    assert a % 4 != b % 4;
    FaceCornersDistinct();
    var i, j := Faces[f][a % 4], Faces[f][b % 4];
    assert i != j;
    CornersDistinct(h);
    if i < j {
      assert Corners(h)[i] != Corners(h)[j];
    } else {
      assert Corners(h)[j] != Corners(h)[i];
    }
  }
}
