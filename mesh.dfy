/** `generateCube(size, colors)` (generateCube/script.js:32-73): the flat
    vertex stream of a cube, one record per corner of each face, face by face. */
module CubeMesh {
  import opened CubeGeometry

  /** A face colour as the caller passes it: an array of numbers that is
      spread into the stream unchanged. */
  type Color = seq<real>

  /** The caller supplies at least six colours of three components each. */
  predicate WellFormedColors(colors: seq<Color>)
  {
    |colors| >= 6 && forall f :: 0 <= f < 6 ==> |colors[f]| == 3
  }

  /** Record `k` of a stream: floats `6 k` to `6 k + 5`, the slice the two
      vertex attributes read for vertex `k`. */
  function RecordOf(s: seq<real>, k: nat): (r: seq<real>)
    requires 6 * k + 6 <= |s|
  {
    s[6 * k .. 6 * k + 6]
  }

  /** The record emitted for corner `c` of face `f`: the corner's position,
      then the face's colour. */
  function Record(h: real, colors: seq<Color>, f: nat, c: nat): (r: seq<real>)
    requires f < 6 && f < |colors| && c < 4
  {
    Components(Corners(h)[Faces[f][c]]) + colors[f]
  }

  /** The records of the first `n` corners of face `f`. */
  function CornerRecords(h: real, colors: seq<Color>, f: nat, n: nat): (s: seq<real>)
    requires f < 6 && f < |colors| && n <= 4
  {
    if n == 0 then [] else CornerRecords(h, colors, f, n - 1) + Record(h, colors, f, n - 1)
  }

  /** The records of the first `n` faces. */
  function FaceRecords(h: real, colors: seq<Color>, n: nat): (s: seq<real>)
    requires n <= 6 && n <= |colors|
  {
    if n == 0 then [] else FaceRecords(h, colors, n - 1) + CornerRecords(h, colors, n - 1, 4)
  }

  /** The whole stream for an edge of length `size`. */
  function CubeStream(size: real, colors: seq<Color>): (s: seq<real>)
    requires |colors| >= 6
  {
    FaceRecords(size / 2.0, colors, 6)
  }

  /** What a call returns: the stream, or the TypeError thrown when the colour
      of face `face` is missing (`colors[face]` is `undefined`, which cannot be
      spread). */
  datatype Outcome = Vertices(stream: seq<real>) | ColorNotIterable(face: nat)

  /** `generateCube`: the nested loop that pushes, for each face and each of its
      corners, the corner's position and then the face's colour. With six
      three-component colours the stream is 24 records of 6 floats, record `k`
      being corner `k % 4` of face `k / 4`. */
  method GenerateCube(size: real, colors: seq<Color>) returns (r: Outcome)
    ensures r.Vertices? <==> |colors| >= 6
    ensures r.Vertices? ==> r.stream == CubeStream(size, colors)
    ensures r.ColorNotIterable? ==> r.face == |colors|
    ensures r.Vertices? && WellFormedColors(colors) ==>
      |r.stream| == 144 &&
      forall k :: 0 <= k < 24 ==> RecordOf(r.stream, k) == Record(size / 2.0, colors, k / 4, k % 4)
  {
    var halfSize := size / 2.0;
    var vertices := Corners(halfSize);
    var faces := Faces;
    var cubeVertices: seq<real> := [];
    var i := 0;
    while i < |faces|
      invariant 0 <= i <= 6 && i <= |colors|
      invariant cubeVertices == FaceRecords(halfSize, colors, i)
    {
      var faceVertices := faces[i];
      if i >= |colors| {
        // `colors[i]` is `undefined`: the first corner's position is pushed,
        // then spreading the colour throws and the local array is discarded
        return ColorNotIterable(i);
      }
      var faceColor := colors[i];
      var j := 0;
      while j < |faceVertices|
        invariant 0 <= j <= 4
        invariant cubeVertices == FaceRecords(halfSize, colors, i) + CornerRecords(halfSize, colors, i, j)
      {
        var vertexIndex := faceVertices[j];
        ghost var before := cubeVertices;
        cubeVertices := cubeVertices + Components(vertices[vertexIndex]);
        cubeVertices := cubeVertices + faceColor;
        assert cubeVertices == before + Record(halfSize, colors, i, j);
        assert CornerRecords(halfSize, colors, i, j + 1) ==
          CornerRecords(halfSize, colors, i, j) + Record(halfSize, colors, i, j);
        assert cubeVertices == FaceRecords(halfSize, colors, i) +
          (CornerRecords(halfSize, colors, i, j) + Record(halfSize, colors, i, j));
        j := j + 1;
      }
      assert FaceRecords(halfSize, colors, i + 1) ==
        FaceRecords(halfSize, colors, i) + CornerRecords(halfSize, colors, i, 4);
      i := i + 1;
    }
    r := Vertices(cubeVertices);
    if WellFormedColors(colors) {
      CubeStreamLayout(size, colors);
    }
  }

  /** The whole stream: 24 records of 6 floats, record `k` being corner
      `k % 4` of face `k / 4` followed by that face's colour. */
  lemma CubeStreamLayout(size: real, colors: seq<Color>)
    requires WellFormedColors(colors)
    ensures |CubeStream(size, colors)| == 144
    ensures forall k :: 0 <= k < 24 ==> RecordOf(CubeStream(size, colors), k) == Record(size / 2.0, colors, k / 4, k % 4)
  {
    FaceRecordsLayout(size / 2.0, colors, 6);
  }

  /** Appending to a stream leaves its complete records as they were. */
  lemma RecordOfPrefix(s: seq<real>, t: seq<real>, k: nat)
    requires 6 * k + 6 <= |s|
    ensures RecordOf(s + t, k) == RecordOf(s, k)
  {
    assert (s + t)[6 * k .. 6 * k + 6] == s[6 * k .. 6 * k + 6];
  }

  /** Past `m` complete records, the records of an appended stream are those
      of the appended part. */
  lemma RecordOfSuffix(s: seq<real>, t: seq<real>, m: nat, k: nat)
    requires |s| == 6 * m && m <= k && 6 * k + 6 <= |s| + |t|
    ensures RecordOf(s + t, k) == RecordOf(t, k - m)
  {
    assert (s + t)[6 * k .. 6 * k + 6] == t[6 * (k - m) .. 6 * (k - m) + 6];
  }

  /** With a three-component colour a record takes 6 floats. */
  lemma RecordLength(h: real, colors: seq<Color>, f: nat, c: nat)
    requires WellFormedColors(colors) && f < 6 && c < 4
    ensures |Record(h, colors, f, c)| == 6
  {
    assert |colors[f]| == 3;
  }

  /** With three-component colours each corner record of a face takes 6 floats. */
  lemma {:induction false} CornerRecordsLayout(h: real, colors: seq<Color>, f: nat, n: nat)
    requires WellFormedColors(colors) && f < 6 && n <= 4
    ensures |CornerRecords(h, colors, f, n)| == 6 * n
    ensures forall c :: 0 <= c < n ==> RecordOf(CornerRecords(h, colors, f, n), c) == Record(h, colors, f, c)
  {
    if n > 0 {
      CornerRecordsLayout(h, colors, f, n - 1);
      var prefix := CornerRecords(h, colors, f, n - 1);
      var last := Record(h, colors, f, n - 1);
      RecordLength(h, colors, f, n - 1);
      assert CornerRecords(h, colors, f, n) == prefix + last;
      forall c | 0 <= c < n
        ensures RecordOf(prefix + last, c) == Record(h, colors, f, c)
      {
        if c < n - 1 {
          RecordOfPrefix(prefix, last, c);
        } else {
          RecordOfSuffix(prefix, last, n - 1, c);
          assert RecordOf(last, 0) == last;
        }
      }
    }
  }

  /** With three-component colours the first `n` faces take 24 floats each, and
      record `k` is corner `k % 4` of face `k / 4`. */
  lemma {:induction false} FaceRecordsLayout(h: real, colors: seq<Color>, n: nat)
    requires WellFormedColors(colors) && n <= 6
    ensures |FaceRecords(h, colors, n)| == 24 * n
    ensures forall k :: 0 <= k < 4 * n ==> RecordOf(FaceRecords(h, colors, n), k) == Record(h, colors, k / 4, k % 4)
  {
    if n > 0 {
      FaceRecordsLayout(h, colors, n - 1);
      CornerRecordsLayout(h, colors, n - 1, 4);
      var prefix := FaceRecords(h, colors, n - 1);
      var block := CornerRecords(h, colors, n - 1, 4);
      assert FaceRecords(h, colors, n) == prefix + block;
      forall k | 0 <= k < 4 * n
        ensures RecordOf(prefix + block, k) == Record(h, colors, k / 4, k % 4)
      {
        if k < 4 * (n - 1) {
          RecordOfPrefix(prefix, block, k);
        } else {
          RecordOfSuffix(prefix, block, 4 * (n - 1), k);
          assert k == 4 * (n - 1) + (k - 4 * (n - 1));
          assert k / 4 == n - 1 && k % 4 == k - 4 * (n - 1);
        }
      }
    }
  }

  /** The stream holds 24 records of 6 floats, face-major and corner-minor:
      record `k` is the position of corner `k % 4` of face `k / 4`, then that
      face's colour. */
  lemma RecordAt(size: real, colors: seq<Color>, k: nat)
    requires WellFormedColors(colors) && k < 24
    ensures |CubeStream(size, colors)| == 144
    ensures RecordOf(CubeStream(size, colors), k) == Components(Corners(size / 2.0)[Faces[k / 4][k % 4]]) + colors[k / 4]
    ensures RecordOf(CubeStream(size, colors), k)[..3] == Components(Corners(size / 2.0)[Faces[k / 4][k % 4]])
    ensures RecordOf(CubeStream(size, colors), k)[3..] == colors[k / 4]
  {
    FaceRecordsLayout(size / 2.0, colors, 6);
  }

  /** The first three floats of every record are each `+size/2` or `-size/2`;
      the last three are the face's colour, copied unchanged. */
  lemma StreamValues(size: real, colors: seq<Color>)
    requires WellFormedColors(colors)
    ensures |CubeStream(size, colors)| == 144
    ensures forall k, j :: 0 <= k < 24 && 0 <= j < 3 ==>
      RecordOf(CubeStream(size, colors), k)[j] == size / 2.0 || RecordOf(CubeStream(size, colors), k)[j] == -(size / 2.0)
    ensures forall k :: 0 <= k < 24 ==> RecordOf(CubeStream(size, colors), k)[3..] == colors[k / 4]
  {
    var s := CubeStream(size, colors);
    CornerCoordinates(size / 2.0);
    FaceRecordsLayout(size / 2.0, colors, 6);
    forall k, j | 0 <= k < 24 && 0 <= j < 3
      ensures RecordOf(s, k)[j] == size / 2.0 || RecordOf(s, k)[j] == -(size / 2.0)
    {
      var p := Corners(size / 2.0)[Faces[k / 4][k % 4]];
      assert RecordOf(s, k)[j] == Components(p)[j] == Coord(p, [X, Y, Z][j]);
    }
  }

  /** A record with its position (its first three floats) multiplied by `m`
      and its colour kept. */
  function ScaleRecord(r: seq<real>, m: real): (t: seq<real>)
    requires |r| == 6
    ensures |t| == 6 && t[3..] == r[3..]
    ensures forall j :: 0 <= j < 3 ==> t[j] == m * r[j]
  {
    var p := Vec3(r[0], r[1], r[2]);
    assert forall j :: 0 <= j < 3 ==> Components(ScaleBy(p, m))[j] == m * r[j] by {
      forall j | 0 <= j < 3 ensures Components(ScaleBy(p, m))[j] == m * r[j] {
        ComponentsScale(p, m, j);
      }
    }
    Components(ScaleBy(p, m)) + r[3..]
  }

  /** A stream with every complete record scaled by `ScaleRecord`. */
  function ScalePositions(s: seq<real>, m: real): (r: seq<real>)
    ensures |r| == |s|
    decreases |s|
  {
    if |s| < 6 then s else ScaleRecord(s[..6], m) + ScalePositions(s[6..], m)
  }

  /** Scaling positions distributes over appending `q` whole records. */
  lemma {:induction false} ScalePositionsAppend(s: seq<real>, t: seq<real>, m: real, q: nat)
    requires |s| == 6 * q
    ensures ScalePositions(s + t, m) == ScalePositions(s, m) + ScalePositions(t, m)
  {
    if q > 0 {
      var r := ScaleRecord(s[..6], m);
      assert (s + t)[..6] == s[..6];
      assert (s + t)[6..] == s[6..] + t;
      ScalePositionsAppend(s[6..], t, m, q - 1);
      calc {
        ScalePositions(s + t, m);
        r + ScalePositions(s[6..] + t, m);
        r + (ScalePositions(s[6..], m) + ScalePositions(t, m));
        (r + ScalePositions(s[6..], m)) + ScalePositions(t, m);
        ScalePositions(s, m) + ScalePositions(t, m);
      }
    } else {
      assert s + t == t;
      assert ScalePositions(s, m) == [];
    }
  }

  /** A single record scales by `ScaleRecord`. */
  lemma ScalePositionsSingle(r: seq<real>, m: real)
    requires |r| == 6
    ensures ScalePositions(r, m) == ScaleRecord(r, m)
  {
    assert r[..6] == r;
    assert ScalePositions(r[6..], m) == [];
  }

  /** Record `k` of a scaled stream is record `k` of the stream, scaled. */
  lemma {:induction false} ScalePositionsRecord(s: seq<real>, m: real, k: nat)
    requires 6 * k + 6 <= |s|
    ensures RecordOf(ScalePositions(s, m), k) == ScaleRecord(RecordOf(s, k), m)
  {
    var first, rest := ScaleRecord(s[..6], m), ScalePositions(s[6..], m);
    assert ScalePositions(s, m) == first + rest;
    if k > 0 {
      ScalePositionsRecord(s[6..], m, k - 1);
      assert RecordOf(s[6..], k - 1) == RecordOf(s, k);
      RecordOfSuffix(first, rest, 1, k);
    } else {
      RecordOfPrefix(first, rest, 0);
      assert RecordOf(first, 0) == first;
      assert RecordOf(s, 0) == s[..6];
    }
  }

  /** The record of a corner scaled by `m` is the record of the corner, scaled. */
  lemma ScaledCornerRecord(p: Vec3, color: Color, m: real)
    requires |color| == 3
    ensures Components(ScaleBy(p, m)) + color == ScaleRecord(Components(p) + color, m)
  {
    var r := Components(p) + color;
    assert Vec3(r[0], r[1], r[2]) == p && r[3..] == color;
  }

  /** Scaling the half edge by `m` scales the position of a record by `m` and
      leaves its colour as it was. */
  lemma RecordScales(h: real, h': real, m: real, colors: seq<Color>, f: nat, c: nat)
    requires WellFormedColors(colors) && f < 6 && c < 4 && h' == m * h
    ensures |Record(h, colors, f, c)| == 6
    ensures Record(h', colors, f, c) == ScaleRecord(Record(h, colors, f, c), m)
  {
    var p := Corners(h)[Faces[f][c]];
    assert Corners(h')[Faces[f][c]] == ScaleBy(p, m) by {
      CornersScale(h, h', m);
    }
    assert |colors[f]| == 3;
    ScaledCornerRecord(p, colors[f], m);
  }

  /** The corner records of a face scale record by record. */
  lemma {:induction false} CornerRecordsScale(h: real, h': real, m: real, colors: seq<Color>, f: nat, n: nat)
    requires WellFormedColors(colors) && f < 6 && n <= 4 && h' == m * h
    ensures CornerRecords(h', colors, f, n) == ScalePositions(CornerRecords(h, colors, f, n), m)
  {
    if n > 0 {
      CornerRecordsScale(h, h', m, colors, f, n - 1);
      CornerRecordsLayout(h, colors, f, n - 1);
      RecordScales(h, h', m, colors, f, n - 1);
      ScalePositionsSingle(Record(h, colors, f, n - 1), m);
      ScalePositionsAppend(CornerRecords(h, colors, f, n - 1), Record(h, colors, f, n - 1), m, n - 1);
    }
  }

  /** The records of the first `n` faces scale record by record. */
  lemma {:induction false} FaceRecordsScale(h: real, h': real, m: real, colors: seq<Color>, n: nat)
    requires WellFormedColors(colors) && n <= 6 && h' == m * h
    ensures FaceRecords(h', colors, n) == ScalePositions(FaceRecords(h, colors, n), m)
  {
    if n > 0 {
      FaceRecordsScale(h, h', m, colors, n - 1);
      FaceRecordsLayout(h, colors, n - 1);
      CornerRecordsScale(h, h', m, colors, n - 1, 4);
      ScalePositionsAppend(FaceRecords(h, colors, n - 1), CornerRecords(h, colors, n - 1, 4), m, 4 * (n - 1));
    }
  }

  /** Scaling `size` by `m` scales every position component of the stream by
      `m` and leaves every colour component as it was. */
  lemma ScalingSize(size: real, m: real, colors: seq<Color>)
    requires WellFormedColors(colors)
    ensures CubeStream(m * size, colors) == ScalePositions(CubeStream(size, colors), m)
    ensures |CubeStream(m * size, colors)| == |CubeStream(size, colors)| == 144
    ensures forall k :: 0 <= k < 24 ==>
      RecordOf(CubeStream(m * size, colors), k) == ScaleRecord(RecordOf(CubeStream(size, colors), k), m)
  {
    assert (m * size) / 2.0 == m * (size / 2.0);
    FaceRecordsScale(size / 2.0, (m * size) / 2.0, m, colors, 6);
    CubeStreamLayout(size, colors);
    forall k | 0 <= k < 24
      ensures RecordOf(CubeStream(m * size, colors), k) == ScaleRecord(RecordOf(CubeStream(size, colors), k), m)
    {
      ScalePositionsRecord(CubeStream(size, colors), m, k);
    }
  }

  /** The records of a face depend on the colour list only through that
      face's colour. */
  lemma {:induction false} CornerRecordsSameColor(h: real, colors: seq<Color>, other: seq<Color>, f: nat, n: nat)
    requires f < 6 && f < |colors| && f < |other| && n <= 4 && colors[f] == other[f]
    ensures CornerRecords(h, colors, f, n) == CornerRecords(h, other, f, n)
  {
    if n > 0 {
      CornerRecordsSameColor(h, colors, other, f, n - 1);
    }
  }

  /** Only the first six colours are read; any further ones are ignored. */
  lemma {:induction false} ExtraColorsIgnored(h: real, colors: seq<Color>, n: nat)
    requires |colors| >= 6 && n <= 6
    ensures FaceRecords(h, colors, n) == FaceRecords(h, colors[..6], n)
  {
    if n > 0 {
      ExtraColorsIgnored(h, colors, n - 1);
      CornerRecordsSameColor(h, colors, colors[..6], n - 1, 4);
    }
  }

  /** The demo's call `generateCube(2, C)`: the stream starts with corner 0 of
      the top face, `[-1, 1, -1]`, then `C[0]`; the top face's four records all
      carry `C[0]` and lie on the plane y = 1. */
  lemma UnitCubeTopFace(colors: seq<Color>)
    requires WellFormedColors(colors)
    ensures |CubeStream(2.0, colors)| == 144
    ensures CubeStream(2.0, colors)[..6] == [-1.0, 1.0, -1.0] + colors[0]
    ensures forall k :: 0 <= k < 4 ==>
      RecordOf(CubeStream(2.0, colors), k)[1] == 1.0 && RecordOf(CubeStream(2.0, colors), k)[3..] == colors[0]
  {
    var s := CubeStream(2.0, colors);
    FaceRecordsLayout(1.0, colors, 6);
    assert s[..6] == RecordOf(s, 0);
    forall k | 0 <= k < 4
      ensures RecordOf(s, k)[1] == 1.0
    {
      assert RecordOf(s, k)[1] == Corners(1.0)[Faces[0][k]].y;
    }
  }

  /** The last record of a cube of edge 2: corner 7, the last corner of the
      bottom face, then the bottom colour. */
  lemma UnitCubeEnds(colors: seq<Color>)
    requires WellFormedColors(colors)
    ensures |CubeStream(2.0, colors)| == 144
    ensures CubeStream(2.0, colors)[138..] == [1.0, -1.0, -1.0] + colors[5]
  {
    var s := CubeStream(2.0, colors);
    RecordAt(2.0, colors, 23);
    assert Faces[5][3] == 7;
    assert s[138..] == RecordOf(s, 23);
  }
}
