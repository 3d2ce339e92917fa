# Cube mesh of `generateCube`

A model of the procedural cube in `generateCube/script.js`. It has four parts:

- `generateCube(size, colors)` builds a flat vertex stream. It uses a table of
  eight corners at `±size/2` and a table of six faces, each listing four corner
  numbers. A nested loop visits each face and, within it, each corner. For every
  corner it appends the corner's three coordinates and then the face's colour.
- `boxIndices` is the constant index table. It cuts each face's block of four
  records into two triangles.
- The two `vertexAttribPointer` calls read each 6-float record as a position
  (offset 0) and a colour (offset 3).
- The indexed draw over `boxIndices.length` indices turns the stream and the
  table into 36 vertices, three per triangle.

Modules:

- `CubeGeometry` (`geometry.dfy`): the corner and face tables as data. It proves
  their structure: every coordinate is `±h`, the corners are the eight distinct
  sign combinations, each face lists four distinct corners, each face is planar
  on its named side, each face is a simple quad, and the corners scale with `h`.
- `CubeMesh` (`mesh.dfy`): `generateCube` as a method with two nested loops. The
  loops grow a sequence accumulator, proved against the recursive specification
  `FaceRecords`/`CornerRecords`. The lemmas about that specification cover the
  layout (record `k` is corner `k % 4` of face `k / 4`, then colour `k / 4`),
  the range of values, scaling, extra colours, and the demo call with size 2.
- `IndexTable` (`indices.dfy`): `boxIndices` and its structure. There are 36
  entries, all below 24. Each triangle joins three different records of one
  face. The two triangles of a face cover its four records and share records 0
  and 2. No record is left undrawn.
- `VertexLayout` (`layout.dfy`): the attribute layout, and `drawElements`
  reduced to the vertices it assembles. It proves that the attributes read back
  exactly the records `generateCube` wrote. It also proves the draw reads no
  vertex past the 24, that every drawn vertex lies on its face's plane with its
  face's colour, and that no triangle is degenerate.

A missing colour is an error path, not a precondition. When `colors` has fewer
than six entries, `colors[i]` is `undefined` for the first missing face. The
first corner's position of that face is pushed (line 67), then spreading the
`undefined` colour into `push` throws a `TypeError` (line 68). The array being
built is local to the call and is discarded, so only the error is observable,
and `GenerateCube` returns `ColorNotIterable(i)`. Colours are
sequences copied unchanged into the stream. The model assumes nothing about
their length except where a lemma states it (`WellFormedColors`: six colours of
three components each).

## Model

| member | source | states |
|---|---|---|
| CubeGeometry.CornerCoordinates | generateCube/script.js:33-45 | The corner table has 8 entries, and every coordinate of every corner is `h` or `-h`, where `h = size/2`. |
| CubeGeometry.CornersCoverSignCombinations | generateCube/script.js:34-45 | Every combination of signs for x, y, z is a corner in the table. |
| CubeGeometry.CornersDistinct | generateCube/script.js:34-45 | For a non-zero size the 8 corners are pairwise different. With the two rows above, they are exactly the 8 sign combinations. |
| CubeGeometry.FaceCornersDistinct | generateCube/script.js:47-60 | There are 6 faces, and each lists 4 different corners. The `CornerId` type keeps every entry within [0, 8). |
| CubeGeometry.FacesArePlanar | generateCube/script.js:47-60 | All four corners of each face share the coordinate of the side in its comment: top y = +h, left x = -h, right x = +h, front z = +h, back z = -h, bottom y = -h. |
| CubeGeometry.FacesOnDistinctSides | generateCube/script.js:47-60 | The six faces lie on six different sides. |
| CubeGeometry.FacesAreSimpleQuads | generateCube/script.js:47-60 | For a non-zero size each face walks round a square: consecutive corners differ on one axis, opposite corners on two. |
| CubeGeometry.CornersScale | generateCube/script.js:33-45 | When `h' = k*h`, every corner for half edge `h'` is the corner for `h` scaled by `k`. |
| CubeMesh.GenerateCube | generateCube/script.js:32-73 | The result is a stream exactly when at least 6 colours are given. Otherwise the error names the first face without a colour. The stream equals `CubeStream(size, colors)`. With six 3-component colours it holds 144 numbers, and record `k` is the position of corner `faces[k/4][k%4]` followed by `colors[k/4]`. |
| CubeMesh.CornerRecordsLayout | generateCube/script.js:66-69 | With 3-component colours, the first `n` corners of a face take `6n` floats, and record `c` is corner `c` of the face followed by the face colour. |
| CubeMesh.CubeStreamLayout | generateCube/script.js:62-72 | With six 3-component colours the returned stream holds 144 floats, and record `k` is corner `k % 4` of face `k / 4` followed by that face's colour. |
| CubeMesh.FaceRecordsLayout | generateCube/script.js:62-70 | The loop invariant: after `n` faces the stream holds `24n` floats, and record `k < 4n` is corner `k % 4` of face `k / 4`, then that face's colour. |
| CubeMesh.RecordAt | generateCube/script.js:63-69 | The stream has 144 floats. Record `k` is `vertices[faces[k/4][k%4]]` followed by `colors[k/4]`, position before colour. |
| CubeMesh.StreamValues | generateCube/script.js:33-69 | Every emitted position component is exactly `+size/2` or `-size/2`, and every record's last three floats are its face's colour, unchanged. |
| CubeMesh.RecordScales | generateCube/script.js:33-68 | When the half edge becomes `m*h`, the record of any corner of any face is the old record with its three position floats multiplied by `m` and its colour unchanged (`ScaleRecord`). |
| CubeMesh.CornerRecordsScale | generateCube/script.js:66-69 | The records of the first `n` corners of a face, for half edge `m*h`, are the records for `h` with every position scaled by `m` and every colour kept. |
| CubeMesh.FaceRecordsScale | generateCube/script.js:63-70 | The same holds for the records of the first `n` faces. |
| CubeMesh.ScalingSize | generateCube/script.js:33-68 | The stream for `m*size` is the stream for `size` with every record's three position floats multiplied by `m` and its three colour floats unchanged. Both streams hold 144 floats, and record `k` of the first is `ScaleRecord` of record `k` of the second. |
| CubeMesh.CornerRecordsSameColor | generateCube/script.js:64-68 | A face's records depend on the colour list only through that face's own colour. |
| CubeMesh.ExtraColorsIgnored | generateCube/script.js:63-65 | Only `colors[0..5]` are read. The stream for a longer list equals the stream for its first six entries. |
| CubeMesh.UnitCubeTopFace | generateCube/script.js:112-119 | `generateCube(2, C)` begins with `[-1, 1, -1]` then `C[0]`. Its first four records all carry `C[0]` and have y = 1. |
| CubeMesh.UnitCubeEnds | generateCube/script.js:112-119 | `generateCube(2, C)` holds 144 floats and ends with `[1, -1, -1] + C[5]`: corner 7, the last corner of the bottom face, then the bottom colour. |
| IndexTable.IndicesInRange | generateCube/script.js:121-146 | `boxIndices` has 36 entries, and every entry is below 24, the number of records `generateCube` emits. |
| IndexTable.TrianglesWithinFaces | generateCube/script.js:121-146 | Each of the 12 triangles has three different indices, and all three lie in one face block `4f..4f+3`, with `f = t/2`. |
| IndexTable.FaceTrianglesCoverFace | generateCube/script.js:121-146 | The two triangles of face `f` together use all four records of its block and share exactly records `4f` and `4f+2`. |
| IndexTable.NoOrphanVertices | generateCube/script.js:121-146 | Each of the 24 records is named by some entry of the table. |
| VertexLayout.AttributesReadRecords | generateCube/script.js:157-173 | With stride 6 floats and offsets 0 and 3 floats, vertex `v` is readable exactly when `v < 24`. Its position attribute is then the corner of record `v` and its colour attribute is `colors[v/4]`. |
| VertexLayout.DrawElementsFetches | generateCube/script.js:202 | An indexed draw of `count` indices succeeds exactly when `count` is within the index buffer and every index read names a vertex inside the vertex buffer. It then yields those vertices in index order. |
| VertexLayout.DrawCube | generateCube/script.js:202 | Drawing the stream with all `boxIndices.length` indices reads no vertex past the 24 and yields 36 vertices. Vertex `i` carries colour `colors[i/6]` and lies on the plane of face `i/6`. |
| VertexLayout.CubeVertexAt | generateCube/script.js:157-173 | The vertex fetched for entry `i` of the index table is a record inside the stream. Its position is that record's corner, lying on the plane of face `i/6`, and its colour is `colors[i/6]`. |
| VertexLayout.BlockOfIndex | generateCube/script.js:121-146 | Entry `i` of the index table names a record of face `i/6`. |
| VertexLayout.TrianglesSplitAlongDiagonal | generateCube/script.js:121-146 | For a non-zero size the two triangles of each face share records `4f` and `4f+2`, whose positions are diagonally opposite (they differ on two axes). So the pair tiles the square face. |
| VertexLayout.TrianglesNonDegenerate | generateCube/script.js:121-146 | For a non-zero size the three vertices of every triangle are at three different points. |
| VertexLayout.RecordsOfFaceApart | generateCube/script.js:47-60 | For a non-zero size, two different records of one face are at different corners. |

## Left out

- WebGL plumbing: the canvas and context, shader compilation, buffer upload, attribute binding and uniforms (generateCube/script.js:75-110, 147-156, 175-192). These are calls into the graphics API with no logic of their own.
- Only the layout arguments of `vertexAttribPointer` are modelled (component count, stride, offset). Only the vertex fetch of `drawElements` is modelled. Rasterisation, depth testing and back-face culling are not.
- The render loop: its rotation angle from `performance.now()`, the glMatrix `rotate`/`lookAt`/`perspective` calls, and `requestAnimationFrame` (generateCube/script.js:194-206). glMatrix is not part of this model.
- The `Float32Array` and `Uint16Array` conversions. Positions and colours are `real`, so 32-bit float rounding is not modelled, and indices are naturals. Every index is below 24, well inside the 16-bit range.
- `size` as a JavaScript number: the model takes it as an exact real. A 64-bit float can also be NaN or ±Infinity. Halving a finite float is exact (barring underflow), so the ±size/2 statements hold for finite sizes. For NaN the equalities of `StreamValues` would be false in JavaScript, because NaN is not equal to itself.
- Face winding and orientation: the code states no winding rule. The model proves only the structural facts about the index table: range, same-face, distinct corners, cover, shared diagonal.
- GenerateCube: colour values that are not arrays are not modelled. A string, for instance, would be spread character by character. A colour is any sequence of numbers, copied unchanged.
- GenerateCube: `colors` is a sequence value, so the model cannot express aliasing. That the caller's array is only read, never modified, follows from value semantics rather than being proved about a mutable array.
- `sqr_button.js` and `hex.js` are not part of this model. They draw hard-coded vertex literals, and their click handler uses DOM events and `Math.random`.
