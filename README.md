# 3DViewer core, modelled in Dafny

This project models the computational core of 3DViewer, a desktop viewer for
Wavefront OBJ meshes. It covers four parts, each with proofs of its behaviour.

- **The loader** (`Model`). A load makes two passes over the file:
  - the first pass counts the `"v "` and `"f "` lines;
  - then it allocates a vertex matrix of `count + 1` rows of three columns and
    `count + 1` face slots (row 0 and slot 0 are unused);
  - the second pass fills row k from the k-th vertex line and widens the six
    bounds with `minMax`;
  - it fills face slot k from the k-th face line, which `strtok` cuts at
    spaces: a run of spaces is one separator, and leading or trailing spaces
    give no token. The slot count is the number of tokens minus one. The stored
    indices are the tokens whose `atof` value is not zero once converted to
    `unsigned`, so `"0"` and `"0.5"` are dropped.
  - a stored index is never checked against the vertex count, in the source
    or in the model: an index past `countOfVertexes` is stored as it is.
- **The fit to the viewport** (`setInCenter`). It recentres every vertex on the
  centre of the bounds and scales it by `3 / (largest extent)`.
- **The affine engine** (`Affine`). It provides per-axis moves, per-axis
  rotations and a scaling guarded by `a > 0`, each applied in place to rows
  `1..rows-1`. `affineTransform` chains the seven steps in a fixed order.
- **The camera bookkeeping of the widget** (`Paint`):
  - `qNormalizeAngle` keeps angles, in 1/16 degree, in [0, 5760];
  - `setX/Y/ZRotation` store the normalised angle;
  - the axis switch;
  - the mouse-drag rule and the wheel rule.

Files:

- `obj_format.dfy` (module `ObjFormat`) holds the pure text logic:
  - line tags;
  - `strtok` on `" "` as `NextToken` and `Tokens`;
  - `atof` of a face token, as its leading decimal digits;
  - the face a face line describes (`FaceOf`).
- `geometry.dfy` (module `Geometry`) holds vertices, bounds and the per-vertex
  transforms, as values. A whole-table step is `Transformed`, which leaves
  slot 0 alone. It also holds the lemmas about the fit and the transforms.
- `model.dfy` (module `MeshModel`) holds `class Model`, the model data. Its
  fields are:
  - the counts;
  - the vertex matrix, an `array2<real>`;
  - the face array, an `array<Facets>`;
  - the six bounds, as one `Box`.

  Every method of the loader is proved against functions of the input lines.
- `affine.dfy` (module `AffineEngine`) holds `class Affine` over a `Model`.
  Every step ensures that the table afterwards is `Transformed(old table, step)`.
- `view.dfy` (module `ViewState`) holds the angle normalisation and `class
  Paint`.
- `fixtures.dfy` (module `Fixtures`) holds worked loads:
  - a cube of 8 vertices and 12 faces;
  - the unopenable file;
  - a face line with a zero token.

The model takes these inputs as parameters:

- The file is a `seq<string>` of its lines. A file that cannot be opened is the
  empty sequence.
- `sscanf` of a vertex line is a parameter `scan: string -> Vertex`.
- `cos` and `sin` are parameters: the reals `c, s` for a rotation, and functions
  `real -> real` for `affineTransform`.
- The angles the widget never initialises are constructor parameters.

## Model

| member | source | states |
|---|---|---|
| ObjFormat.TaggedLines | src/Viewer/model.cc:80-81 | the lines selected are each one whose first two characters are the tag and a space, and there are no more of them than lines |
| ObjFormat.TaggedLinesCount | src/Viewer/model.cc:79-82 | the number of tagged lines equals the number of positions in the file whose line carries the tag |
| ObjFormat.KthTaggedLine | src/Viewer/model.cc:107-125 | the k-th tagged line is the line at a position p carrying the tag with exactly k tagged lines before it |
| ObjFormat.NextToken | src/Viewer/model.cc:150-159 | one strtok call returns no token exactly when only delimiters are left; otherwise its token is a non-empty delimiter-free run, followed by nothing or a delimiter |
| ObjFormat.Tokens | src/Viewer/model.cc:154-160 | every token the strtok loop visits is non-empty and has no space in it |
| ObjFormat.NextTokenCuts | src/Viewer/model.cc:150-159 | when strtok returns a token, the text is exactly the leading run of spaces, then the token, then the rest |
| ObjFormat.TokensOfJoin | src/Viewer/model.cc:184-190 | cutting a space-joined list of tokens gives back exactly that list |
| ObjFormat.TokensOfPadded | src/Viewer/model.cc:184-190 | with any number of spaces before, between (at least one) and after the tokens, the strtok loop visits exactly those tokens |
| ObjFormat.FaceLineFirstToken | src/Viewer/model.cc:184-192 | on an "f " line the first token is the marker "f" |
| ObjFormat.LeadingNat | src/Viewer/model.cc:155 | a token not starting with a digit reads as 0 |
| ObjFormat.LeadingNatOfDecimal | src/Viewer/model.cc:155 | a decimal numeral followed by text not starting with a digit (such as "/1/2") reads as that number |
| ObjFormat.DecimalValue | src/Viewer/model.cc:155 | reading the decimal rendering of n gives n |
| ObjFormat.IndexValues | src/Viewer/model.cc:154-158 | the stored values are no more than the tokens and none of them is 0 |
| ObjFormat.FaceOf | src/Viewer/model.cc:179-195 | the indices stored for a face line fit in its slots, and none is 0 |
| ObjFormat.IndexValuesOfGroups | src/Viewer/model.cc:154-158 | tokens that are non-zero numerals with any suffix not starting with a digit store exactly those numbers, in order |
| ObjFormat.FaceOfGroups | src/Viewer/model.cc:145-195 | "f g1 .. gn" with groups such as "7" or "7/1/2" has n slots and stores exactly n1..nn |
| ObjFormat.FaceOfPaddedGroups | src/Viewer/model.cc:145-195 | the same face line with runs of spaces between the groups and trailing spaces (such as "f 1  2 ") still has n slots storing exactly n1..nn |
| Geometry.Widen | src/Viewer/model.h:147-154 | minMax gives a box containing the vertex and the old box, each bound being the old bound or the vertex's coordinate |
| Geometry.WidenAll | src/Viewer/model.cc:109-118 | after the loop the bounds enclose the starting box and contain every vertex |
| Geometry.WidenAllAttains | src/Viewer/model.h:147-154 | every final bound is the starting bound or some vertex's coordinate |
| Geometry.LoadedLowIsMinimum | src/Viewer/model.cc:52-54 | from the DBL_MAX sentinel, a non-empty load with finite coordinates ends with the minimum attained and below every coordinate |
| Geometry.LoadedHighFromPositiveSentinel | src/Viewer/model.cc:55-57 | the maximum is at least DBL_MIN and every coordinate; it is attained once a coordinate reaches DBL_MIN, and stays DBL_MIN when all coordinates are below it |
| Geometry.MoveChangesOneAxis | src/Viewer/affine.cc:7-28 | a move adds the offset on its own axis in every slot from 1 on and leaves the other axes and slot 0 unchanged |
| Geometry.MoveBack | src/Viewer/affine.cc:7-28 | moving by d then by -d on the same axis restores the table |
| Geometry.RotationKeepsLength | src/Viewer/affine.cc:34-73 | with c² + s² = 1 a rotation keeps the coordinate on its axis and the squared length in the two it mixes |
| Geometry.RotateBack | src/Viewer/affine.cc:34-73 | with c² + s² = 1, rotating by (c, s) and then (c, -s) restores the table |
| Geometry.ScaleNotPositiveKeeps | src/Viewer/affine.cc:80-85 | a factor that is not positive leaves the whole table unchanged |
| Geometry.ScaleMultiplies | src/Viewer/affine.cc:80-85 | a positive factor multiplies every coordinate of every slot from 1 on |
| Geometry.ScaleBack | src/Viewer/affine.cc:80-85 | scaling by f > 0 then by 1/f restores the table |
| Geometry.NoVerticesNothingChanges | src/Viewer/affine.cc:7-10 | every sequence of steps leaves a table with at most slot 0 unchanged |
| Geometry.MaxExtentIsLargest | src/Viewer/model.cc:15-17 | the fmax of the three extents is at least each extent and equal to one of them |
| Geometry.FitCoord | src/Viewer/model.cc:15-31 | the fit maps each coordinate to its offset from the middle of the bounds times 3 / (largest extent) |
| Geometry.FitCentres | src/Viewer/model.cc:20-31 | the lowest and highest coordinate on every axis land at opposite points |
| Geometry.FitDominantAxis | src/Viewer/model.cc:15-31 | on an axis of largest extent the lowest and highest coordinate land exactly on -1.5 and 1.5 |
| Geometry.FitInsideViewport | src/Viewer/model.cc:15-31 | a vertex inside the bounds lands inside [-1.5, 1.5] on every axis |
| Geometry.FitSpansViewport | src/Viewer/model.cc:15-31 | on a table inside attained bounds the dominant axis spans exactly [-1.5, 1.5] and every vertex is inside the viewport cube |
| MeshModel.FillIndices | src/Viewer/model.cc:150-160 | the strtok loop leaves the buffer's length unchanged, starting with the line's index list and keeping the rest |
| MeshModel.Model.constructor | src/Viewer/model.h:66-69 | the static instance starts with zero counts, no storage and zero bounds |
| MeshModel.Model.Initialize | src/Viewer/model.cc:45-58 | counts and dimensions are 0, there is no storage, minima are DBL_MAX and maxima DBL_MIN |
| MeshModel.Model.FirstReadParser | src/Viewer/model.cc:75-85 | each count grows by the number of "v " (resp. "f ") lines; nothing else changes |
| MeshModel.Model.CreateMatrixOfVertexes | src/Viewer/model.cc:210-221 | a fresh matrix of countOfVertexes + 1 rows of 3 columns |
| MeshModel.Model.PolygonMemoryAllocation | src/Viewer/model.h:122-124 | a fresh face array of countOfPolygons + 1 slots |
| MeshModel.Model.VertexesForPolygonMemoryAllocation | src/Viewer/model.h:133-137 | face j gets a buffer of exactly its slot count; its slot count and every other face are unchanged |
| MeshModel.Model.MinMax | src/Viewer/model.h:147-154 | the bounds become Widen(old bounds, row i) and nothing else changes |
| MeshModel.Model.CountVertexesForPolygon | src/Viewer/model.cc:179-195 | face j's slot count becomes the token count minus one; its buffer and other faces are unchanged |
| MeshModel.Model.ParserVertexesForPolygon | src/Viewer/model.cc:145-163 | face j's buffer starts with the line's index list and keeps its old contents after it; its slot count and other faces are unchanged |
| MeshModel.Model.SecondReadParser | src/Viewer/model.cc:103-129 | the k-th "v " line fills row k, the k-th "f " line face slot k, the bounds are minMax over the vertices in file order, and row 0, slot 0 and everything past the counts are untouched |
| MeshModel.Model.CoreParser | src/Viewer/model.h:80-86 | the model afterwards Represents the lines: counts, dimensions, rows, faces and sentinel-started bounds are determined by the lines and `scan` |
| MeshModel.Model.SetInCenter | src/Viewer/model.cc:13-33 | rows 1..countOfVertexes become (old - centre) * zoom and every other row is unchanged; the bounds, counts and faces are not modified |
| MeshModel.Model.ReleaseResources | src/Viewer/model.cc:234-252 | counts, rows and columns are 0, there is no storage, and the six bounds stay as they were |
| MeshModel.LoadedCounts | src/Viewer/model.cc:75-85 | after a load the counts equal the numbers of positions holding "v " and "f " lines |
| MeshModel.LoadedRowComesFromLine | src/Viewer/model.cc:107-118 | row k holds the "v " line with exactly k - 1 "v " lines before it |
| MeshModel.LoadedFaceComesFromLine | src/Viewer/model.cc:120-125 | face slot k holds the "f " line with exactly k - 1 "f " lines before it |
| MeshModel.LoadedBounds | src/Viewer/model.h:147-154 | after a non-empty load each minimum is the least coordinate, attained by a row, and each maximum is at least every coordinate and DBL_MIN |
| MeshModel.ReloadAgrees | src/Viewer/model.h:80-86 | two loads of the same lines agree on counts, rows, slot counts, stored indices and bounds |
| AffineEngine.Affine.MovingX | src/Viewer/affine.cc:7-10 | the table afterwards is the old one moved by a on X in every row from 1 on |
| AffineEngine.Affine.MovingY | src/Viewer/affine.cc:16-19 | the same on Y |
| AffineEngine.Affine.MovingZ | src/Viewer/affine.cc:25-28 | the same on Z |
| AffineEngine.Affine.RotationX | src/Viewer/affine.cc:34-43 | the table afterwards is the old one with Y' = cY - sZ, Z' = sY + cZ in every row from 1 on, from the values before the step |
| AffineEngine.Affine.RotationY | src/Viewer/affine.cc:49-58 | X' = cX + sZ, Z' = -sX + cZ likewise |
| AffineEngine.Affine.RotationZ | src/Viewer/affine.cc:64-73 | X' = cX - sY, Y' = sX + cY likewise |
| AffineEngine.Affine.Scaling | src/Viewer/affine.cc:80-85 | for a > 0 every column of every row from 1 on is multiplied by a; otherwise the table is unchanged |
| AffineEngine.Affine.AffineTransform | src/Viewer/affine.h:32-40 | the table afterwards is the seven steps moveX, moveY, moveZ (row 0 of the data), rotateX, rotateY, rotateZ (row 1), scale (entry [2][0]) applied in that order; counts, faces and bounds unchanged |
| AffineEngine.UnusedEntriesIgnored | src/Viewer/affine.h:24-40 | entries [2][1] and [2][2] of the data play no part |
| AffineEngine.NoScalingWhenNotPositive | src/Viewer/affine.h:39 | with [2][0] <= 0 the composite equals the moves and rotations alone |
| AffineEngine.IdentityData | src/Viewer/affine.h:32-40 | zero moves, zero angles (cos 0 = 1, sin 0 = 0) and factor 1 leave the table unchanged |
| ViewState.NormalizedAngle | src/Viewer/view.cc:418-421 | the normalised angle lies in [0, 5760] |
| ViewState.QNormalizeAngle | src/Viewer/view.cc:418-421 | the two while loops compute NormalizedAngle of the input |
| ViewState.NormalizedCongruent | src/Viewer/view.cc:418-421 | the result differs from the input by whole turns of 5760 |
| ViewState.NormalizedFixedPoints | src/Viewer/view.cc:418-421 | an angle is returned unchanged exactly when it is in [0, 5760]; 5760 is kept, not wrapped to 0 |
| ViewState.NormalizedIdempotent | src/Viewer/view.cc:418-421 | normalising twice is normalising once |
| ViewState.ToggleAlternates | src/Viewer/view.cc:238-244 | from {0, -1} a click stays in {0, -1}, flips whether the axes are drawn, and two clicks restore the switch |
| ViewState.WheelZoom | src/Viewer/view.cc:530-540 | a positive delta asks for 1.1f, a negative one for 0.9f, a zero one for no scaling |
| ViewState.Paint.constructor | src/Viewer/view.cc:200-203 | the axis switch starts at 0; the angles start at the given values |
| ViewState.Paint.SetXRotation | src/Viewer/view.cc:431-437 | xRot becomes the normalised angle, and an update happens exactly when that differs from the old xRot |
| ViewState.Paint.SetYRotation | src/Viewer/view.cc:447-453 | the same on yRot |
| ViewState.Paint.SetZRotation | src/Viewer/view.cc:463-469 | the same on zRot |
| ViewState.Paint.OnCheckAxesClicked | src/Viewer/view.cc:238-244 | a non-zero switch is incremented, a zero one decremented |
| ViewState.Paint.MouseMoveEvent | src/Viewer/view.cc:507-520 | the left button turns X by 8·dy and Y by 8·dx; otherwise the right button turns X by 8·dy and Z by 8·dx; with neither no angle changes; the position is remembered |
| ViewState.Paint.ScaleModel | src/Viewer/view.cc:551-554 | the engine scales the model by the factor |
| ViewState.Paint.WheelEvent | src/Viewer/view.cc:530-540 | the model is scaled by 1.1f for a positive delta and 0.9f for a negative one, and left unchanged for zero |
| Fixtures.CubeLoad | src/unit/googletests.cc:17-26 | loading the cube gives 8 vertices and 12 faces, with row k holding the k-th "v " line |
| Fixtures.CubeFirstFaceLoaded | src/Viewer/model.cc:120-125 | face 1 of the cube fixture, "f 2 3 4", loads as three slots holding 2, 3 and 4 |
| Fixtures.ZeroTokenDropped | src/Viewer/model.cc:154-192 | "f 1 0 2" has three slots but stores only 1, 2 |
| Fixtures.UnopenedFileLoadsNothing | src/unit/googletests.cc:73-82 | a file that cannot be opened gives counts 0/0, one unused row and slot, and the sentinel bounds |

## Left out

- File I/O (`ifstream`, `getline`) is not modelled. The file is its sequence of lines, and an unopenable file is the empty sequence.
- `sscanf` decoding of vertex lines is not modelled. It is the parameter `scan`, so a malformed vertex line still fills a row (with whatever `scan` gives) and advances the counter.
- MeshModel.ReloadAgrees: it and the rows and bounds of `Represents` describe the source only when every `"v "` line carries three numbers. `scan` is a function of the line, but in the source `sscanf` on a line such as `"v 1 2"` leaves the third cell as `new double[3]` returned it. That memory may be a previous load's freed row, and `minMax` then folds it into the bounds, so two loads of the same lines can differ there.
- IEEE-754 doubles are modelled as exact reals. This leaves out rounding, NaN in `fmax`/`fmin`, and `cos`/`sin`, which are parameters. The moves, rotations and scalings undo each other only in exact arithmetic.
- `new[]`/`delete[]`, leaks and null pointers are not modelled. The matrix is one `array2<real>` rather than an array of row pointers, so rows cannot alias. Its `Length0`/`Length1` stand for `rows`/`columns`.
- A face's index buffer is a `seq<nat>` value inside the `Facets` datatype. Its initial contents are unspecified, as with `new unsigned[n]`.
- The six bound fields are one `Box`-valued field. They are still updated together by `minMax`, read by `setInCenter` and kept by `releaseResources`.
- The `getInstance` singleton is left out: methods act on an explicit `Model` object, and `Affine` holds a reference to one.
- Unsigned and `int` widths are not modelled. Counts are `nat`, the conversion of `atof` to `unsigned` is the leading decimal digits, and angles and mouse deltas are unbounded `int`s (no overflow of `xRot + 8 * dy`).
- Some face tokens are not modelled: signs (`-`, `+`), exponents, hexadecimal numerals, `inf`/`nan` and leading whitespace other than spaces. For these, `atof` followed by the conversion to `unsigned` is more than the leading decimal digits, and a negative or out-of-range value converts with undefined behaviour. A decimal point is covered: truncation keeps the leading digits, so `"3.7"` stores 3 and `".5"` is dropped.
- MeshModel.Model.SetInCenter: requires a non-zero largest extent, where the source divides by zero. It also requires the matrix to have more than `countOfVertexes` rows (as after a load) or no vertices.
- MeshModel.Model.ParserVertexesForPolygon: requires the buffer to hold at least the number of indices. The second pass guarantees this: the indices number at most the slot count, and the buffer has exactly that many entries. The source writes out of bounds otherwise.
- MeshModel.Model.CountVertexesForPolygon and MeshModel.Model.ParserVertexesForPolygon: require an `"f "` line, which is how the second pass calls them. On a line without tokens the source's `count - 1` would wrap around.
- The mouse position is whole pixels. The source subtracts an integer last position from a floating-point `position()` and truncates to `int`.
- `update()` (the repaint request) is the `redrawn` result of `setX/Y/ZRotation`. Elsewhere the repaint is not modelled.
- The rest of `src/Viewer/view.cc` is not part of this model: Qt window setup, settings persistence, file dialogs, screenshots, GIF capture and OpenGL drawing. It is UI, timers and foreign graphics calls.
- `src/Viewer/view.h` and `src/Viewer/controller.h` hold declarations and one-line forwarding only, so they are not modelled.
- The model files the unit tests load (the cube, Wolf, Spider, Beetle and others) are not modelled as files. The cube fixture's vertex lines carry the coordinates the move tests imply for the cube, in order. Its twelve face lines are one triangulation of that cube, since the tests check only the face count.
