# DXF to image converter: geometry pipeline

This project models the core of `DxfToImageConverter`, a converter that takes a
parsed DXF drawing and produces a 1920 x 1080 bitmap. It models the part of the
converter that decides what gets drawn and where:

- **Flattening** (`GetFinalEntities`). The top-level entity list is walked in order.
  - Every non-insert becomes one `CustomEntity`, tagged with its lower-cased class name (`"dxfcircle"`).
  - An insert is resolved against the block list by name, taking the first match.
  - Each entity of the matched block is emitted, tagged `"insert"` and carrying a copy of the insert's placement data (`InsertFeatures`).
  - An insert that names no block contributes nothing.
  - Only one level is expanded.
- **Bounds** (`CalculateBounds`). Four running extremes start at the single-precision sentinels and absorb each top-level entity's control geometry:
  - circles and arcs: centre ± radius;
  - lines: both endpoints;
  - ellipses: centre ± the raw major-axis components;
  - infinite lines and rays: their anchor point;
  - leaders and multilines: every vertex.
- **Viewport fit** (`ConvertDxfToBitmap`). An empty document is rejected. The box gets a 10% margin on each side. One uniform scale fits it to the canvas, and offsets centre it.
- **Drawing** (`DrawEntities`).
  - The drawing surface is a `Graphics` class with a world transform and a list of recorded draw calls.
  - The viewport transform is installed by three transform calls.
  - Each flattened entity is then drawn by the branch for its kind:
    - arc sweeps are normalised;
    - infinite lines and rays are cut at 1000 units;
    - polylines become segments;
    - ellipses are drawn with half-width `MajorAxis.X²`.
  - For insert-tagged entities the placement matrix is multiplied into the transform, and the saved transform is put straight back. Block members are therefore drawn at their raw block coordinates.

Modules, in dependency order:

- `Common`: Option and Result, `Min` and `Max` on reals, a monotonicity fact of multiplication, and an order-preserving `FlatMap`.
- `Geometry`: points and GDI+ affine matrices.
- `Dxf`: entity kinds, blocks and the document.
- `Flatten`
- `Bounds`
- `Viewport`
- `Render`
- `Converter`

Behaviour of the code the model keeps:

- The margin is 10% of the span on each side, so a span of 100 becomes 120.
- Inserts are expanded one level only. There is no recursion and no cycle check.
- The insert data goes into `NestedInsertFeatures`; `TopInsertFeatures` is never set.
- The placement matrix never affects what is drawn (short of a placement the drawing library refuses, see `Render.Graphics.MultiplyTransform` under "## Left out").
- The drawn ellipse uses the square of the major axis' X component, while the box uses the raw component (see `Render.EllipseDrawnWiderThanBounds`).

## Model

| member | source | states |
|---|---|---|
| Geometry.MultiplyAt | program.cs:89-91 | a prepended transform is applied to a point before the transform already in force |
| Geometry.ViewportAt | program.cs:89-91 | the composed viewport transform maps (x, y) to (offsetX + s·(x − minX), offsetY − s·(y − maxY)) |
| Geometry.ViewportSetup | program.cs:89-91 | translate(offset), scale(s, −s), translate(−minX, −maxY) on a fresh surface compose to exactly that viewport transform |
| Geometry.ViewportAnchorsAndFlips | program.cs:89-91 | the corner (minX, maxY) lands on (offsetX, offsetY); for s > 0 a higher drawing point lands higher on the raster (Y is flipped) |
| Dxf.ToLower | program.cs:450 | lower-casing keeps the length, turns each upper-case ASCII letter into its lower-case letter (code + 32) and changes nothing else |
| Dxf.BuiltInTypeNames | program.cs:450 | every built-in entity kind is tagged "dxf…", so no top-level entity of a built-in kind is tagged "insert" (other kinds keep their class name, which for the parser always starts with "Dxf") |
| Flatten.BlockIndex | program.cs:426 | the lookup finds the first block of the name: the found block matches and every earlier one does not |
| Flatten.GetFinalEntities | program.cs:418-455 | the list-building loop returns exactly the flattening of the document (entity contributions concatenated in order) |
| Flatten.FinalEntitiesSnoc | program.cs:422-452 | each further top-level entity appends its own contribution and nothing else |
| Flatten.FinalEntitiesAppend | program.cs:422-452 | flattening preserves document order: the list for a + b is the list for a followed by the list for b |
| Flatten.FlattenWithoutInserts | program.cs:448-451 | without inserts each entity yields exactly one entry: itself, tagged with its lower-cased type name, without insert data |
| Flatten.UnresolvedInsertSkipped | program.cs:424-427 | an insert naming no block contributes zero entries |
| Flatten.ResolvedInsertExpanded | program.cs:424-446 | a matched insert is replaced in place by the first matching block's entities in block order, each tagged "insert", carrying that insert's features and no top-level features; nested inserts are not expanded |
| Flatten.FlattenProvenance | program.cs:418-455 | every entry is a top-level non-insert with its own tag, or a member of the block of some top-level insert carrying that insert's features |
| Bounds.Widen | program.cs:350-353 | one min/max update encloses the previous box and reaches both given corners |
| Bounds.AbsorbVertices | program.cs:393-412 | the vertex loop encloses the previous box and every vertex |
| Bounds.AbsorbEntity | program.cs:347-412 | each kind's branch encloses the previous box and covers that kind's control geometry |
| Bounds.CalculateBounds | program.cs:338-416 | the loop over running extremes, with inner vertex loops, returns the fold of the per-kind updates from the sentinels |
| Bounds.BoundsCoverAll | program.cs:345-413 | every control point of every entity lies inside the returned box |
| Bounds.BoundsLeast | program.cs:340-413 | the returned box is the least one: any box covering every entity and reaching the sentinels encloses it |
| Bounds.BoundsWithoutContribution | program.cs:340-343 | when no entity contributes (only inserts, text or other kinds) the sentinel box comes back |
| Bounds.BoundsSkipNonContributing | program.cs:345-413 | an entity that contributes nothing (insert, text, other kinds, an empty vertex list) can be removed from anywhere in the list without changing the box |
| Bounds.BoundsOrdered | program.cs:345-413 | with one contributing entity and non-negative radii and axis components, minX ≤ maxX and minY ≤ maxY |
| Viewport.FitViewport | program.cs:313-322 | no fit exactly when a span overflows single precision or the box has no extent on either axis; otherwise the fit's box is the box with its margin |
| Viewport.MarginKeepsCentre | program.cs:313-318 | the margin keeps the centre, stretches each span by 1.2 (a tenth on each side) and encloses an ordered box |
| Viewport.FitFillsCanvas | program.cs:320-322 | with extent on both axes: scale > 0, the scaled box fits on both axes and fills one exactly, offsets ≥ 0 with equal slack on both sides |
| Viewport.ScaleFits | program.cs:320 | the smaller of the two ratios is positive, fits both sides and fills one of them |
| Viewport.FitWithoutWidth | program.cs:320-322 | a box without width is scaled to the full height and centred horizontally |
| Viewport.WidenedBoxOnCanvas | program.cs:313-322 | for a box with extent on both axes, every point of the widened box lands on the 1920 x 1080 canvas under the installed transform |
| Viewport.FitOnCanvas | program.cs:321-322 | a fit with equal slack on both sides maps every point of its box onto the canvas |
| Viewport.FitExample | program.cs:313-322 | a 100 x 50 box at the origin becomes (−10, −5)–(110, 55) with scale 16 and offsets (0, 60) |
| Render.Graphics.FromImage | program.cs:324 | a fresh surface has the identity transform and nothing drawn |
| Render.Graphics.Clear | program.cs:86 | clearing leaves only the white background |
| Render.Graphics.TranslateTransform | program.cs:89 | the translation is prepended to the transform |
| Render.Graphics.ScaleTransform | program.cs:90 | the scaling is prepended to the transform |
| Render.Graphics.MultiplyTransform | program.cs:114 | the matrix is prepended to the transform |
| Render.Graphics.SetTransform | program.cs:115 | the transform is replaced |
| Render.Graphics.Line | program.cs:131 | one line call is recorded under the current transform |
| Render.Graphics.Ellipse | program.cs:121-125 | one ellipse call is recorded under the current transform |
| Render.Graphics.Arc | program.cs:143-149 | one arc call is recorded under the current transform |
| Render.Graphics.String | program.cs:163 | one text call is recorded under the current transform |
| Render.SweepAngle | program.cs:140-149 | the sweep is end − start + 360 when end < start and end − start otherwise; it is non-negative exactly when end ≥ start − 360; angles in [0, 360) give a sweep in [0, 360) |
| Render.SweepAcrossZero | program.cs:232-241 | an arc from 350 to 10 degrees sweeps 20 |
| Render.FarPointDistance | program.cs:165-178 | infinite lines and rays end at anchor + 1000 · direction, 1000 times the direction's length away |
| Render.Segments | program.cs:179-190 | n > 1 vertices give n − 1 segments, segment i joining vertex i to vertex i + 1; fewer vertices give none |
| Render.EntityOps | program.cs:209-294 | one call for each simple kind, n − 1 segments for n > 1 vertices (none otherwise), nothing for inserts and other kinds |
| Render.EntityOpsUnder | program.cs:117-202 | every call drawing an entity carries the transform in force and has the kind's call type: ellipses for circles and ellipses, an arc for arcs, text for multiline text, lines for the rest |
| Render.PlaceAt | program.cs:101-110 | one translate-rotate-scale step scales a point, rotates it, moves it to the insert's location, then applies the matrix built so far |
| Render.InstanceMatrixAt | program.cs:97-111 | the matrix built for a block member maps a block point to the insert's frame: scaled, rotated, moved to the location |
| Render.DrawPolyline | program.cs:271-282 | the vertex loop records exactly the segments of the vertex list |
| Render.DrawGeometry | program.cs:207-294 | each kind's branch records exactly that kind's calls; inserts and other kinds record nothing |
| Render.DrawCustomEntity | program.cs:95-115 | an insert-tagged entity leaves the transform as it was and is drawn exactly as a top-level entity |
| Render.DrawCustomEntities | program.cs:93-297 | the loop over the flattened list keeps the transform and records each entity's calls in list order |
| Render.DrawEntities | program.cs:82-298 | the surface ends with the three viewport transforms prepended, and records the white background followed by the flattened entities' calls, in order |
| Render.InstancesDrawnInPlace | program.cs:113-115 | a block's expanded members draw exactly the calls of its raw entities, whatever the insert's features |
| Render.InsertPlacementIgnored | program.cs:95-115 | two inserts of the same block draw the same calls, whatever their location, scales and rotation |
| Render.RenderOpsUnder | program.cs:93-297 | every call drawn for the flattened list carries the viewport transform |
| Render.EllipseDrawnWiderThanBounds | program.cs:243-249 | an ellipse whose major-axis X exceeds 1 is drawn wider than the box reserves for it (half-width X² against X) |
| Converter.Conversion | program.cs:307-310 | the conversion fails for lack of drawable entities exactly when the document has no top-level entities |
| Converter.ConvertDxfToBitmap | program.cs:300-336 | empty check, bounds, fit and drawing together yield the conversion of the document |
| Converter.NothingToMeasureFails | program.cs:312-322 | a non-empty document none of whose top-level entities contributes a point is never drawn: the sentinel span overflows |
| Converter.ConversionUnderOneTransform | program.cs:86-93 | a converted drawing is the white background and then calls that all carry the fitted viewport transform |
| Converter.ConversionInDocumentOrder | program.cs:93 | later top-level entities are drawn after earlier ones |
| Converter.ConversionIgnoresInsertPlacement | program.cs:300-336 | two inserts of the same block give the same conversion, whatever their location, scales and rotation |

## Left out

- Rasterisation is not modelled. The drawing surface records draw calls with their transform, not pixels. Pens, brushes, clipping (program.cs:87), antialiasing (program.cs:326) and font layout are left out.
- DXF parsing (`DxfFile.Load`) is not part of this model. The parsed entity list and block list are the inputs. Every point keeps only its X and Y.
- Bitmap allocation and the null-bitmap check (program.cs:84, 302) are not modelled. JPEG/BMP encoding and codec lookup are not modelled either: they are output I/O.
- The WinForms UI and entry point are not part of this model. This covers `CustomEntity.HandleFeatures` and its message boxes, and `CustomEntity.GetEntity`, which is a plain accessor.
- The `Guid` unique ids are not modelled: they are random, and no logic reads them.
- Coordinates and angles are reals. Single-precision rounding and the `(float)` casts are not modelled. Lower-casing maps ASCII capitals only, as an invariant culture would. The code lower-cases under the current culture, so under a Turkish culture `I` becomes a dotless `ı`. No built-in class name that reaches the lower-casing contains `I`, so only the tags of other kinds (such as `DxfImage`) could differ.
- Viewport.FitViewport: the non-finite arithmetic is represented by an error result, `NonFiniteViewport`. Single precision yields infinite or NaN scales and offsets instead. Overflow is detected on the spans only, not after the margin is added. In the sentinel case (no top-level entity contributes a point) the code does not stop: it clears the surface and calls `ScaleTransform` and `TranslateTransform` with a zero scale and NaN offsets (program.cs:86-91); the error stands for whatever the drawing library then does, not for a check in the code.
- Exception message wrapping (program.cs:330-333) is reduced to the two error values of `Converter.ConversionError`.
- Render.Graphics.MultiplyTransform: a singular or non-finite transform is never rejected, as with every transform call of the recorded surface. The drawing library refuses to install a transform that cannot be inverted, so an insert with a zero X or Y scale factor makes program.cs:114 fail and the whole conversion fail at program.cs:330-333. `Render.InsertPlacementIgnored` and `Converter.ConversionIgnoresInsertPlacement` therefore hold as stated only for inserts whose placement matrix is invertible.
- Render.InstanceMatrix: the rotation is a parameter `rotate` (angle in degrees to matrix), since trigonometry is not modelled. The placement matrix is discarded by the code, so no result depends on it.
- `ZScaleFactor`, the row and column counts and spacings are only copied into `InsertFeatures`; they are never used. The ellipse's minor-axis ratio and start and end parameters are never read.
