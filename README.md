# gl_poly_outline, modelled in Dafny

gl_poly_outline draws many convex polygons with smooth outlines. A batcher
flattens each polygon into parallel vertex-attribute arrays and a triangle
index list. Every polygon gets its body as a triangle fan, a rounded quad at
each corner and an extruded quad along each edge. A small bit-packed
attribute tells the shader which of the four kinds a vertex is, and for a
corner which corner of the unit square it is. Around the batcher sit colour
codecs, a configuration reader and a timer.

This project models those parts of the repository and proves properties
of them:

- **Attributes, CppAttributes** (`attributes.dfy`, `attributes_cpp.dfy`)
  hold the kind constants, the corner tables, `InstanceIndex` and
  `OutlineQuad.apply` of src/utils.js and src/utils.cpp.
- **PolygonShader and Bits** (`shader_bits.dfy`, `bits.dfy`) hold the
  attribute decoders `getBool`, `getInt`, `getUint`, `getUintBits` and
  `getIntBits`, and the kind switch of both shader stages, on an integer
  model of AND, OR, shifts and 32-bit wrap-around.
- **Batcher, BatcherLayout, BatcherRun** (`batcher*.dfy`) model the
  current JavaScript batcher of src/app.js as a class whose `seq` fields are
  the global arrays: `pushIndices`, `addPolygon`, `addCircle`,
  `clearBuffers`, the instance recording of `init` and `update`.
- **CppBatcher, CppBatcherLayout** (`batcher_cpp*.dfy`) model the C++
  batcher of src/main.cpp, which lays out body, edge quads and then corners,
  with 32-bit unsigned index arithmetic.
- **LegacyBatcher** (`legacy_batcher.dfy`) models the first batcher of
  app.js: body fan only, 255-vertex cap, rounded positions and offsets.
- **VertexTexture** (`vertex_texture.dfy`) models the texture addressing,
  the vertex-fetch loop and the edge loop of the fragment shader in
  glsl_main.js.
- **JsColor, RgbaColor** (`js_color.dfy`, `rgba_color.dfy`) model the
  JavaScript `Color` (src/color.js) and the C++ `Color`
  (src/rgba_color.cpp), each with its own hex, 32-bit and registry
  behaviour.
- **TextUtils, Settings, SettingsProps** (`text_utils.dfy`,
  `settings.dfy`, `settings_props.dfy`) model the line helpers of
  src/file_reader/utils.cpp, an `istringstream` with its position and its
  eof and fail bits, and `parse_config` of src/settings.cpp over the
  lines of a file.
- **CppTimer, JsTimer** (`timer_cpp.dfy`, `timer_js.dfy`) model the timer
  classes of src/timer.h and src/timer.js, with the clock reading passed in.

Code that changes state in place is modelled as a class with `modifies`
clauses. Each method's postcondition ties the new state to a specification
function of the old state, and the lemmas are proved about those functions.
Pure code is modelled as functions. Floats are exact reals. A JavaScript
number is a real or NaN. Fixed-width integers wrap explicitly, through `Bits`.

Two behaviours of the batcher in src/app.js look unintended; the model
follows the code:

- The instance ranges count coordinate entries, not vertices.
- Two circles get the index offsets 0 and 8, not 0 and 4.

Both are also listed under Findings with a corrected version.

## Model

| member | source | states |
|---|---|---|
| Common.Round | app.js:89 | `Math.round` gives the integer r with r <= x + 0.5 < r + 1, halves rounded up |
| Common.Trunc | src/color.js:41-44 | the integer part kept by the 32-bit conversion lies within one of x, on the side of zero |
| Common.Repeat | src/app.js:148-155 | n copies of a value: n entries, each that value |
| Common.PadLayout | src/app.js:148-155 | pushing x k times keeps the old entries and appends k entries equal to x |
| Bits.U32 | src/main.cpp:117-121 | a `uint32_t` keeps a value below 2^32 |
| Bits.Int32 | src/timer.h:46 | narrowing to `int` gives a value in the signed 32-bit range that differs from the argument by a multiple of 2^32 |
| Bits.AndLowMask | src/shaders/polygonShader.js:48 | AND with k low one-bits keeps the value modulo 2^k |
| Bits.AndSingleBit | src/shaders/polygonShader.js:35 | AND with 2^k is non-zero exactly when bit k is set |
| Bits.OrDisjoint | src/rgba_color.cpp:106 | OR of two values without common bits is their sum |
| Attributes.KindsAreTheTwoBitValues | src/utils.js:3-6 | the four vertex kinds are distinct and are exactly the values 0 to 3 of a two-bit field |
| Attributes.CornerTableAgreesWithCoords | src/utils.js:8-20 | the four corner encodings are distinct, use only bits 2-3, and bit 2 (bit 3) is set exactly when that corner's x (y) is +1 |
| Attributes.CornerAttr | src/app.js:170 | a corner's attribute `cornerCoordAttrs[j]` OR `OUTLINE_CORNER` carries the corner kind in bits 0-1 and the corner encoding above them |
| Attributes.OutlineQuad.Apply | src/utils.js:36-56 | `apply` appends the corners v, nv, nv, v and the directions dir+π, dir+π, dir, dir, and nothing else |
| CppAttributes.KindsAgreeWithJs | src/utils.cpp:3-5 | the three C++ kinds are distinct bytes equal to the first three JavaScript kinds; the circle kind has no C++ counterpart |
| CppAttributes.TablesAgreeWithJs | src/utils.cpp:7-18 | both C++ corner tables equal the JavaScript tables element by element |
| CppAttributes.MakeInstanceIndex | src/utils.cpp:22-25 | the `uint32_t` constructor keeps each argument modulo 2^32, so arguments already in range are kept unchanged |
| CppAttributes.DefaultOutlineQuad | src/utils.cpp:27-31 | the default quad has both vertices at the origin and direction 0 |
| CppAttributes.OutlineQuad.Apply | src/utils.cpp:39-59 | `apply` pushes v, nv, nv, v onto `vertices` and dir+π twice then dir twice onto `outline_directions`, and touches nothing else |
| PolygonShader.ShiftedOne | src/shaders/polygonShader.js:35 | `1u << uint(k)` for k below 32 is 2^k |
| PolygonShader.GetBool | src/shaders/polygonShader.js:34-36 | `getBool` is true exactly when bit `bit` of the value is set |
| PolygonShader.GetInt | src/shaders/polygonShader.js:38-40 | `getInt` is that bit as 0 or 1 |
| PolygonShader.GetUint | src/shaders/polygonShader.js:42-44 | `getUint` is that bit as an unsigned 0 or 1 |
| PolygonShader.GetUintBits | src/shaders/polygonShader.js:46-49 | `getUintBits` is the field from bit `start` to bit `end`, both inclusive, shifted down to bit 0, and is below 2^(end-start+1) |
| PolygonShader.MaskField | src/shaders/polygonShader.js:48 | the mask `(1u << width) - 1u` keeps exactly the low `width` bits |
| PolygonShader.GetIntBits | src/shaders/polygonShader.js:51-53 | the signed conversion of a field narrower than 32 bits leaves it unchanged |
| PolygonShader.StageConstantsMatchHost | src/shaders/polygonShader.js:21-24 | both stages declare the host's four kind values in the host's order (the fragment stage at lines 141-144) |
| PolygonShader.VertexBranch | src/shaders/polygonShader.js:76-118 | the vertex stage's switch never reaches `default`: kinds 0, 1, 2, 3 select the body, corner, quad and circle cases |
| PolygonShader.FragmentBranch | src/shaders/polygonShader.js:177-200 | the fragment stage's switch on the same field never reaches `default` |
| PolygonShader.StagesAgree | src/shaders/polygonShader.js:76-118 | both stages take the same case for every attribute, and each host kind selects its own case |
| PolygonShader.CornerOffset | src/shaders/polygonShader.js:84-86 | the corner offset `2 * vec2(x, y) - 1` has each coordinate equal to +1 or -1 |
| PolygonShader.CornerRoundTrip | src/shaders/polygonShader.js:82-93 | decoding the attribute the batcher writes for corner j (src/app.js:170) selects the corner case and gives exactly `cornerCoords[j]` |
| Batcher.Shifted | src/app.js:123-128 | `pushIndices` appends each new index plus the offset, in order, one per input index |
| Batcher.Batcher.constructor | src/app.js:212-223 | the batcher starts with every buffer and the instance list empty, and the global outline colour is colour "#484848" |
| Batcher.Batcher.PushIndices | src/app.js:123-128 | the index list grows by exactly `Shifted(newIndices, offset)` and nothing else changes |
| Batcher.Batcher.AddPolygon | src/app.js:130-190 | each of the eight buffers is the old buffer followed by the polygon's segment (fan indices from `p_coords.length / 2`, body, corners, edge quads); the segments are described by the layout lemmas; buffers that were in lockstep stay so, 9N vertices more each |
| Batcher.Batcher.PushFan | src/app.js:135-138 | the fan loop appends the triangles (idx, idx+i+1, idx+i+2) for i below N - 2, and none when N < 2 |
| Batcher.Batcher.PushBody | src/app.js:140-156 | one body vertex per polygon vertex with the polygon's rotation, size, offset, colour and kind POLYGON_BODY, and the returned quads are the polygon's edges in order |
| Batcher.Batcher.PushBodyVertex | src/app.js:148-155 | one iteration of the body loop appends exactly one entry to each per-vertex buffer |
| Batcher.Batcher.PushCorners | src/app.js:158-173 | per vertex, a quad's indices at the current vertex count, then four copies of the vertex with corner attributes 0 to 3 and the outline colour |
| Batcher.Batcher.PushCorner | src/app.js:162-172 | one rounded corner: four copies of the vertex with `cornerCoordAttrs[j]` OR `OUTLINE_CORNER` for j = 0 to 3 |
| Batcher.Batcher.PushQuads | src/app.js:175-189 | per edge quad, its indices at the current vertex count, `apply`'s corners and directions, and four vertices of kind OUTLINE_QUAD in the outline colour |
| Batcher.Batcher.PushQuad | src/app.js:176-188 | one edge quad appends its two triangles, its four corners and directions, and four entries to each other buffer |
| Batcher.Batcher.PushQuadRest | src/app.js:181-188 | the inner loop appends four rotations, sizes, offsets, OUTLINE_QUAD attributes and outline colours |
| Batcher.Batcher.AddCircle | src/app.js:192-210 | as written: four unit-square corners, rotation 0, kind POLYGON_CIRCLE, with the quad's indices offset by the coordinate count `p_coords.length` |
| Batcher.Batcher.AddCircleCorrected | src/app.js:197 | with the offset `p_coords.length / 2`, every index stays on an existing vertex |
| Batcher.Batcher.PushCircle | src/app.js:198-209 | the circle's quad indices from the given offset, then the four corner vertices |
| Batcher.Batcher.ClearBuffers | src/app.js:212-223 | the eight vertex and index buffers become empty; the instance list is kept |
| Batcher.Batcher.Update | src/app.js:321-326 | the rotations after `update()` are those of the instance-by-instance sweep `BumpAll`, including writes past the end |
| Batcher.BumpAt | src/app.js:324 | `p_rotations[k] += 0.01` bumps an existing entry, and a write past the end grows the array to k + 1 entries, the new ones NaN |
| Batcher.Batcher.InitShapes | src/app.js:353-373 | as written: one instance per shape, each starting at `p_coords.length` and counting the 2 × (vertices added) coordinates; the ranges tile the coordinate array and the buffers stay in lockstep |
| Batcher.Batcher.AddShape | src/app.js:354-372 | one iteration records the instance (old `p_coords.length`, coordinates added) and adds the polygon or the circle |
| Batcher.Batcher.InitShapesByVertex | src/app.js:353-373 | with ranges counted in vertices, the ranges tile the rotation array exactly |
| Batcher.Batcher.AddShapeByVertex | src/app.js:355-372 | one corrected iteration records the instance (old vertex count, vertices added) |
| Batcher.PolygonIndicesInRange | src/app.js:130-190 | every index `addPolygon` appends lies between the polygon's first vertex and the 9N vertices it adds, and earlier indices are kept |
| Batcher.FanRange | src/app.js:136-138 | the fan's indices lie in base .. base + i + 1 |
| Batcher.QuadRunRange | src/app.js:159-160 | a run of i quads from `base` has every index in base .. base + 4i - 1 |
| Batcher.TilesSnoc | src/app.js:355-372 | a range that starts where the last one ended extends the tiling |
| Batcher.PolygonCoords | src/app.js:130-190 | the coordinates `addPolygon` appends: N body vertices, four copies of each vertex, and four corners per edge quad, laid out as `BatcherLayout.PolygonCoordsLayout` states |
| Batcher.PolygonDirections | src/app.js:130-190 | the outline directions `addPolygon` appends: 0 on the 5N body and corner vertices and each edge's direction, turned by π on its first two corners, as `BatcherLayout.PolygonDirectionsLayout` states |
| Batcher.PolygonAttrs | src/app.js:130-190 | the attributes `addPolygon` appends: POLYGON_BODY, the corner attributes, then OUTLINE_QUAD, as `BatcherLayout.PolygonAttrsLayout` states |
| Batcher.PolygonColors | src/app.js:130-190 | the colours `addPolygon` appends: the fill colour on the N body vertices and the outline colour on the 8N others, as `BatcherLayout.PolygonColorsLayout` states |
| Batcher.PolygonIndices | src/app.js:130-190 | the indices `addPolygon` appends: the fan, then two triangles per corner and edge quad, all within the polygon's own 9N vertices (`BatcherLayout.PolygonIndicesLayout`, `Batcher.PolygonIndicesInRange`) |
| Batcher.Batcher.AddOneShape | src/app.js:354-372 | the body of one `init` iteration adds a polygon, or a circle when shapes render as circles, adding 2 coordinates per vertex of the shape and keeping the buffers in lockstep |
| BatcherLayout.PolygonCoordsLayout | src/app.js:130-190 | the polygon's coordinates are its N vertices, then each vertex four times, then each edge's corners v, nv, nv, v; 18N entries after the kept prefix |
| BatcherLayout.PolygonAttrsLayout | src/app.js:130-190 | the attributes are POLYGON_BODY N times, the corner attributes 0 to 3 for each corner, then OUTLINE_QUAD 4N times |
| BatcherLayout.PolygonColorsLayout | src/app.js:130-190 | the body vertices carry the polygon's colour and the 8N outline vertices the outline colour |
| BatcherLayout.PolygonDirectionsLayout | src/app.js:130-190 | the outline directions are 0 on body and corner vertices; on edge k's quad they are dir+π on the two inner corners and dir on the two outer ones |
| BatcherLayout.PolygonIndicesLayout | src/app.js:130-190 | the indices are the fan triangles (b, b+t+1, b+t+2), then two triangles over each of the 2N following quads, quad r over vertices b+N+4r to b+N+4r+3 |
| BatcherLayout.QuadsAreEdges | src/app.js:141-146 | the quad remembered for edge k runs from vertex k to vertex k+1, the last wrapping to vertex 0 |
| BatcherLayout.CircleCoordsLayout | src/app.js:200-201 | circle vertex j sits at unit-square corner j |
| BatcherLayout.BodyLayout | src/app.js:148 | body vertex v holds `vertices[v]` |
| BatcherLayout.CornersLayout | src/app.js:162-164 | corner vertex v holds `vertices[v / 4]` |
| BatcherLayout.QuadCoordsLayout | src/utils.js:45-48 | quad vertex v holds corner v mod 4 of quad v / 4 |
| BatcherLayout.CornerAttrsLayout | src/app.js:163-170 | corner vertex m carries the attribute of corner m mod 4 |
| BatcherLayout.QuadDirectionsLayout | src/utils.js:50-55 | quad vertex m carries direction m mod 4 of quad m / 4 |
| BatcherLayout.FanTriangle | src/app.js:136-138 | fan triangle t is (base, base+t+1, base+t+2) |
| BatcherLayout.QuadRunQuad | src/app.js:160 | quad q of a run is the two triangles over base+4q to base+4q+3 |
| BatcherLayout.QuadRunConcat | src/app.js:158-189 | a run of corner quads followed by a run of edge quads starting where it ends is one run |
| BatcherRun.BumpedEntries | src/app.js:322-326 | entry by entry, a sweep over lo .. hi bumps existing entries once, keeps the others, and pads with NaN up to `hi` |
| BatcherRun.TiledUpdate | src/app.js:321-326 | over ranges that tile lo .. hi, `update()` is one sweep over lo .. hi |
| BatcherRun.UpdateByVertex | src/app.js:321-326 | ranges counted in vertices bump every rotation exactly once and keep the array's length |
| BatcherRun.UpdateByCoordinate | src/app.js:321-326 | ranges counted in coordinates bump every rotation once and double the array, the second half NaN |
| BatcherRun.InitThenUpdate | src/app.js:353-373 | as written, the first frame after `init()` doubles `p_rotations`, the added entries NaN |
| BatcherRun.InitThenUpdateByVertex | src/app.js:353-373 | with ranges in vertices, the first frame bumps every rotation once and adds none |
| BatcherRun.TwoCircles | src/app.js:192-210 | as written, two circles give the indices 0..3 and 8..11 over 8 vertices, so some index names no vertex |
| BatcherRun.TwoCirclesCorrected | src/app.js:197 | with the corrected offset the quads are 0..3 and 4..7 and every index names one of the 8 vertices |
| CppBatcher.OutlineQuad.Apply | src/main.cpp:99-111 | `apply` pushes the four corners of the transformed edge moved back and forth along the normal, in order, and nothing else |
| CppBatcher.CornersStraddleEdge | src/main.cpp:100-105 | the quad is the transformed edge thickened by `outlineSize` on each side: corners 0 and 3 straddle the transformed v, corners 1 and 2 the transformed nv, each rung 2 × `outlineSize` along the normal |
| CppBatcher.DefaultOutlineQuad | src/main.cpp:88-92 | the default quad has every field at the zero vector |
| CppBatcher.Shifted | src/main.cpp:117-121 | `pushIndices` appends each `newIndices[i] + offset` reduced modulo 2^32, in order |
| CppBatcher.FanCountWraps | src/main.cpp:166 | the unsigned bound `vertexCount - 2` gives N - 2 fan triangles, and 2^32 - 2 + N when N < 2 |
| CppBatcher.PolygonCoords | src/main.cpp:159-206 | the positions `addPolygon` appends: the N transformed vertices, four corners per edge quad, then four copies of each transformed vertex (`CppBatcherLayout.PolygonCoordsLayout`, `CppBatcher.PolygonLengths`) |
| CppBatcher.PolygonAttrs | src/main.cpp:159-206 | the attribute bytes `addPolygon` appends: 0x00 on body and quad vertices, then the four corner bytes per vertex (`CppBatcherLayout.PolygonAttrsLayout`) |
| CppBatcher.PolygonColors | src/main.cpp:159-206 | the colours `addPolygon` appends: the fill colour on N vertices and the outline colour on 8N (`CppBatcherLayout.PolygonColorsLayout`) |
| CppBatcher.PolygonIndices | src/main.cpp:159-206 | the indices `addPolygon` appends, in 32-bit arithmetic: the fan, then two triangles per edge quad and per outline corner; for N >= 2 without overflow all lie among the polygon's 9N vertices (`CppBatcherLayout.PolygonIndicesInRange`, `CppBatcher.PolygonLengths`) |
| CppBatcher.PolygonLengths | src/main.cpp:159-206 | a polygon of N vertices adds 9N entries to each per-vertex vector and 3 per fan triangle plus 12N indices |
| CppBatcher.Batcher.constructor | src/main.cpp:208-215 | the batcher starts with its four vectors empty |
| CppBatcher.Batcher.PushIndices | src/main.cpp:117-121 | the index list grows by exactly `Shifted(newIndices, offset)` |
| CppBatcher.Batcher.AddPolygonVertex | src/main.cpp:123-127 | one vertex with attribute 0x00 and the given colour |
| CppBatcher.Batcher.AddOutlineVertices | src/main.cpp:129-157 | a quad's indices from the current vertex count, then four vertices at the position with the corner bytes 0x01, 0x05, 0x07, 0x03 and the outline colour |
| CppBatcher.Batcher.AddPolygon | src/main.cpp:159-206 | each vector is the old one followed by the polygon's segment: fan indices, transformed body vertices, edge quads, then outline corners; when attributes and colours kept pace with the positions before the call, they still do |
| CppBatcher.Batcher.PushOutline | src/main.cpp:190-205 | the edge quads and then the outline corners of a polygon whose body starts at `base` |
| CppBatcher.Batcher.PushFan | src/main.cpp:165-168 | the fan loop appends, in 32-bit arithmetic, the triangles for every i below the unsigned `vertexCount - 2` |
| CppBatcher.Batcher.PushBody | src/main.cpp:171-188 | one transformed body vertex per polygon vertex, with the edge quads and transformed positions remembered in order |
| CppBatcher.Batcher.PushQuads | src/main.cpp:191-200 | per edge quad, its indices from the current vertex count, its four corners, and four plain vertices in the outline colour |
| CppBatcher.Batcher.PushQuad | src/main.cpp:192-197 | one edge quad appends its two triangles, its corners, four attributes 0x00 and four outline colours |
| CppBatcher.Batcher.PushCorners | src/main.cpp:203-205 | `addOutlineVertices` for every transformed position in turn |
| CppBatcher.Batcher.ClearBuffers | src/main.cpp:208-215 | the four vectors become empty |
| CppBatcherLayout.CornerPositionsDistinct | src/main.cpp:141-146 | the four corner bytes are distinct, below 8, and each has bit 0 set |
| CppBatcherLayout.PolygonCoordsLayout | src/main.cpp:159-206 | the coordinates are the N transformed vertices, then edge k's four quad corners, then each transformed vertex four times |
| CppBatcherLayout.PolygonAttrsLayout | src/main.cpp:159-206 | the attributes are 0x00 on the 5N body and quad vertices, then the corner bytes in groups of four |
| CppBatcherLayout.PolygonColorsLayout | src/main.cpp:159-206 | the N body vertices carry the polygon's colour and the 8N outline vertices the outline colour |
| CppBatcherLayout.PolygonIndicesInRange | src/main.cpp:159-206 | for N >= 2 and no 32-bit overflow, every new index lies among the polygon's own 9N vertices and earlier indices are kept |
| CppBatcherLayout.LayoutDiffersFromJs | src/main.cpp:159-206 | the vertex after the body is a plain quad vertex in C++ but a corner vertex in src/app.js: the two layouts order the outline differently |
| CppBatcherLayout.TransformedLayout | src/main.cpp:177-186 | transformed position k is `vertices[k] * size + offset` |
| CppBatcherLayout.QuadsLayout | src/main.cpp:175-182 | quad k runs from vertex k to vertex k+1, wrapping to 0, with the left normal of the edge |
| CppBatcherLayout.QuadCoordsLayout | src/main.cpp:191-193 | quad vertex m holds corner m mod 4 of quad m / 4 |
| CppBatcherLayout.CornerCoordsLayout | src/main.cpp:203-205 | corner vertex m holds transformed position m / 4 |
| CppBatcherLayout.PositionsLayout | src/main.cpp:151-153 | corner vertex m carries corner byte m mod 4 |
| CppBatcherLayout.FanRange | src/main.cpp:166-168 | without overflow the fan's indices lie in base .. base + i + 1 |
| CppBatcherLayout.QuadRunRange | src/main.cpp:192 | without overflow a run of i quads from `base` stays in base .. base + 4i - 1 |
| LegacyBatcher.VertexCount | app.js:101 | a polygon uses min(n, 255) vertices: never more than it has, never more than 255, and exactly one of the two |
| LegacyBatcher.Shifted | app.js:93-98 | `pushIndices` appends one index per input index, each the input index plus the offset |
| LegacyBatcher.ShiftedFan | app.js:106-109 | shifting the pattern [0, i+1, i+2] by the polygon's first vertex gives fan triangle i from that vertex |
| LegacyBatcher.AppendFan | app.js:107-109 | the fan loop run i times adds three indices per triangle |
| LegacyBatcher.AppendPositions | app.js:111-120 | the position loop over i vertices adds two coordinates per vertex |
| LegacyBatcher.PadTwo | app.js:119 | pushing the rounded offset once per vertex adds two entries per vertex |
| LegacyBatcher.LegacyBatcher.constructor | app.js:51-72 | the buffers start empty and `ov_positions` holds the two triangles over the square from -1 to 1 |
| LegacyBatcher.LegacyBatcher.AddSingleData | app.js:88-91 | one vertex appends its rounded x and y and its colour's four channels, keeping coordinates and colours in lockstep |
| LegacyBatcher.LegacyBatcher.PushIndices | app.js:93-98 | the index list grows by exactly `Shifted(newIndices, offset)` |
| LegacyBatcher.LegacyBatcher.AddPolygon | app.js:100-121 | the fan over the first min(n, 255) vertices from vertex `p_coords.length / 2`, then those vertices' placed and rounded positions, the colour once per vertex, and the rounded offset once per vertex; coordinates and colours stay in lockstep when they were |
| LegacyBatcher.LegacyBatcher.ClearBuffers | app.js:123-130 | all five arrays are empty afterwards, `ov_positions` included |
| LegacyBatcher.PolygonLengths | app.js:100-121 | a polygon adds two coordinates, four channels and two offsets per used vertex and three indices per triangle, so colours stay twice as long as coordinates |
| LegacyBatcher.PositionsLayout | app.js:111-120 | the earlier coordinates are kept, and entries 2k and 2k+1 of the new ones are vertex k's rounded, scaled and offset x and y |
| LegacyBatcher.OffsetsLayout | app.js:119 | the earlier offsets are kept and every new pair is the polygon's own rounded offset |
| LegacyBatcher.Placed | app.js:111-113 | a vertex scaled by the polygon's size and moved by its offset; `LegacyBatcher.PositionsLayout` states what the loop stores from it |
| LegacyBatcher.Rounded | app.js:88-89 | the pair `Math.round(pos.x), Math.round(pos.y)` that `addSingleData` pushes, read back entry by entry in `LegacyBatcher.PositionsLayout` |
| LegacyBatcher.PositionsIgnoreTail | app.js:101-113 | the positions of the first i <= 255 vertices do not depend on the vertices after the 255th |
| LegacyBatcher.CapIgnoresTail | app.js:101 | a polygon with more than 255 vertices adds exactly what its first 255 alone would |
| LegacyBatcher.FanRange | app.js:106-109 | the earlier indices are kept and every fan index after i triangles lies between the first vertex and i + 1 past it |
| LegacyBatcher.FanInRange | app.js:100-109 | a polygon's fan names only its own used vertices and has c - 2 triangles for c >= 2 used vertices |
| VertexTexture.CellOfIndex | glsl_main.js:70-75 | for a texture w texels wide, vertex `index` sits in column index mod w of row index div w, and the column and row give the index back |
| VertexTexture.GetTexCoord | glsl_main.js:65-75 | the normalised texel centre for vertex `index`: distinct indices get distinct coordinates and every index inside the texture lands in the unit square (`VertexTexture.TexCoordInjective`, `VertexTexture.TexCoordInUnitSquare`, `VertexTexture.CellOfIndex`) |
| VertexTexture.VertexNumber | glsl_main.js:118-119 | the `uint` sum `o_polygon_start_index + i`, pairwise distinct over a polygon's 255 slots (`VertexTexture.VertexNumbersDistinct`) |
| VertexTexture.Fetched | glsl_main.js:118-119 | the vertex read into slot i, taken from a texel no other slot reads (`VertexTexture.PolygonTexelsDistinct`, `VertexTexture.FetchVertices`) |
| VertexTexture.CellInjective | glsl_main.js:70-75 | two vertex numbers share a texel exactly when they are equal |
| VertexTexture.TexCoordInjective | glsl_main.js:65-75 | two vertex numbers get the same normalised texture coordinate exactly when they are equal |
| VertexTexture.TexCoordInUnitSquare | glsl_main.js:65-75 | in a w by h texture every vertex number below w * h maps inside the unit square |
| VertexTexture.VertexNumbersDistinct | glsl_main.js:118-119 | the `uint` sums `o_polygon_start_index + i` are pairwise distinct for i below 255, wrap-around included |
| VertexTexture.PolygonTexelsDistinct | glsl_main.js:118-119 | the 255 slots of a polygon are read from pairwise distinct texture coordinates |
| VertexTexture.FetchVertices | glsl_main.js:118-119 | slot i of `v` below `o_polygon_length` holds the sampled texel of vertex start + i moved by half the window resolution, and the other slots are unchanged |
| VertexTexture.EdgePairs | glsl_main.js:100 | the loop's first i steps visit i pairs |
| VertexTexture.SdPolygonEdges | glsl_main.js:100 | the (i, j) pairs the `sdPolygon` loop visits are exactly `AllEdgePairs(length)` |
| VertexTexture.EdgePairsLayout | glsl_main.js:100 | step m visits the pair (m, vertex before m) |
| VertexTexture.BeforeIsMod | glsl_main.js:100 | the vertex before m is (m + n - 1) mod n, and the vertex before the one after m is m |
| VertexTexture.EachEdgeOnce | glsl_main.js:96-110 | for n vertices the loop visits n pairs (m, m - 1 mod n), each vertex is the second of exactly one pair, and a non-positive length visits none |
| JsColor.ToInt32 | src/color.js:39-44 | the 32-bit conversion the shift operators apply always yields a signed 32-bit integer |
| JsColor.BytesOfPack | src/color.js:170-172 | for byte channels the pattern 0xRRGGBBAA fits 32 bits and its four bytes are the channels again |
| JsColor.SarByte | src/color.js:41-44 | `(x >> s) & 0xFF` for s in 0, 8, 16, 24 is byte s/8 of the 32-bit pattern of x |
| JsColor.FromUint32 | src/color.js:39-44 | a single number gives the four bytes of its 32-bit pattern, most significant first, so every channel is in 0..255 |
| JsColor.ByteLanes | src/color.js:41-44 | the four shift-and-mask expressions read the four bytes of the pattern |
| JsColor.ToUint32 | src/color.js:170-172 | `toUint32` yields a signed 32-bit integer |
| JsColor.ShlByte | src/color.js:171 | a byte shifted left by 8, 16 or 24 keeps its value times the power of two as a 32-bit pattern |
| JsColor.OrByte | src/color.js:171 | OR-ing a byte under a value shifted up by 8 bits is adding it |
| JsColor.ToUint32Packs | src/color.js:170-172 | for byte channels the ORs never overlap, so `toUint32` has the pattern 0xRRGGBBAA |
| JsColor.Uint32RoundTrip | src/color.js:39-44 | `new Color(c.toUint32())` is c for every colour with byte channels, under signed 32-bit `<<` and `>>` |
| JsColor.Uint32Construct | src/color.js:34-44 | the same round trip taken through the whole constructor with one number argument |
| JsColor.HexDigitValue | src/color.js:61-64 | a hex digit is worth less than 16 |
| JsColor.ToString16 | src/color.js:177 | `toString(16)` gives at least one lowercase hex digit, exactly one for values below 16 |
| JsColor.ToString16Value | src/color.js:177 | reading back the digits of `toString(16)` gives the number |
| JsColor.PadStart2 | src/color.js:177 | `padStart(2, '0')` yields at least two characters and leaves longer strings alone |
| JsColor.ByteHex | src/color.js:177-179 | a byte is rendered as exactly its two lowercase hex digits |
| JsColor.TrimStartSpec | src/color.js:61-64 | `parseInt` skips exactly the leading run of white space |
| JsColor.HexPrefixSpec | src/color.js:61-64 | `parseInt` reads the longest run of hex digits, stopping at the first non-digit |
| JsColor.ParseTwoHexDigits | src/color.js:61-64 | two hex digits parse to 16 times the first plus the second |
| JsColor.ParseRejectsNonHex | src/color.js:61-64 | a field that starts with neither white space, a sign nor a hex digit parses to NaN |
| JsColor.ParseByte | src/color.js:61-64 | parsing a byte's two-digit rendering gives the byte |
| JsColor.IntegralChannel | src/color.js:91-95 | an integral argument is stored as exactly its value |
| JsColor.FromNumbers4 | src/color.js:83-96 | four integral numbers are stored verbatim, and otherwise all four are scaled by 255 and rounded |
| JsColor.FromNumbers3 | src/color.js:97-109 | three numbers behave like four and alpha is always 255 |
| JsColor.HexLengths | src/color.js:47-58 | a `#` string of any length but 7 or 9 gives opaque black, and `#RRGGBB` is read as `#RRGGBBFF` with alpha 255 |
| JsColor.HexDigitsParse | src/color.js:59-64 | each channel of `#RRGGBBAA` comes from its own two hex digits |
| JsColor.NineCharHex | src/color.js:61-64 | a nine-character hex string is split into four two-character fields |
| JsColor.HexBranch | src/color.js:45-47 | a string starting with `#` takes the hex branch whatever the other arguments are |
| JsColor.FromHexFields | src/color.js:49-64 | the hex branch reads its channels from consecutive two-character fields, and alpha is read from "FF" for six digits |
| JsColor.IntegerArgsVerbatim | src/color.js:82-109 | integer arguments are stored without clamping, and three of them give alpha 255 |
| JsColor.UnitArgsGiveBytes | src/color.js:85-89 | fractional arguments in 0..1 are scaled to byte channels |
| JsColor.NameBranchMatchesGetColor | src/color.js:68-81 | a colour name gives the registered colour, as `getColor` does, and an unregistered name gives opaque black |
| JsColor.Construct | src/color.js:34-115 | the constructor over all argument shapes: number, `#` string, colour name, three or four numbers, and opaque black otherwise (`JsColor.Uint32Construct`, `JsColor.HexBranch`, `JsColor.HexLengths`, `JsColor.IntegerArgsVerbatim`, `JsColor.UnitArgsGiveBytes`, `JsColor.NameBranchMatchesGetColor`) |
| JsColor.FromHex | src/color.js:47-64 | the hex branch: opaque black unless 7 or 9 characters, one channel per two-digit field, alpha 255 for six digits (`JsColor.HexLengths`, `JsColor.HexDigitsParse`, `JsColor.FromHexFields`) |
| JsColor.FromName | src/color.js:68-81 | the name branch gives the registered colour, or opaque black for an unknown name (`JsColor.NameBranchMatchesGetColor`) |
| JsColor.ParseInt16 | src/color.js:61-64 | `parseInt(s, 16)`: skips leading white space, reads the longest hex prefix, gives NaN without one, and reads a byte's two digits back as the byte (`JsColor.TrimStartSpec`, `JsColor.HexPrefixSpec`, `JsColor.ParseTwoHexDigits`, `JsColor.ParseRejectsNonHex`, `JsColor.ParseByte`) |
| JsColor.Add | src/color.js:118-120 | `add` is componentwise addition without clamping for integer channels, and a NaN sum sends the constructor down the fraction branch |
| JsColor.Subtract | src/color.js:122-124 | `subtract` is componentwise subtraction without clamping for integer channels |
| JsColor.AddSubtractInverse | src/color.js:118-124 | `c.add(d).subtract(d)` is c for integer channels |
| JsColor.ToHexShape | src/color.js:174-180 | for byte channels `toHex` is `#` and six lowercase hex digits when alpha is 255, eight otherwise |
| JsColor.HexRoundTrip | src/color.js:174-180 | constructing from `toHex()` gives the colour back for byte channels |
| JsColor.ToHex | src/color.js:174-180 | `toHex` is `#` and six or eight lowercase hex digits, and constructing from it gives the colour back (`JsColor.ToHexShape`, `JsColor.HexRoundTrip`) |
| JsColor.Lookup | src/color.js:187-193 | `getColor` returns the registered colour, or opaque black for a missing name |
| JsColor.ColorMap.constructor | src/color.js:6 | the registry starts empty |
| JsColor.ColorMap.GetColor | src/color.js:187-193 | `getColor` reads the current registry |
| JsColor.ColorMap.AddColor | src/color.js:195-197 | `addColor` registers or replaces exactly one name and leaves the others |
| JsColor.ColorMap.RemoveColor | src/color.js:200-202 | `removeColor` answers true exactly when the name was registered, and removes exactly that name |
| RgbaColor.ToByte | src/rgba_color.cpp:6 | storing an `int` in a `uint8_t` channel keeps every value that fits |
| RgbaColor.ToByteWraps | src/rgba_color.cpp:6 | the stored byte differs from the argument by a multiple of 256 |
| RgbaColor.FromInts | src/rgba_color.cpp:6 | `Color(int, int, int, int)` keeps arguments that fit a byte, each channel being its argument mod 256 |
| RgbaColor.AddSubtractInverse | src/rgba_color.cpp:38-52 | `operator-` undoes `operator+` and the other way round, and `operator+` is commutative, all modulo 256 per channel |
| RgbaColor.ByteAddSub | src/rgba_color.cpp:38-52 | on one channel, wrapping subtraction undoes wrapping addition and the other way round |
| RgbaColor.Add | src/rgba_color.cpp:38-40 | `operator+` adds channel by channel modulo 256 and is undone by `operator-` (`RgbaColor.AddSubtractInverse`, `RgbaColor.ByteAddSub`) |
| RgbaColor.Subtract | src/rgba_color.cpp:50-52 | `operator-` subtracts channel by channel modulo 256 and is undone by `operator+` (`RgbaColor.AddSubtractInverse`, `RgbaColor.ByteAddSub`) |
| RgbaColor.ColorObject.constructor | src/rgba_color.cpp:6 | a colour object holds the channels it was built with |
| RgbaColor.ColorObject.AddAssign | src/rgba_color.cpp:42-48 | `+=` changes the object in place to `old + c` and returns that same object |
| RgbaColor.ColorObject.SubtractAssign | src/rgba_color.cpp:54-60 | `-=` changes the object in place to `old - c` and returns that same object |
| RgbaColor.LowByte | src/rgba_color.cpp:10 | `x & 0xFF` is the low byte of x |
| RgbaColor.FromUint | src/rgba_color.cpp:10 | `Color(unsigned int)` takes r from the top byte down to a from the lowest |
| RgbaColor.PackUintValue | src/rgba_color.cpp:105-107 | the fields share no bit, so `pack_uint` is the 32-bit number 0xRRGGBBAA |
| RgbaColor.UintRoundTrip | src/rgba_color.cpp:105-107 | `Color(c.pack_uint())` is c for every colour |
| RgbaColor.PackUint | src/rgba_color.cpp:105-107 | `pack_uint` is the 32-bit number 0xRRGGBBAA, which `Color(unsigned int)` unpacks to the colour again (`RgbaColor.PackUintValue`, `RgbaColor.UintRoundTrip`) |
| RgbaColor.GetColor | src/rgba_color.cpp:89-96 | `get_color` returns the registered entry, or transparent black (0, 0, 0, 0) for a missing name |
| RgbaColor.FromStringCases | src/rgba_color.cpp:11-36 | a `#` string throws `invalid_argument` exactly when it is not `#` and eight characters, eight hex digits give one channel per pair, and a name gives its registry entry |
| RgbaColor.SixDigitHexThrows | src/rgba_color.cpp:12-17 | the six-digit colours the settings defaults are written with throw |
| RgbaColor.FromString | src/rgba_color.cpp:11-36 | `Color(std::string)` throws for a `#` string other than `#` plus eight characters, reads eight hex digits pair by pair, and looks a name up in the registry (`RgbaColor.FromStringCases`, `RgbaColor.SixDigitHexThrows`) |
| RgbaColor.FromStringCorrected | src/rgba_color.cpp:11-36 | the corrected constructor agrees with the one as written on every string that is not seven characters long |
| RgbaColor.SixDigitHexCorrected | src/rgba_color.cpp:12-23 | with `#RRGGBB` read as opaque `#RRGGBBFF`, the settings defaults parse to the intended opaque colours |
| RgbaColor.Uint | src/rgba_color.cpp:109-114 | `Color::uint` is a 32-bit value |
| RgbaColor.UintOfName | src/rgba_color.cpp:109-114 | `uint` of a non-empty name unpacks to that name's registry colour, and a missing or empty name gives 0 |
| RgbaColor.PaletteLanes | src/rgba_color.cpp:116-123 | each lane of `uvec4_palette` unpacks to its own name's colour, in argument order |
| RgbaColor.Uvec4Palette | src/rgba_color.cpp:116-123 | each lane holds its own name's packed colour, 0 for an empty name (`RgbaColor.PaletteLanes`) |
| TextUtils.FirstNotBlank | src/file_reader/utils.cpp:8 | `find_first_not_of(" \t", i)` finds the first non-blank at or after i, or reports that there is none |
| TextUtils.LastNotBlank | src/file_reader/utils.cpp:9 | `find_last_not_of(" \t")` finds the last non-blank, or reports that there is none |
| TextUtils.TrimShape | src/file_reader/utils.cpp:7-16 | trimming keeps one contiguous piece of the input and removes only blanks around it; the piece is empty or starts and ends with a non-blank, and it is empty exactly when the input is all blanks |
| TextUtils.FirstNotBlankSkips | src/file_reader/utils.cpp:8 | leading blanks do not move where trimming starts |
| TextUtils.TrimIdempotent | src/file_reader/utils.cpp:7-16 | trimming twice is trimming once |
| TextUtils.TrimExamples | src/file_reader/utils.cpp:7-16 | " \t seed 4 \t" trims to "seed 4", and an all-blank or empty line trims to "" |
| TextUtils.Trim | src/file_reader/utils.cpp:7-16 | removing blanks at both ends keeps one contiguous non-blank-bounded piece, empty for an all-blank line, and is idempotent (`TextUtils.TrimShape`, `TextUtils.TrimIdempotent`, `TextUtils.TrimExamples`) |
| TextUtils.IsCommentIff | src/file_reader/utils.cpp:39-41 | a line is a comment exactly when it begins with "//"; an empty or one-character line is not, its index 1 reading the terminator |
| TextUtils.IsComment | src/file_reader/utils.cpp:39-41 | `is_comment` holds exactly for lines beginning with "//" (`TextUtils.IsCommentIff`) |
| TextUtils.Find | src/file_reader/utils.cpp:45 | `find` returns the first position at or after i where the substring occurs, or reports that it occurs nowhere after i |
| TextUtils.FoundSubstrIff | src/file_reader/utils.cpp:44-46 | `found_substr_in_line` is true exactly when the substring occurs somewhere in the line |
| TextUtils.FoundSubstrInLine | src/file_reader/utils.cpp:44-46 | `found_substr_in_line` holds exactly when the substring occurs in the line (`TextUtils.FoundSubstrIff`) |
| TextUtils.Open | src/file_reader/utils.cpp:27 | a fresh `istringstream` is good and at position 0 |
| TextUtils.SkipSpace | src/file_reader/utils.cpp:30 | `>>` skips exactly the leading run of space characters |
| TextUtils.TokenEnd | src/file_reader/utils.cpp:30 | a token runs up to the next space character or the end |
| TextUtils.LineEnd | src/file_reader/utils.cpp:32 | `getline` stops at the first delimiter or the end |
| TextUtils.LineEndNoNewline | src/file_reader/utils.cpp:32 | without a newline, `getline` reads to the end of the buffer |
| TextUtils.Extract | src/file_reader/utils.cpp:30 | `iss >> token` fails on a stream that is not good; otherwise it yields a non-empty token and moves forward, or fails with eof at the end, and reaching the end always sets eof |
| TextUtils.ExtractChar | src/settings.cpp:130-132 | `iss >> c` into a `char` yields a non-space character and leaves the stream good, or fails |
| TextUtils.GetLine | src/file_reader/utils.cpp:32 | `getline` yields a value exactly when the stream was good, and it moves forward or sets eof |
| TextUtils.ExtractTimes | src/file_reader/utils.cpp:27-31 | n extractions keep the stream over the same line |
| TextUtils.ExtractTimesSettled | src/file_reader/utils.cpp:29-31 | after at least one extraction the stream is good exactly while characters remain |
| TextUtils.DiscardTokens | src/file_reader/utils.cpp:26-37 | `discard_tokens` overwrites `line` with `DiscardTokensOf(line, n, trim)` and returns the same string |
| TextUtils.SkipTokens | src/file_reader/utils.cpp:29-31 | the token loop leaves the stream as n extractions do, and as none for n <= 0 |
| TextUtils.DiscardTokensCases | src/file_reader/utils.cpp:26-37 | when something follows the n-th token, the result is that remainder, trimmed when asked; when the n-th token ends the line or there are fewer tokens, the line comes back whole |
| TextUtils.DiscardNothing | src/file_reader/utils.cpp:26-37 | discarding no tokens returns the line itself, trimmed when asked |
| TextUtils.DiscardTokensExample | src/file_reader/utils.cpp:26-37 | with the default n = 2 and trimming, "a b c" becomes "c" |
| TextUtils.DiscardAtEndKeepsLine | src/file_reader/utils.cpp:29-32 | as written, "seed 5" comes back as "seed 5" rather than empty |
| TextUtils.DiscardTokensOf | src/file_reader/utils.cpp:26-37 | the text after the n-th token, trimmed when asked, or the whole line when nothing follows it (`TextUtils.DiscardTokensCases`, `TextUtils.DiscardNothing`, `TextUtils.DiscardAtEndKeepsLine`) |
| TextUtils.DiscardTokensCorrectedAgrees | src/file_reader/utils.cpp:26-37 | the corrected version agrees with `discard_tokens` whenever something follows the n-th token, and gives "" when the line ends there |
| TextUtils.DiscardAtEndCorrected | src/file_reader/utils.cpp:26-37 | corrected, "seed 5" with two tokens discarded gives "" |
| Settings.ColorOf | src/settings.cpp:78-88 | `Color(color_str)` in an action throws for a `#` string of a length other than 7 or 9, and gives the registry colour for a name |
| Settings.PushColors | src/settings.cpp:98-103 | the `polygonColors` loop only appends: the list before it is a prefix of the list after it |
| Settings.ReadVec2 | src/file_reader/utils.cpp:76-104 | `read_vec2(iss, v, false)` keeps the stream over the same line, never moves back, and moves forward or reaches eof |
| Settings.ReadVertices | src/settings.cpp:121-128 | the `vertices` loop only appends to the list it starts from |
| Settings.Act | src/settings.cpp:61-134 | an action only grows the colour list, and only the colour and vertex actions can throw |
| Settings.Settings.constructor | src/settings.cpp:4-39 | the globals start at their initialisers, with the six-digit colour strings read as opaque colours (`Settings.DEFAULTS`, `SettingsProps.DefaultColors`) |
| Settings.Settings.ParseConfig | src/settings.cpp:49-160 | a file that cannot be opened gives 1 and changes nothing; otherwise the settings are what the line loop makes of the lines in order, and the call returns 0 unless an action throws |
| Settings.Settings.ApplyAction | src/settings.cpp:148-152 | running the action found for a key leaves exactly the settings `Act` describes and reports whether it threw |
| Settings.Settings.ApplyNumberAction | src/settings.cpp:62-119 | the numeric actions write the value extracted, or leave the setting as it was when the extraction fails |
| Settings.Settings.ApplyTextAction | src/settings.cpp:66-132 | the title, colour, vertex and `tick_updates` actions leave exactly the settings `Act` describes |
| Settings.Settings.PushPolygonColors | src/settings.cpp:98-103 | the loop appends one colour per remaining token and stops at the first that throws |
| Settings.Settings.ReadVerticesInto | src/settings.cpp:122-127 | the loop appends one vector per `read_vec2` until eof and stops at the first that throws |
| Settings.ParseLinesStopped | src/settings.cpp:136-157 | once a line throws, the lines after it change nothing |
| Settings.LineStep | src/settings.cpp:136-157 | one pass of the line loop: empty and comment lines are skipped, an action key runs its action, any other token only becomes the current token, and `aspect_ratio` and `tick` never change (`SettingsProps.ActionLine`, `SettingsProps.SkippedLine`, `SettingsProps.UnknownToken`, `SettingsProps.LineStepKeepsFixed`) |
| Settings.ParseLines | src/settings.cpp:136-157 | the loop over a file's lines in order, stopping at the first that throws (`SettingsProps.ParseLinesAppend`, `SettingsProps.LastLine`, `SettingsProps.ParseKeepsFixed`, `Settings.ParseLinesStopped`) |
| Settings.Settings.ApplyLine | src/settings.cpp:136-157 | one iteration of the loop changes the settings as `LineStep` does and reports whether it threw |
| SettingsProps.TokenAt | src/settings.cpp:147 | `iss >> token` on a trimmed line yields exactly the characters up to the first space |
| SettingsProps.TrimKeeps | src/settings.cpp:138 | a line that starts and ends with a non-blank is its own trim |
| SettingsProps.SlashToken | src/settings.cpp:141-147 | a line beginning with '/' has a first token beginning with '/' |
| SettingsProps.NoSlashKeys | src/settings.cpp:61-134 | no token of the table is empty or begins with '/' |
| SettingsProps.Lookup | src/settings.cpp:66-132 | the table sends `window_title`, `seed`, `polygonColors`, `vertices` and `tick_updates` to their own actions |
| SettingsProps.ActionLineNotSkipped | src/settings.cpp:138-142 | a line whose first token names an action is neither empty nor a comment |
| SettingsProps.ActionLine | src/settings.cpp:136-157 | a line whose first token names an action runs exactly that action on the rest of the line |
| SettingsProps.ParseLinesAppend | src/settings.cpp:136-157 | reading a + b is reading a, then b from the settings and token a left, unless a threw |
| SettingsProps.LastLine | src/settings.cpp:136-157 | a file that did not throw before its last line ends with that line's step |
| SettingsProps.SkippedLine | src/settings.cpp:138-142 | empty lines and "//" lines can be removed from a file without changing the result |
| SettingsProps.UnknownToken | src/settings.cpp:147-156 | a line whose token is not in the table changes no setting and only becomes the current token |
| SettingsProps.ParseKeepsFixed | src/settings.cpp:4-160 | over any file `aspect_ratio` and `tick` keep their values (so `aspect_ratio` is not recomputed from `winres`), and the earlier colours stay at the head of the list |
| SettingsProps.LineStepKeepsFixed | src/settings.cpp:136-157 | one line keeps `aspect_ratio` and `tick` and only appends colours |
| SettingsProps.ActWritesItsSetting | src/settings.cpp:61-134 | each action writes only the setting its key names |
| SettingsProps.PutKeepsFixed | src/settings.cpp:61-134 | no action writes `aspect_ratio` or `tick` |
| SettingsProps.DefaultPaletteKept | src/settings.cpp:16-21 | the four default polygon colours stay at the head of the list whatever the file says |
| SettingsProps.PolygonColorsAppend | src/settings.cpp:98-103 | a `polygonColors` line appends its colours to the list the earlier lines left |
| SettingsProps.VerticesReplace | src/settings.cpp:121-128 | a `vertices` line replaces the list by the vectors it reads, whatever it held |
| SettingsProps.LaterSeedWins | src/settings.cpp:70-72 | a `seed` line sets the seed to the value read, whatever earlier lines set |
| SettingsProps.WindowTitleRest | src/settings.cpp:66-68 | `window_title` takes the rest of the line after the token, the separating space included, and is left alone when nothing follows |
| SettingsProps.TrimNoNewline | src/file_reader/utils.cpp:7-16 | trimming adds no newline |
| SettingsProps.WindowTitleExample | src/settings.cpp:66-68 | "window_title My App" gives the title " My App" with its leading space |
| SettingsProps.VerticesExampleRead | src/settings.cpp:121-128 | the vertex loop on the rest of "vertices 1 2, 3 4" reads one vector per comma-separated pair |
| SettingsProps.FirstPair | src/file_reader/utils.cpp:76-95 | the first `read_vec2` takes "1" as x and " 2" up to the comma as y |
| SettingsProps.SecondPair | src/file_reader/utils.cpp:76-95 | the second `read_vec2` takes "3" and " 4" and reaches eof |
| SettingsProps.VerticesExample | src/settings.cpp:121-128 | the line "vertices 1 2, 3 4" sets the vertices to (1, 2) and (3, 4) |
| SettingsProps.VerticesLineStep | src/settings.cpp:121-128 | a `vertices` line runs the vertex loop from an empty list |
| SettingsProps.VerticesLine | src/settings.cpp:147 | the first token of "vertices 1 2, 3 4" is "vertices", ending at position 8 |
| SettingsProps.DefaultColors | src/settings.cpp:12-21 | the default colours are what `Color` makes of their initialiser strings once `#RRGGBB` is read as opaque |
| SettingsProps.TickUpdatesReadsChar | src/settings.cpp:130-132 | as written, "tick_updates d" stores the character code of the digit d (48 for '0'); read as a number it stores the digit's value |
| SettingsProps.TickLine | src/settings.cpp:130-132 | as written, a `tick_updates c` line stores the code of c |
| SettingsProps.TickLineCorrected | src/settings.cpp:130-132 | read as a number, a `tick_updates d` line stores the value of the digit d |
| SettingsProps.DigitValue | src/settings.cpp:131 | a single decimal digit spells its value |
| SettingsProps.TickToken | src/settings.cpp:147 | the first token of a `tick_updates c` line is "tick_updates" |
| SettingsProps.TokenlessLineClearsVertices | src/settings.cpp:144-152 | a line that trims to space characters but has no token re-runs the previous action; after a `vertices` line that clears the vertex list |
| SettingsProps.TokenlessLineSkippedCorrected | src/settings.cpp:144-152 | with tokenless lines skipped, such a line changes nothing |
| SettingsProps.CrLine | src/settings.cpp:138-147 | "\r" survives trimming, is not a comment and yields no token |
| SettingsProps.CrLineExample | src/settings.cpp:136-157 | "vertices 1 2, 3 4" followed by a "\r" line ends with no vertices as written, and with both vertices when tokenless lines are skipped |
| CppTimer.MinOf | src/timer.h:67-70 | `*min_element` of a non-empty list is one of its elements and no greater than any |
| CppTimer.MaxOf | src/timer.h:72-75 | `*max_element` of a non-empty list is one of its elements and no smaller than any |
| CppTimer.Total | src/timer.h:62-65 | `total` is 0 for no durations and grows by each added duration (`CppTimer.EmptyStatistics`, `CppTimer.TotalAppend`) |
| CppTimer.Avg | src/timer.h:57-60 | `avg` is 0 for no durations, the floor of the mean between `min` and `max` for a total that fits an `int`, and divided as unsigned for a negative total (`CppTimer.EmptyStatistics`, `CppTimer.AvgBetweenMinMax`, `CppTimer.AvgOfNegativeTotal`) |
| CppTimer.Min | src/timer.h:67-70 | `min` is 0 for no durations and otherwise one of them, no greater than any (`CppTimer.EmptyStatistics`, `CppTimer.MinOf`) |
| CppTimer.Max | src/timer.h:72-75 | `max` is 0 for no durations and otherwise one of them, no smaller than any (`CppTimer.EmptyStatistics`, `CppTimer.MaxOf`) |
| CppTimer.Elapsed | src/timer.h:35-36 | the microseconds between two clock readings, narrowed to `int` (`CppTimer.ElapsedWhole`) |
| CppTimer.Ended | src/timer.h:33-47 | the state and return value of `end`: nothing changes when idle, and a running timer stops and records its interval when asked (`CppTimer.EndWhenIdle`, `CppTimer.EndWhenRunning`, `CppTimer.EndTwice`) |
| CppTimer.EmptyStatistics | src/timer.h:57-75 | `total`, `avg`, `min` and `max` are all 0 when no duration is recorded |
| CppTimer.TotalAppend | src/timer.h:62-65 | recording one more duration adds it to the total |
| CppTimer.SumBounds | src/timer.h:62-65 | n durations each between lo and hi sum to between n * lo and n * hi |
| CppTimer.QuotientBetween | src/timer.h:57-60 | the floor quotient t / n lies between lo and hi when n * lo <= t <= n * hi |
| CppTimer.AvgBetweenMinMax | src/timer.h:57-75 | for a total that fits a non-negative `int`, `avg` is the floor of the mean and lies between `min` and `max` |
| CppTimer.AvgOfNegativeTotal | src/timer.h:57-60 | a negative total is divided as an unsigned `size_t`: for durations -1 and 0 the total is -1 and `avg` is -1, not the truncated mean 0 |
| CppTimer.ElapsedWhole | src/timer.h:35-36 | an interval of under 2^31 microseconds is recorded as its whole number of microseconds |
| CppTimer.StartOption | src/timer.h:21-31 | constructing with `start_` is constructing and then calling `start`; without it the timer is idle with no durations |
| CppTimer.EndWhenIdle | src/timer.h:34 | `end` on a timer that is not running returns 0 and changes nothing |
| CppTimer.EndWhenRunning | src/timer.h:33-47 | `end` on a running timer stops it, returns the elapsed microseconds, and appends exactly that value when `push` is set and nothing otherwise |
| CppTimer.EndTwice | src/timer.h:33-47 | a second `end` right after the first returns 0 and records nothing |
| CppTimer.StartThenEnd | src/timer.h:27-47 | `start` then `end(true)` appends and returns the time between the two clock readings |
| CppTimer.StartKeepsDurations | src/timer.h:27-31 | `start` runs the timer and keeps the recorded durations |
| CppTimer.Timer.constructor | src/timer.h:21-25 | the new timer is in the state `Constructed` gives, with its description |
| CppTimer.Timer.Start | src/timer.h:27-31 | `start` takes the timer to `Started` of its old state and keeps the description |
| CppTimer.Timer.End | src/timer.h:33-47 | `end` takes the timer to the state `Ended` gives and returns its duration |
| CppTimer.Timer.UpdateDescription | src/timer.h:49-51 | only the description changes |
| CppTimer.Timer.ResetDurations | src/timer.h:53-55 | the durations are emptied and the flags and start time are kept |
| JsTimer.MinOf | src/timer.js:52-55 | `Math.min` of a non-empty list is one of its elements and no greater than any |
| JsTimer.MaxOf | src/timer.js:57-60 | `Math.max` of a non-empty list is one of its elements and no smaller than any |
| JsTimer.Total | src/timer.js:47-50 | `total` is 0 for no durations and grows by each added duration (`JsTimer.EmptyStatistics`, `JsTimer.TotalAppend`) |
| JsTimer.Avg | src/timer.js:42-45 | `avg` is 0 for no durations, otherwise the mean, between `min` and `max` (`JsTimer.EmptyStatistics`, `JsTimer.AvgBetweenMinMax`) |
| JsTimer.Min | src/timer.js:52-55 | `min` is 0 for no durations and otherwise one of them, no greater than any (`JsTimer.EmptyStatistics`, `JsTimer.MinOf`) |
| JsTimer.Max | src/timer.js:57-60 | `max` is 0 for no durations and otherwise one of them, no smaller than any (`JsTimer.EmptyStatistics`, `JsTimer.MaxOf`) |
| JsTimer.Elapsed | src/timer.js:20-21 | the difference of two `performance.now()` readings, in milliseconds (`JsTimer.EndWhenRunning`, `JsTimer.MillisecondsRecorded`) |
| JsTimer.ElapsedUs | src/timer.js:20-21 | the same interval converted to microseconds, as the log line's unit intends (`JsTimer.MicrosecondsRecorded`) |
| JsTimer.Ended | src/timer.js:18-32 | the state and return value of `end`: nothing changes when idle, and a running timer stops and records its interval when asked (`JsTimer.EndWhenIdle`, `JsTimer.EndWhenRunning`, `JsTimer.EndTwice`) |
| JsTimer.EmptyStatistics | src/timer.js:42-60 | `total`, `avg`, `min` and `max` are all 0 when no duration is recorded |
| JsTimer.TotalAppend | src/timer.js:47-50 | recording one more duration adds it to the total |
| JsTimer.SumBounds | src/timer.js:47-50 | n durations each between lo and hi sum to between n * lo and n * hi |
| JsTimer.QuotientBetween | src/timer.js:42-45 | t / n lies between lo and hi when n * lo <= t <= n * hi |
| JsTimer.AvgBetweenMinMax | src/timer.js:42-60 | `avg` times the count is the total, and `avg` lies between `min` and `max` |
| JsTimer.StartOption | src/timer.js:2-16 | constructing with `start_` is constructing and then calling `start`; without it the timer is idle with no durations |
| JsTimer.EndWhenIdle | src/timer.js:19 | `end` on a timer that is not running returns 0 and changes nothing |
| JsTimer.EndWhenRunning | src/timer.js:18-32 | `end` on a running timer stops it, returns the difference of the two clock readings, and appends exactly that value when `push` is set and nothing otherwise |
| JsTimer.EndTwice | src/timer.js:18-32 | a second `end` right after the first returns 0 and records nothing |
| JsTimer.MillisecondsRecorded | src/timer.js:20-28 | as written, a timer started at 0 ms and ended at 1 ms records 1, which the log line labels microseconds and shows as 0.001 ms |
| JsTimer.MicrosecondsRecorded | src/timer.js:20-28 | with the interval converted to microseconds, the value recorded divided by 1000 is the interval in milliseconds |
| JsTimer.Timer.constructor | src/timer.js:2-10 | the new timer is in the state `Constructed` gives, with its description |
| JsTimer.Timer.Start | src/timer.js:12-16 | `start` takes the timer to `Started` of its old state and keeps the description |
| JsTimer.Timer.End | src/timer.js:18-32 | `end` takes the timer to the state `Ended` gives and returns its duration |
| JsTimer.Timer.UpdateDescription | src/timer.js:34-36 | only the description changes |
| JsTimer.Timer.ResetDurations | src/timer.js:38-40 | the durations are emptied and the flags and start time are kept |

## Left out

- WebGL, OpenGL and GLFW calls (buffer upload, drawing, the render loop, resize handlers, window set-up): GPU plumbing outside the geometry logic. The typed-array conversions happen only at that boundary.
- DOM overlay, FPS counting, `printSizes`, `console` and `std::cout` output, and the timers' printed log lines and `print_report`: output only.
- The shader wrappers src/shader.h and src/shader.js: thin wrappers over the GL compile, link and uniform calls.
- src/vec2.js, src/vec3.js and src/vec4.js: float vector arithmetic that the batcher only copies through.
- Randomness (`Math.random`, `rand()`, `getRandCoord`, `randCoord`): the shape loop of `init` takes its vertices, sizes, offsets and colours as parameters.
- Floating-point geometry: `atan2`, `glm::normalize` and the polar conversion are uninterpreted function parameters, floats are exact reals, and `Math.round` is floor(x + 0.5) on reals.
- Vertex-shader rotations and transforms, fragment `smoothstep`/`mix` colouring, GLSL precision, and the distance value that `sdPolygon` computes: shading maths on floats. Only the kind dispatch, the vertex-texture addressing and the edge-loop structure are modelled. Texture sampling is a function parameter.
- `Color.lerp`, `Color.scale`, `rgb`, `rgba`, `normalize`, `getCssString` and the float constructors of both colour classes: float conversions.
- The `"R G B A"` stream branch of the C++ `Color(std::string)` constructor, and `sscanf` matching only part of a `#` string: these are the `Unmodelled` outcome of `RgbaColor.FromString` and an abstract `otherColor` parameter in Settings.
- `read_until_substr_found`, `no_close_tag` and the `istringstream&` overload of `remove_lead_trail_whitespace`: not used by `parse_config`.
- Numeric extraction (`iss >> float`, `int` and `uint32_t`) and `std::stof`: abstract `Readers` functions that return the stream afterwards and the value read. The stream itself (position, eofbit, failbit, `getline`, `>>` into a string or a char) is modelled.
- Opening and reading the configuration file: `parse_config` takes `Option<seq<string>>`, either the file's lines or the open failure.
- Settings.ColorOf: reads `#RRGGBB` as opaque, through `RgbaColor.FromStringCorrected`, because as written every default colour string would throw (Findings: src/rgba_color.cpp:12-17).
- Settings.Settings.constructor: the default colours are the corrected reading of their `#RRGGBB` initialisers (src/settings.cpp:12-21): `DEFAULTS` holds the colours `RgbaColor.FromStringCorrected` gives them (`SettingsProps.DefaultColors`). As written, constructing those globals throws `invalid_argument` during static initialisation (Findings: src/rgba_color.cpp:12-17).
- JsColor.FromHex: the length tests `length === 7` and `length !== 9` and the `slice` calls count code points, where JavaScript counts UTF-16 code units. The model agrees with JavaScript only on strings without characters outside the Basic Multilingual Plane; `#\u{1F600}abcd` is 7 units long there and gets the `FF` suffix, but is 6 characters here and gives opaque black. `JsColor.Construct`, `JsColor.HexLengths` and `JsColor.FromHexFields` inherit this.
- CppTimer: the destructor's implicit `end()` and overflow of `int` in `std::accumulate` are not modelled. `Avg` does model the unsigned division and the narrowing.
- CppTimer.AvgBetweenMinMax: stated only for totals in 0 .. 2^31 - 1, where no conversion wraps.
- The timer `description` is kept but only ever printed.
- Batcher.Batcher.InitShapes: requires an empty instance list, because `init` runs once, on fresh globals.
- Batcher.Batcher.InitShapesByVertex: requires an empty instance list, for the same reason.
- CppBatcher.Batcher.AddPolygon: requires fewer than 2^32 vertices, the range of the `uint32_t vertexCount`.
- TextUtils.Trim: returns the trimmed string instead of overwriting its `std::string&` argument.
- The bytes of a C++ `std::string` are modelled as Dafny characters. For ASCII text the two agree; a non-ASCII character is one Unicode `char` here but several UTF-8 `char`s in the source. So `Settings.CharByte` stores its code point modulo 256 where `tick_updates` would store the first UTF-8 byte, and `TextUtils.Trim`, `TextUtils.IsSpace` and `TextUtils.Extract` see one character where the source sees several bytes (no multi-byte sequence contains a blank or a space byte, so tokens and trimming split at the same places).
- Attributes.OutlineQuad.Apply: returns the extended sequences instead of pushing onto aliased arrays. The same holds for CppAttributes.OutlineQuad.Apply and CppBatcher.OutlineQuad.Apply.
- Lerp's wrap-around of 8-bit channels is not modelled, since lerp itself is left out.

## Findings

| source | as written | input that shows it | evidently intended | confidence | as-written member | corrected member |
|---|---|---|---|---|---|---|
| src/app.js:355-372 | each instance range starts at `p_coords.length` and counts coordinate entries, but `update` indexes `p_rotations`, which has one entry per vertex | one polygon of 3 vertices in `init`, then `update`: the range covers 54 rotation slots of 27, so `p_rotations` grows to 54 and the new slots hold NaN | ranges counted in vertices (`p_coords.length / 2`) | not executed | BatcherRun.InitThenUpdate | BatcherRun.InitThenUpdateByVertex |
| src/app.js:197 | `addCircle` offsets its indices by `p_coords.length`, twice the vertex count | two circles: the second circle's indices are 8..11, but its vertices are 4..7 | offset by `p_coords.length / 2` | not executed | BatcherRun.TwoCircles | BatcherRun.TwoCirclesCorrected |
| src/file_reader/utils.cpp:29-32 | when the n-th token ends the line, the extraction sets eofbit, so `getline` fails and `line` is left whole | `discard_tokens("seed 5")` with the default 2 tokens returns "seed 5" | the empty remainder "" | not executed | TextUtils.DiscardAtEndKeepsLine | TextUtils.DiscardAtEndCorrected |
| src/rgba_color.cpp:12-17 | a `#` string must have 8 hex digits, or `invalid_argument` is thrown | `Color("#dbdbdb")`, the form of the default colours in src/settings.cpp | `#RRGGBB` read as opaque `#RRGGBBFF`, as src/color.js does | not executed | RgbaColor.SixDigitHexThrows | RgbaColor.SixDigitHexCorrected |
| src/settings.cpp:130-132 | `tick_updates` is a `uint8_t`, so `iss >>` reads one character | the line "tick_updates 0" sets `tick_updates` to 48 | the number 0 | not executed | SettingsProps.TickUpdatesReadsChar | SettingsProps.TickLineCorrected |
| src/settings.cpp:144-152 | a trimmed line with no token leaves `token` unchanged, so the previous line's action runs again | "vertices 0 0" followed by the line "\r": the second line clears the vertex list | a line without a token changes nothing | not executed | SettingsProps.TokenlessLineClearsVertices | SettingsProps.TokenlessLineSkippedCorrected |
| src/timer.js:20-28 | the difference of two `performance.now()` readings, in milliseconds, is stored as `duration_us` | start at 0 ms and end at 1 ms: 1 is recorded and printed as "1us" | the interval times 1000 | not executed | JsTimer.MillisecondsRecorded | JsTimer.MicrosecondsRecorded |
