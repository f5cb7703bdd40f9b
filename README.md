# batchman in Dafny

batchman is a small SDL2/OpenGL demo in C. It draws a lattice of 2050 textured cubes in one
batched draw call and a few rows of HUD text in a second one, with a free-flying camera driven by
WASD and the mouse. This project models the CPU side of that program and proves properties of the
model:

- `linear.dfy` (module `Linear`): the vector and matrix algebra of `bmath.h` as values over
  `real`: `vec2`..`vec4`, `mat3` and `mat4` (row-major, row k = `m[k]`), dot, cross,
  normalisation, translate/scale/rotate, `mat4_mul`, `mat4_mulv3/4`, ortho, perspective and
  look-at. It also holds their algebra: linearity, composition, associativity, and the geometry
  of the look-at and projection matrices.
- `bmath.dfy` (module `Bmath`): the in-place `bmath.h` routines as methods on `array<real>` and
  `array2<real>`. Each method's postcondition gives the new destination as the `Linear` function
  of the *old* inputs. No contract demands that the arguments be distinct, which is the proof
  that the source's aliased calls (`mat4_rotate(m, …)`, `mat4_scale_to(m, v, m)`,
  `vec3_scale(tmp, s, tmp)`) are safe.
- `graphics_types.dfy` (module `GraphicsTypes`): the records of `graphics_generics.h`
  (`scene_vertex`, `cube`, `cube_elements`, `hud_vertex` and `quad`) as datatypes and
  fixed-length sequence types.
- `graphics.dfy` (module `Graphics`): `fill_cube_elements`, `fill_scene_vertex`/`make_cube`,
  `transform_cube` and `make_quad`, with the cube's index pattern, corner and face layout.
- `text.dfy` (module `Text`): the `glyph_quad` and `font` records of `text.h`, and
  `get_glyph_quad`, `make_glyph_quad` and `make_text_row`. The row
  loop is proved against a recursive specification of the whole text row.
- `events.dfy` (module `Events`): `handle_events` and the `EVENT_*` request flags, plus the
  event poll as a fold over the queue.
- `frame.dfy` (module `Frame`): one iteration of the main loop up to drawing, as a class `App`
  over the loop's variables. An iteration polls, consumes the close, hot-reload and text-toggle
  requests, moves the camera for the held keys and turns it by the mouse with the pitch
  clamped.
- `scene.dfy` (module `Scene`): the buffers `main` builds. These are the static HUD index
  buffer, the scene element buffer (with the finding below), the per-frame cube lattice and the
  per-frame HUD text rows.

Floats are modelled as `real`. `sinf`, `cosf`, `tanf` and `sqrtf` are the fields of a `Libm`
value passed in, so nothing depends on how they are computed. Where a property needs them to
behave (a unit normalisation, a unit view direction), the lemma states that need as a
precondition. A buffer of C records (`cube cube_array[2050]`, `quad quad_array[1000]`,
`cube_elements elements_array[2050]`) is an `array` whose elements are the records as values. A
routine that fills `&buffer[k]` takes the array and `k`.

## Model

| member | source | states |
|---|---|---|
| Linear.Cross | code/bmath.h:101-108 | `vec3_cross`: the cross product a × b, partnered by `CrossOrthogonal` |
| Linear.NormalizeTo | code/bmath.h:89-120 | `vec3_normalize`/`vec3_normalize_to`: v scaled by 1 / norm, or the zero vector for a zero norm, partnered by `NormalizeGuard` and `NormalizeUnit` |
| Linear.CrossN | code/bmath.h:122-126 | `vec3_crossn`: the normalised cross product, partnered by `DegenerateBasis` |
| Linear.Mat3Translate | code/bmath.h:156-161 | `mat3_translate`: row 2 gains v.x · row 0 + v.y · row 1, partnered by `Mat3TranslateCompose` |
| Linear.Mat3Rotate | code/bmath.h:163-177 | `mat3_rotate`: rows 0 and 1 turned by the angle, row 2 kept, partnered by `Mat3RotateFixed` |
| Linear.Mat3Scale | code/bmath.h:179-188 | `mat3_scale`: rows 0 and 1 scaled by v.x and v.y, partnered by `Mat3ScaleCompose` |
| Linear.Mulv4 | code/bmath.h:218-251 | `mat4_mulv4`: entry i of the result is Σk m[k][i] · v[k], partnered by `Mulv4Combines`, `Mulv4Scales`, `Mulv4Adds` and `Bmath.SseOrder` |
| Linear.Mulv3 | code/bmath.h:253-274 | `mat4_mulv3`: (v, last) transformed by `mat4_mulv4` with w dropped, partnered by `Mulv3ScalarForm` and `Mulv3Composes` |
| Linear.Translate4 | code/bmath.h:284-289 | `mat4_translate`: row 3 gains v.x · row 0 + v.y · row 1 + v.z · row 2, in that order, partnered by `TranslateIsPostMultiply` |
| Linear.Mul4 | code/bmath.h:313-341 | `mat4_mul`: row k of the product is m1 applied to row k of m2, partnered by `MulAssociative` and `MulComposes` |
| Linear.MulRot4 | code/bmath.h:343-373 | `mat4_mul_rot`: rows 0-2 multiplied using m2's upper 3×3 only, row 3 copied from m1, partnered by `MulRotAgreesWithMul` |
| Linear.RotateMake | code/bmath.h:291-311 | `mat4_rotate_make`: the axis-angle rotation about the normalised axis, partnered by `RotateIsMul` |
| Linear.Rotate4 | code/bmath.h:375-380 | `mat4_rotate`: `mat4_mul_rot` by the rotation matrix, partnered by `RotateIsMul` |
| Linear.ScaleTo4 | code/bmath.h:382-389 | `mat4_scale_to`: rows 0-2 scaled by v's entries, row 3 copied, partnered by `ScaleToIsPostMultiply` |
| Linear.Ortho | code/bmath.h:395-414 | `mat4_ortho`'s sixteen entries, partnered by `OrthoCorners` |
| Linear.Perspective | code/bmath.h:416-430 | `mat4_perspective`'s sixteen entries, partnered by `PerspectiveDepth` |
| Linear.View | code/bmath.h:432-457 | the matrix `mat4_look_at` writes for a basis (s, u, f) and an eye, partnered by `ViewIsChangeOfBasis` and `ViewEyeToOrigin` |
| Linear.LookAt | code/bmath.h:432-457 | `mat4_look_at`: f = normalised centre - eye, s = normalised up × f, u = f × s, in the `View` layout, partnered by `LookAtBasisOrthogonal` and `LookAtCenterOnAxis` |
| Linear.MulIdentityRight | code/bmath.h:314-341 | multiplying by the identity on the right changes nothing |
| Linear.MulIdentityLeft | code/bmath.h:314-341 | multiplying by the identity on the left changes nothing |
| Linear.Mulv4Combines | code/bmath.h:219-251 | `mat4_mulv4` sends v to the sum of the matrix rows weighted by v's entries |
| Linear.Dot4Scale | code/bmath.h:219-251 | a matrix column's dot product commutes with scaling the vector |
| Linear.Dot4Add | code/bmath.h:219-251 | a matrix column's dot product distributes over vector addition |
| Linear.Mulv4Scales | code/bmath.h:219-251 | transforming a scaled vector is scaling the transformed vector |
| Linear.Mulv4Adds | code/bmath.h:219-251 | transforming a sum is the sum of the transformed vectors |
| Linear.Mulv4Basis | code/bmath.h:219-251 | the unit vectors are sent to the four rows |
| Linear.MulComposes | code/bmath.h:314-341 | transforming by `mat4_mul(m1, m2)` is transforming by m2 and then by m1 |
| Linear.MulAssociative | code/bmath.h:314-341 | `mat4_mul` is associative |
| Linear.TranslateIsPostMultiply | code/bmath.h:285-289 | `mat4_translate` keeps rows 0-2 and is post-multiplication by the translation matrix of v |
| Linear.TranslateCompose | code/bmath.h:285-289 | two translations compose into one by the summed offset |
| Linear.ScaleToIsPostMultiply | code/bmath.h:383-389 | `mat4_scale_to` keeps row 3 and is post-multiplication by diag(v) |
| Linear.MulRotAgreesWithMul | code/bmath.h:344-373 | `mat4_mul_rot` copies row 3 of m1 and equals `mat4_mul` when m2 has no translation or projective part |
| Linear.RotateIsMul | code/bmath.h:292-311 | the rotation matrix has no translation or projective part, so `mat4_rotate` is a full `mat4_mul` that keeps row 3 |
| Linear.Mulv3ScalarForm | code/bmath.h:254-274 | `mat4_mulv3` through `mat4_mulv4` agrees with its scalar form, each component being a row combination plus `last` times row 3 |
| Linear.Mulv3Composes | code/bmath.h:254-274 | a point moved by two affine matrices in turn is moved by their product |
| Linear.OriginToTranslation | code/bmath.h:254-274 | the origin is sent to the translation row |
| Linear.NormalizeGuard | code/bmath.h:111-120 | a zero norm gives the zero vector, and the result is always a multiple of the input |
| Linear.NormalizeUnit | code/bmath.h:111-120 | with a true square root and a nonzero norm, the normalised vector has unit length |
| Linear.DotScaleRight | code/bmath.h:54-56 | the dot product is linear in its second argument |
| Linear.DotScaleLeft | code/bmath.h:54-56 | the dot product is linear in its first argument |
| Linear.CrossOrthogonal | code/bmath.h:102-108 | the cross product is orthogonal to both factors |
| Linear.NormalizeKeepsOrthogonal | code/bmath.h:111-120 | normalising keeps orthogonality to any vector |
| Linear.LookAtBasisOrthogonal | code/bmath.h:433-457 | the look-at side, up and forward axes are pairwise orthogonal, whatever sqrtf returns |
| Linear.ViewIsChangeOfBasis | code/bmath.h:433-457 | the look-at layout is affine and sends eye + d to d's coordinates in the basis |
| Linear.ViewEyeToOrigin | code/bmath.h:433-457 | the look-at layout sends the eye to the origin |
| Linear.Denormalize | code/bmath.h:111-120 | a vector with nonzero norm is its normalisation scaled by the norm |
| Linear.OrthogonalToDirection | code/bmath.h:111-120 | orthogonality to a normalised direction carries over to the direction |
| Linear.DegenerateBasis | code/bmath.h:123-126 | a zero forward axis makes the side and up axes zero |
| Linear.LookAtAxesOrthogonalToOffset | code/bmath.h:433-457 | the side and up axes are orthogonal to centre - eye |
| Linear.LookAtCenterOnAxis | code/bmath.h:433-457 | `mat4_look_at` puts the eye at the origin and the centre on the view axis (x = y = 0) |
| Linear.OrthoCorners | code/bmath.h:395-414 | `mat4_ortho` maps (left, bottom, near) to (-1, -1, 0) and (right, top, far) to (1, 1, 1) |
| Linear.PerspectiveDepth | code/bmath.h:417-430 | `mat4_perspective` sends the near plane to depth 0 and the far plane to depth w, with w the eye depth |
| Linear.Scale3Distributes | code/bmath.h:157-161 | scaling a row by a and by b and adding is scaling by a + b |
| Linear.Mat3TranslateCompose | code/bmath.h:157-161 | two `mat3_translate` calls compose into one by the summed offset |
| Linear.Mat3ScaleCompose | code/bmath.h:180-188 | `mat3_scale` keeps row 2, and two calls compose by the component-wise product |
| Linear.Mat3RotateFixed | code/bmath.h:164-177 | `mat3_rotate` keeps row 2, and an angle with cos 1 and sin 0 changes nothing |
| Bmath.StoreRow | code/bmath.h:193-198 | `mat4` row k is replaced and the rest is kept |
| Bmath.StoreRow3 | code/bmath.h:157-161 | `mat3` row k is replaced and the rest is kept |
| Bmath.Vec2Copy | code/bmath.h:32-35 | dest holds a's old value |
| Bmath.Vec3Copy | code/bmath.h:40-44 | dest holds a's old value |
| Bmath.Vec3Mul | code/bmath.h:47-51 | dest is the old component-wise product of a and b |
| Bmath.Vec3Scale | code/bmath.h:69-73 | dest is old v times s, also when v and dest are the same array |
| Bmath.Vec3Add | code/bmath.h:76-80 | dest is old dest plus old v |
| Bmath.Vec3Sub | code/bmath.h:83-87 | dest is old dest minus old v |
| Bmath.Vec3Normalize | code/bmath.h:90-99 | v becomes its normalisation, or zero when the norm is zero |
| Bmath.Vec3Cross | code/bmath.h:102-108 | dest is the cross product of the old a and b, even when dest aliases an input |
| Bmath.Vec3NormalizeTo | code/bmath.h:111-120 | dest is the normalisation of old v, or zero when the norm is zero |
| Bmath.Vec3CrossN | code/bmath.h:123-126 | dest is the normalised cross product |
| Bmath.Vec4Copy | code/bmath.h:131-136 | dest holds v's old value |
| Bmath.Vec4MulAdds | code/bmath.h:139-144 | dest is old dest plus s times old a |
| Bmath.Vec4Scale | code/bmath.h:147-152 | dest is old v times s |
| Bmath.Vec4MulAddsRow | code/bmath.h:139-144 | the same on a matrix row, the other rows kept |
| Bmath.Vec4ScaleRow | code/bmath.h:147-152 | the same on a matrix row, the other rows kept |
| Bmath.Vec4CopyRow | code/bmath.h:131-136 | the same on a matrix row, the other rows kept |
| Bmath.Mat3TranslateInPlace | code/bmath.h:157-161 | m becomes `mat3_translate` of its old value |
| Bmath.Mat3RotateInPlace | code/bmath.h:164-177 | m becomes `mat3_rotate` of its old value |
| Bmath.Mat3ScaleInPlace | code/bmath.h:180-188 | m becomes `mat3_scale` of its old value |
| Bmath.Mat4Identity | code/bmath.h:193-198 | dest becomes the identity |
| Bmath.Mat4Copy | code/bmath.h:201-211 | dest holds mat's old value |
| Bmath.Mat4Mulv4 | code/bmath.h:219-251 | dest is old m times old v, also when dest aliases v |
| Bmath.SseOrder | code/bmath.h:219-251 | the SSE accumulation order (row 3 first, row 0 last) gives the same vector |
| Bmath.Mat4Mulv3 | code/bmath.h:254-274 | dest is the first three components of old m times (v, last) |
| Bmath.Mat4Zero | code/bmath.h:277-282 | dest becomes the zero matrix |
| Bmath.Mat4Translate | code/bmath.h:285-289 | dest becomes the translation of its old value by old v |
| Bmath.Vec3ScaleIntoRow | code/bmath.h:292-311 | a row's first three entries become n times s, and the rest is kept |
| Bmath.AddIntoRow | code/bmath.h:292-311 | a row's first three entries gain d and its w becomes 0 |
| Bmath.Mat4RotateMake | code/bmath.h:292-311 | m becomes the rotation matrix of the angle about the normalised axis |
| Bmath.FillRotation | code/bmath.h:292-311 | the three rotation rows, as built from the axis terms, and row 3 = (0, 0, 0, 1) |
| Bmath.Mat4Mul | code/bmath.h:314-341 | dest is the product of the old m1 and m2, whatever the aliasing |
| Bmath.Mat4MulRot | code/bmath.h:344-373 | dest is the rotation product of the old m1 and m2, whatever the aliasing |
| Bmath.Mat4Rotate | code/bmath.h:376-380 | m becomes its old value rotated, which equals the full product with the rotation matrix |
| Bmath.Mat4ScaleTo | code/bmath.h:383-389 | dest is old m with rows 0-2 scaled by v, whatever the aliasing |
| Bmath.Mat4Scale | code/bmath.h:392-394 | m becomes its old value scaled in place |
| Bmath.Mat4Ortho | code/bmath.h:395-414 | dest becomes the orthographic projection |
| Bmath.Mat4Perspective | code/bmath.h:417-430 | dest becomes the perspective projection |
| Bmath.Mat4LookAt | code/bmath.h:433-457 | dest becomes the look-at view of the old eye, centre and up |
| Graphics.ElementsFor | code/graphics.h:178-196 | `fill_cube_elements`'s block for cube `offset`: the fixed 36-index pattern plus 24 · offset, partnered by `ElementsInRange`, `ElementsTranslate` and `ElementsCoverCube` |
| Graphics.Transformed | code/graphics.h:235-240 | `transform_cube`: each vertex position becomes `mat4_mulv3(model, 1, pos)`, each texture coordinate kept, partnered by `TransformedIdentity` and `TransformedComposes` |
| Graphics.ScreenQuad | code/graphics.h:132-146 | the four vertices `make_quad` writes, partnered by `ScreenQuadLayout` |
| Graphics.FillCubeElements | code/graphics.h:179-196 | slot k becomes cube `offset`'s 36 indices, and every other slot is kept |
| Graphics.ElementsInRange | code/graphics.h:179-196 | every index of cube `offset` lies in [24·offset, 24·offset + 24) |
| Graphics.ElementsTranslate | code/graphics.h:179-196 | cube `offset`'s indices are cube 0's moved by 24·offset |
| Graphics.PatternTriangles | code/graphics.h:182-195 | each face's six indices are the triangles (a, b, c) and (c, d, a) |
| Graphics.PatternFaceRange | code/graphics.h:182-195 | face f's indices name only the vertices 4f..4f+3 |
| Graphics.PatternCornersDistinct | code/graphics.h:182-195 | each face's four corners are distinct vertices |
| Graphics.ElementsFaces | code/graphics.h:179-196 | every cube's block is six faces of two triangles each |
| Graphics.ElementsCoverCube | code/graphics.h:179-196 | every one of the cube's 24 vertices is referenced |
| Graphics.FillSceneVertex | code/graphics.h:167-176 | vertex `index` is replaced and the other 23 are kept |
| Graphics.MakeCube | code/graphics.h:199-227 | slot k becomes the unit cube, and every other slot is kept |
| Graphics.UnitCubeCorners | code/graphics.h:199-227 | every unit-cube vertex sits at a corner (±0.5) with its face corner's 0/1 texture coordinate |
| Graphics.UnitCubeFaces | code/graphics.h:199-227 | vertices 4g..4g+3 lie on face g of the cube |
| Graphics.TrianglesLieOnTheirFace | code/graphics.h:179-227 | every triangle of the index pattern lies on the face its slot is for |
| Graphics.TransformCube | code/graphics.h:236-240 | slot k's positions are moved by the model matrix, its texture coordinates kept, and every other slot is kept |
| Graphics.TransformedIdentity | code/graphics.h:236-240 | the identity leaves a cube unchanged |
| Graphics.TransformedComposes | code/graphics.h:236-240 | two transforms in turn are one transform by the product, when the inner one is affine |
| Graphics.MakeQuad | code/graphics.h:133-146 | slot k becomes the screen quad, and every other slot is kept |
| Graphics.ScreenQuadLayout | code/graphics.h:133-146 | the quad is w by h, centred on (x, y), with corners in make_quad's order, 0/1 UVs and texture 0 |
| Text.GlyphAt | code/text.c:48-69 | `get_glyph_quad` as a value: a printable byte's baked box scaled by size and mirrored in y, with the pen advanced; any other byte gives the stale glyph and keeps the pen; partnered by `UnprintableKeepsPen` and `GlyphBoxWellFormed` |
| Text.GlyphCorners | code/text.c:71-90 | the four vertices `make_glyph_quad` writes for a glyph, partnered by `GlyphCornersLayout` |
| Text.UntilNul | code/text.c:109-112 | the bytes before the first NUL, where the loop stops, partnered by `UntilNulPrefix` |
| Text.Visible | code/text.c:103-112 | the bytes `make_text_row` draws: the formatted text cut to the 100-byte message and then to its first NUL, partnered by `VisibleBounded` |
| Text.TextRow | code/text.c:109-118 | the row as a value: for each byte in turn one glyph at the current pen, with a quad appended unless the byte is a space; partnered by `TextRowCount`, `TextRowPenIgnoresStale` and `Text.MakeTextRow` |
| Text.GetGlyphQuad | code/text.c:49-69 | the returned glyph and the new pen are those of `GlyphAt` on the old pen |
| Text.UnprintableKeepsPen | code/text.c:52-67 | a byte outside [32, 128) leaves the pen where it was |
| Text.GlyphBoxWellFormed | code/text.c:52-67 | a well-formed baked box stays well-formed, sized by `size`, with the baked UVs |
| Text.MakeGlyphQuad | code/text.c:72-90 | slot k becomes the glyph's quad, and every other slot is kept |
| Text.GlyphCornersLayout | code/text.c:72-90 | the quad's corners run BL, BR, TR, TL over the box, the atlas box upside down, texture 0 |
| Text.Message | code/text.c:103-107 | the zeroed 100-byte message buffer always ends in a NUL |
| Text.UntilNulPrefix | code/text.c:109-112 | the drawn bytes are the prefix before the first NUL |
| Text.VisibleBounded | code/text.c:103-112 | at most 99 bytes are drawn, and they are the start of the formatted text |
| Text.NonSpaceCountAppend | code/text.c:113-117 | the quad count of a concatenation is the sum of the counts |
| Text.NonSpaceCountBounded | code/text.c:113-117 | a row has no more quads than bytes |
| Text.TextRowCount | code/text.c:109-118 | a row appends one quad per non-space byte |
| Text.TextRowPenIgnoresStale | code/text.c:109-118 | the pen's path never depends on uninitialised glyphs |
| Text.TextRowPrintable | code/text.c:109-118 | a row of printable bytes does not depend on uninitialised glyphs |
| Text.MakeTextRow | code/text.c:99-119 | the quads of the text row are stored from `av` on, `av` and the u32 index count advance by one quad and six indices per quad, the pen ends where the row ends, and the other slots are kept |
| Text.RowStep | code/text.c:109-118 | one pass of the loop keeps it in step with the text row |
| Text.CounterStep | code/text.c:115 | six more on a wrapped u32 counter is the count after one more quad |
| Events.HandleEvents | code/batchman.c:64-154 | `handle_events` on one event: quit adds Close, motion overwrites the deltas, key-up and key-down go to `KeyReleased`/`KeyPressed`, and any other event changes nothing; partnered by `QuitRequestsClose`, `MotionOverwrites`, `KeyDownSetsItsFlag`, `KeyUpClearsItsFlag` and `OnlyMovementIsCleared` |
| Events.KeyReleased | code/batchman.c:92-110 | the key-up switch: W, S, A and D each withdraw their movement request, partnered by `KeyUpClearsItsFlag` |
| Events.KeyPressed | code/batchman.c:112-150 | the key-down switch: R, space, F, Esc, W, S, A and D each add their request, partnered by `KeyDownSetsItsFlag` |
| Events.Fold | code/batchman.c:376-379 | the `SDL_PollEvent` loop: `handle_events` on every queued event in turn, partnered by `FoldAppend`, `CloseIsSticky`, `QuitClosesFrame` and `FoldKeepsLastMotion` |
| Events.FlagsAreDistinctBits | code/batchman.c:55-62 | every `EVENT_*` flag is a single bit, and no two share one, so the mask is the set of its flags |
| Events.Bound | code/batchman.c:112-150 | the key-binding tables read as request sets (a bound key's one request, none for an unbound key): the reference form that `KeyDownSetsItsFlag` and `KeyUpClearsItsFlag` compare the key-down and key-up switches with |
| Events.QuitRequestsClose | code/batchman.c:70-73 | a quit adds the close request and changes nothing else |
| Events.MotionOverwrites | code/batchman.c:75-79 | mouse motion overwrites the deltas and keeps the requests |
| Events.KeyDownSetsItsFlag | code/batchman.c:112-150 | a first press adds exactly its key's bound request (R, space, F, Esc, W, S, A, D) and a repeat changes nothing |
| Events.KeyUpClearsItsFlag | code/batchman.c:92-110 | a release withdraws exactly its movement key's request (W, S, A, D), and a key-up that is not a release changes nothing |
| Events.OnlyMovementIsCleared | code/batchman.c:64-154 | no event withdraws a request other than a movement request |
| Events.CloseIsSticky | code/batchman.c:376-379 | once a close is requested it stays requested for the rest of the poll |
| Events.HeldKeyStaysRequested | code/batchman.c:376-379 | a movement request survives any queue with no release of its key |
| Events.QuitClosesFrame | code/batchman.c:376-384 | a quit or an Escape press anywhere in the queue makes the frame close |
| Events.FoldAppend | code/batchman.c:376-379 | polling one more event is handling it after the rest |
| Events.FoldKeepsLastMotion | code/batchman.c:374-379 | after the poll the deltas are those of the last motion event |
| Frame.Reload | code/batchman.c:386-402 | the hot-reload branch: both new programs are taken if both are nonzero, neither otherwise, and the request is cleared; partnered by `ReloadSwapsBothOrNeither` and `ProgramsStayValid` |
| Frame.ToggleText | code/batchman.c:404-408 | the text-toggle branch: `draw_text` is negated and the request cleared, partnered by `TextToggledOnce` |
| Frame.Moved | code/batchman.c:410-440 | the four movement tests in the source's order, each adding or subtracting the forward or strafe step; partnered by `MovedDisplacement`, `OppositeKeysCancel` and `StrafeIsSideways` |
| Frame.FrontOf | code/batchman.c:457-461 | the view direction (cos yaw · cos pitch, sin pitch, sin yaw · cos pitch), partnered by `FrontIsUnit` |
| Frame.Looked | code/batchman.c:442-462 | yaw and pitch reduced by 0.1 · the mouse motion, the pitch clamped, and the front recomputed; partnered by `ClampPitch` and `Frame.App.Look` |
| Frame.Consume | code/batchman.c:381-408 | the loop breaks out exactly when a close is pending |
| Frame.CloseStopsFrame | code/batchman.c:381-384 | a close sets running to false and breaks before anything else; otherwise running is kept |
| Frame.ReloadSwapsBothOrNeither | code/batchman.c:386-402 | a hot reload takes both new programs if both compiled and neither otherwise, and is consumed |
| Frame.ProgramsStayValid | code/batchman.c:386-402 | valid (nonzero) programs stay valid whatever the compiler returns |
| Frame.TextToggledOnce | code/batchman.c:404-408 | each text request flips draw_text exactly once and is consumed |
| Frame.ConsumeKeepsTheRest | code/batchman.c:381-408 | apart from the two consumed requests, the record, camera and running flag are unchanged |
| Frame.OppositeSteps | code/batchman.c:413-439 | a step forward for one key and back for its opposite is one step of the net direction |
| Frame.MovedDisplacement | code/batchman.c:410-440 | only the position moves, by the forward step times the W/S net plus the side step times the A/D net |
| Frame.OppositeKeysCancel | code/batchman.c:410-440 | holding opposite keys leaves the camera where it was |
| Frame.StrafeIsSideways | code/batchman.c:426-439 | the strafe step is orthogonal to the view direction and to up |
| Frame.ClampPitch | code/batchman.c:450-455 | the pitch ends in [-89, 89], in-range values are kept, and values above or below go to the nearest limit |
| Frame.ClampIdempotent | code/batchman.c:450-455 | clamping twice is clamping once |
| Frame.FrontIsUnit | code/batchman.c:457-461 | with sin² + cos² = 1 the new view direction is a unit vector |
| Frame.App.constructor | code/batchman.c:347-367 | the loop starts running with text on, no requests, zero deltas and the initial camera |
| Frame.App.Poll | code/batchman.c:372-379 | the deltas are zeroed and the queue folded into the record; the deltas end as the last motion's |
| Frame.App.ConsumeRequests | code/batchman.c:381-408 | the state and the break flag are those of `Consume` |
| Frame.App.MoveCamera | code/batchman.c:410-440 | the camera becomes `Moved` for the held requests at speed 0.01·dt, and the rest is kept |
| Frame.App.Look | code/batchman.c:442-462 | the camera becomes `Looked` for the frame's deltas, and the pitch is within ±89 |
| Frame.App.Step | code/batchman.c:372-462 | one iteration is poll, consume and, unless it breaks, move and turn |
| Scene.ModelOf | code/batchman.c:521-525 | cube i's model matrix: translate to its lattice position, scale by one, rotate by rot + i degrees about the axis; partnered by `CubeCentreOnLattice` |
| Scene.LatticeLocals | code/batchman.c:498-502 | the loop's locals start with m_pos at (x_begin, 0, 0), the axis (1, 0.3, 0.5) and the unit scale, that is, on the cell before cube 0 |
| Scene.PlaceCubesAs | code/batchman.c:506-529 | the lattice loop itself: with m_pos on the cell before cube i, iteration i places cube i, so after the loop slots 0 to 2049 hold the frame's cubes |
| Scene.HudRows | code/batchman.c:560-568 | the three HUD rows: the FPS text at (-w, -h + 100) and the two hints at (-w, h - 16) and (-w, h - 116), partnered by `Scene.DrawHudText` |
| Scene.TextIndexInQuad | code/batchman.c:240-252 | each quad's six indices name only its own four vertices, as (0, 1, 2), (2, 3, 0) |
| Scene.FillTextIndices | code/batchman.c:240-252 | index t of quad q is 4q + corner(t), and every index is below 4·HUD_MAX_QUAD_COUNT, so the u32 offset never wraps |
| Scene.FillElementsFrom | code/batchman.c:281-284 | (as written) from the counter's first value on, slot k holds cube k's indices, and every slot before it keeps the buffer's earlier contents |
| Scene.UninitialisedCounterSkipsCubes | code/batchman.c:282 | a counter that starts at 1 leaves cube 0's indices unwritten |
| Scene.FillSceneElements | code/batchman.c:281-284 | (corrected) from 0, every slot k holds cube k's indices |
| Scene.SceneElementsInRange | code/batchman.c:505-536 | every drawn scene index names a vertex of its own cube, below 24·SCENE_MAX_CUBES |
| Scene.StepPosOnCells | code/batchman.c:509-520 | updating m_pos is updating the integer lattice cell |
| Scene.Digits | code/batchman.c:507-520 | cube 100a + 10b + c sits at x-step c, layer a + 1, row b |
| Scene.CellStep | code/batchman.c:507-520 | the loop's running update of m_pos reaches cube i's cell at iteration i |
| Scene.LatticeStep | code/batchman.c:498-520 | m_pos at iteration i is cube i's lattice position |
| Scene.Recompose | code/batchman.c:507-520 | a cube number is recovered from its cell |
| Scene.CellInjective | code/batchman.c:507-520 | distinct cubes have distinct cells |
| Scene.LatticeInjective | code/batchman.c:498-520 | no two cubes share a position |
| Scene.CubeCentreOnLattice | code/batchman.c:522-525 | the model matrix puts the cube's centre on its lattice position; the rotation turns it in place |
| Scene.AdvancePos | code/batchman.c:509-520 | the three m_pos updates of iteration i |
| Scene.PlaceCube | code/batchman.c:522-528 | slot i becomes the unit cube moved by its translate-scale-rotate model matrix, other slots kept |
| Scene.LatticeIteration | code/batchman.c:507-529 | one iteration moves m_pos to cube i's position and places cube i |
| Scene.PlaceCubes | code/batchman.c:498-529 | after the loop every slot i holds cube i of the frame |
| Scene.RowQuadsBounded | code/text.c:103-117 | a row appends fewer than 100 quads |
| Scene.HudRow | code/batchman.c:560-568 | a row set to its start pen is appended after the quads already written, the index count is six per quad, and every later slot keeps its old contents |
| Scene.DrawHudText | code/batchman.c:541-576 | the three rows' quads are stored back to back from slot 0, at most 297 of them, the index count is exactly six per quad, the drawn indices name only the written quads' vertices, and every slot from `quads` on keeps its old contents |
| Scene.HudIndicesInRange | code/batchman.c:576 | the first 6·n HUD indices name vertices of the first n quads only |

## Left out

- OpenGL, SDL, stb_truetype and file I/O are not part of this model. This covers shader loading
  and compiling, textures, vertex arrays, buffer uploads, the draw calls, window creation, vsync
  and the GL debug callback. A recompiled shader program is a parameter (`newText`, `newScene`)
  whose value 0 means failure. A queue of SDL events is a parameter of the poll.
- `stbtt_GetBakedQuad` is the font's `baked` function field. `vsnprintf` is represented by its
  output, the formatted message, passed to `MakeTextRow`. `create_font`, `create_font_atlas`
  and `free_font` are left out: they only call stb and allocate.
- `Text.GlyphAt`: for a byte outside [32, 128), `get_glyph_quad` returns its uninitialised local
  `g`. The model takes that glyph as a parameter (`stale`, one per message position), so every
  property holds for any such contents.
- `sinf`, `cosf`, `tanf`, `sqrtf` and the C `sin`/`cos` the loop calls are the fields of a
  `Libm` value. Float rounding, inf and NaN are not modelled; floats are reals, so
  `Linear.NormalizeUnit` and `Frame.FrontIsUnit` hold only for an exact square root and an exact
  sin² + cos² = 1, which they state as preconditions.
- Bmath.Mat4Ortho, Bmath.Mat4Perspective, Linear.Ortho and Linear.Perspective require nonzero
  ranges (right ≠ left, top ≠ bottom, far ≠ near, tan(fov/2) ≠ 0, aspect ≠ 0), because a real
  division by zero has no value. The C code would produce inf or NaN entries. A real input
  reaches that case: a zero-sized viewport (for example a minimised window) gives w = 0 or h = 0
  at code/batchman.c:469-470. Then `mat4_ortho(-w, w, -h, h, …)` at line 556 divides by zero,
  and the aspect `w / h` passed to `mat4_perspective` at line 485 is 0, inf or NaN. The model
  says nothing about the matrices of such a frame.
- Bmath.Mat4Mulv4: the SSE intrinsics are modelled by their arithmetic. `_mm_load_ps` and
  `_mm_store_ps` need 16-byte aligned operands, but `mat4` and `vec4` are plain `f32` arrays with
  4-byte alignment. This includes the local `vec4 res` that `mat4_mulv3` passes in. The model
  assumes aligned operands and does not capture that hazard. `Bmath.SseOrder` shows
  that the SSE accumulation order gives the same vector over the reals.
- Graphics.FillCubeElements requires 24·offset + 23 to fit an i32, because signed overflow is
  undefined in C. Every caller passes an offset below 2050.
- Text.MakeTextRow requires the row's quads to fit the buffer after `av`, because `quad_arr` is
  written without a bound check. `Scene.DrawHudText` shows that the three HUD rows always fit.
  `av_vertice` is an `i32` modelled as an unbounded integer; it never exceeds 297.
- Scene.FillElementsFrom takes the counter's indeterminate first value as a `nat`. A negative
  value would write before the array, which the model does not represent.
- The `EVENT_*` mask is modelled as the set of its flags (`+ {F}` for `|= F`, `- {F}` for
  `&= ~F`). `Events.FlagsAreDistinctBits` is what makes the two agree.
- `EVENT_MODE_CHANGE` is set by the space key but never consumed by the loop (it stays pending).
  The model keeps it that way (`Frame.ConsumeKeepsTheRest`).
- `SDL_WINDOWEVENT` only resizes the GL viewport, so in the model it leaves the record unchanged.
- The frame timing (performance counter, fps, dt) is not modelled: dt is a parameter of
  `Frame.App.Step`, and the FPS text is a parameter of `Scene.DrawHudText`. The rotation
  accumulator `rot += dt * 0.1` is a parameter of `Scene.PlaceCubes`.
- The per-frame projection and view matrices (`mat4_perspective`, `mat4_look_at`, `mat4_mul`,
  `mat4_ortho`) are computed by the `Bmath` methods above. Their assembly in the draw section is
  not a separate member.
- The `mat3` routines are modelled as values and methods, but nothing in the core calls them.

## Findings

| source | as written | input that shows it | evidently intended | confidence | as-written member | corrected member |
|---|---|---|---|---|---|---|
| code/batchman.c:282 | `for(i32 i; i<SCENE_MAX_CUBES; ++i)` declares the loop counter without an initial value, so the element buffer is filled from whatever value `i` holds | a counter that happens to hold 1: cube 0's 36 indices are never written, and a zeroed stack buffer draws cube 0 as 36 references to vertex 0 | `for(i32 i = 0; ...)`, so that every cube k gets the indices 24k .. 24k + 23 | not executed | Scene.FillElementsFrom, Scene.UninitialisedCounterSkipsCubes | Scene.FillSceneElements, Scene.SceneElementsInRange |
