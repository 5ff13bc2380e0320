# Acun3D in Dafny

A model of the software 3D renderer Acun3D and of the demo scene graph built
on it. It covers:

- **The scan converter** (`Rasteriser`):
  - `setTarget`, `beginScene` and `setPixel`;
  - Bresenham `drawLine`;
  - the integer skeleton shared by the four `drawTriangle` overloads: 28.4
    fixed-point half-space edge functions, the top-left fill-rule bias, the
    clamped bounding box, accumulators that are only added to or subtracted
    from, the per-pixel depth test and the three-byte colour write.
- **The renderer's matrix-stack state machine** (`Renderer`):
  - world, view and projection stacks with a current-stack pointer;
  - `draw`'s depth cull, material fallback and state restore;
  - the per-triangle cull and backface predicates.
- **The generic matrix** `Matrix<T, M, N>`: checked indexing, builders, and the
  element-wise and product operators, with their quirks as written.
- **MD2 animation and lighting:** the `setAnimation`/`animate` frame state
  machine, and the sum-then-clamp shape of vertex lighting.
- **Value types:** `Colour`, `Vector` and `Vertex`.
- **The scene graph:** `SceneNode`, `TransformNode`, `RotatingNode`,
  `TranslatingNode`, `PulseNode`, `Camera`, and the demo base class `Demo`.

Modules, one per file:

| file | module | models |
|---|---|---|
| `wrappers.dfy` | `Wrappers` | `Option` and `Result` |
| `matrix.dfy` | `Matrices` | `Matrix.h`: values as `seq<seq<real>>`; class `Matrix` over an `array2<real>` |
| `colour.dfy` | `Colours` | `Colour.cpp` |
| `vector.dfy` | `Vectors` | `Vector.cpp`: the 4 x 1 column as an `array<real>` |
| `vertex.dfy` | `Vertices` | `Vertex.cpp`: a vector plus a normal |
| `raster.dfy` | `Raster` | the value-level parts of `Rasteriser.cpp`: pixels, depths, edge functions, bounding box, the line walk |
| `rasteriser.dfy` | `Rasterisers` | class `Rasteriser`: `pixels: array<Pixel>`, `depth: array<Depth>` |
| `md2.dfy` | `Md2` | `MD2_Model.cpp`: lights, lighting, the animation record |
| `renderer.dfy` | `Renderers` | `Renderer.cpp`: stacks, the call trace, class `Renderer` |
| `scene.dfy` | `Scenes` | the scene-node classes |
| `camera.dfy` | `Cameras` | `Camera.cpp` |
| `demo.dfy` | `Demos` | `TestProject/Demo.cpp` |

How the model represents the source:

- **Numbers.** Floats are `real`. The source's `int`s are unbounded `int`s.
- **Rotation matrices.** These come from trigonometry, so they stay symbolic.
  A `MatrixTerm` is `Literal(m)`, `Rotation(axis, angle)` or `Times(a, b)`.
  `Eval` evaluates a term under a caller-supplied rotation builder
  `rot: (Axis, real) -> Mat4`. Statements about rotations therefore hold for
  every rotation builder.
- **Renderer calls.** Scene nodes call the renderer. Each node's `Traverse`
  returns those calls as a trace `seq<Call>`. `Renderers.Apply` and
  `Renderers.Run` give a trace its meaning on a `RenderState`, and the
  `Renderer` class's methods are proved against `Apply`. A child's own drawing
  appears in the trace as one `DrawChild(i, time)` event.
- **Inheritance.** C++ inheritance becomes composition: `TransformNode.node`,
  and `base` in the animated nodes. A child list holds each child's
  `SceneNode` part.
- **Triangle draws.** They take the vertices already snapped to 28.4 fixed
  point, plus the per-pixel depth (`z: (int, int) -> real`) and colour bytes
  (`(int, int) -> Bytes`), as inputs. The source computes these last two in
  floating point.

## Model

| member | source | states |
|---|---|---|
| Matrices.Matrix.constructor | Acun3D/Matrix.h:92-96 | The default constructor gives the M x N zero matrix. |
| Matrices.Matrix.FromArgs | Acun3D/Matrix.h:98-116 | The varargs constructor sets row-major entry k to the k-th int argument (as a real) for k < min(argc, M*N); every other entry is 0. |
| Matrices.Matrix.Copy | Acun3D/Matrix.h:118-122 | The copy constructor gives fresh storage with the same value. |
| Matrices.Matrix.CreateZero | Acun3D/Matrix.h:130-134 | `createZero` is the zero matrix. |
| Matrices.Matrix.CreateIdentity | Acun3D/Matrix.h:136-150 | `createIdentity` has 1 at (i, i) for i < min(M, N) and 0 everywhere else. |
| Matrices.Matrix.CreatePerspective | Acun3D/Matrix.h:153-164 | `createPerspective(d)` has d at (0,0), (1,1), (2,2), 1 at (3,2), and 0 elsewhere. |
| Matrices.Matrix.CreateTranslation | Acun3D/Matrix.h:225-235 | `createTranslation(x, y, z)` is the identity with column 3 set to (x, y, z, 1). |
| Matrices.Matrix.CreateScale | Acun3D/Matrix.h:237-248 | `createScale(x, y, z)` is diag(x, y, z, 1). |
| Matrices.Matrix.Get | Acun3D/Matrix.h:300-309 | Reading (m, n) gives `Ok` of the entry exactly when 0 <= m < M and 0 <= n < N, and `Err(MatrixIndexException)` otherwise. |
| Matrices.Matrix.Set | Acun3D/Matrix.h:289-298 | Writing through `operator()` succeeds iff the index is in range. It then changes exactly entry (m, n); out of range the matrix is unchanged and the exception is returned. |
| Matrices.Matrix.Assign | Acun3D/Matrix.h:311-317 | `operator=` copies every entry of the right operand. |
| Matrices.Matrix.AddAssign | Acun3D/Matrix.h:319-328 | `+=` makes the matrix the element-wise sum. |
| Matrices.Matrix.SubAssign | Acun3D/Matrix.h:350-359 | `-=` makes the matrix the element-wise difference. |
| Matrices.Matrix.Add | Acun3D/Matrix.h:330-337 | Binary `+` returns a fresh matrix holding the sum of the two operands. |
| Matrices.Matrix.Subtract | Acun3D/Matrix.h:361-368 | Binary `-` returns a fresh matrix holding the difference. |
| Matrices.Matrix.Negate | Acun3D/Matrix.h:339-348 | As written, unary `-` returns the zero matrix whatever the operand. |
| Matrices.Matrix.RowTimesColumn | Acun3D/Matrix.h:402-409 | The inner loop of `*` accumulates the dot product of row y with column x. |
| Matrices.Matrix.ProductRow | Acun3D/Matrix.h:400-410 | One row of `*`: row y of the result is set to the product row, and every other row is unchanged. |
| Matrices.Matrix.Mul | Acun3D/Matrix.h:392-414 | `*` returns a fresh matrix equal to the mathematical product, entry (y, x) = sum over i of a(y, i) * b(i, x). |
| Matrices.Matrix.MulAssignRow | Acun3D/Matrix.h:375-386 | One row of `*=`: each entry is overwritten left to right, and later entries of the row read the already-updated ones. |
| Matrices.Matrix.MulAssign | Acun3D/Matrix.h:370-390 | `*=` with a distinct right operand leaves the matrix equal to the in-place overwrite `MulAssignAsWritten`. |
| Matrices.Matrix.SelfAssignEntry | Acun3D/Matrix.h:377-385 | One entry of `m *= m`: the row times the column of the matrix as it stands is stored at (y, x), which is one step of `SelfAssigned`. |
| Matrices.Matrix.MulAssignSelf | Acun3D/Matrix.h:370-390 | `m *= m` on a square matrix leaves `SelfAssigned(old, N, N*N)`: each entry, in storage order, is computed from a row and a column that may already hold overwritten entries. |
| Matrices.SelfAssignedKeepsRest | Acun3D/Matrix.h:373-387 | Partway through `m *= m`, every entry not yet reached in storage order still holds its original value. |
| Matrices.MulAssignSelfIsNotCopy | Acun3D/Matrix.h:370-390 | Counterexample: the all-ones 2 x 2 matrix `*=` itself gives ((2, 3), (3, 10)), while `*=` with a distinct copy gives ((2, 3), (2, 3)). |
| Matrices.IdentityEntries | Acun3D/Matrix.h:136-150 | The identity has 1 on the diagonal and 0 off it. |
| Matrices.IdentityNeutral | Acun3D/Matrix.h:392-414 | The product with the identity on either side is the other operand. |
| Matrices.MulAssignFirstColumn | Acun3D/Matrix.h:370-390 | Column 0 of `*=`'s result always equals the true product entry. |
| Matrices.MulAssignIsNotProduct | Acun3D/Matrix.h:370-390 | Counterexample: [[1,1]] `*=` the all-ones 2 x 2 matrix gives [[2,3]], while the product is [[2,2]]. |
| Matrices.NegateAsWrittenDiffers | Acun3D/Matrix.h:339-348 | For any matrix with a non-zero entry, the element-wise negation is not the zero matrix that unary `-` returns. |
| Matrices.NegatedIsInverse | Acun3D/Matrix.h:339-348 | The corrected negation is the additive inverse: a + (-a) is zero. |
| Matrices.SumDifference | Acun3D/Matrix.h:319-368 | `+` commutes, and `-` undoes `+`. |
| Colours.Colour.constructor | Acun3D/Colour.cpp:5-8 | The constructor stores r, g, b into the r, g, b channels. |
| Colours.Colour.SetColour | Acun3D/Colour.cpp:20-25 | `setColour` replaces the three channels, each from its own argument. |
| Colours.Colour.Clamp | Acun3D/Colour.cpp:27-35 | `clamp(f)` makes the colour `Clamped(old, f)`: each channel above f is lowered to f. |
| Colours.Colour.AddAssign | Acun3D/Colour.cpp:37-44 | `+=` adds channel by channel. |
| Colours.Colour.SubAssign | Acun3D/Colour.cpp:54-61 | `-=` subtracts channel by channel. |
| Colours.Colour.MulAssign | Acun3D/Colour.cpp:81-88 | `*=` by a colour multiplies channel by channel. |
| Colours.Colour.MulAssignScalar | Acun3D/Colour.cpp:90-97 | `*=` by a float scales every channel. |
| Colours.Colour.DivAssign | Acun3D/Colour.cpp:115-122 | `/=` by a colour divides channel by channel. |
| Colours.Colour.DivAssignScalar | Acun3D/Colour.cpp:124-131 | `/=` by a float divides every channel. |
| Colours.Colour.Add | Acun3D/Colour.cpp:46-52 | Binary `+` returns a fresh colour holding the sum; it does not modify the left operand. |
| Colours.Colour.Subtract | Acun3D/Colour.cpp:63-69 | Binary `-` returns a fresh colour holding the difference. |
| Colours.Colour.Multiply | Acun3D/Colour.cpp:99-105 | Binary `*` by a colour returns a fresh channel-wise product. |
| Colours.Colour.MultiplyScalar | Acun3D/Colour.cpp:107-113 | Binary `*` by a float returns a fresh scaled colour. |
| Colours.Colour.Divide | Acun3D/Colour.cpp:133-139 | Binary `/` by a colour returns a fresh channel-wise quotient. |
| Colours.Colour.DivideScalar | Acun3D/Colour.cpp:141-147 | Binary `/` by a float returns a fresh colour with every channel divided. |
| Colours.Colour.Negate | Acun3D/Colour.cpp:71-79 | Unary `-` returns a fresh colour with each of the three channels negated. |
| Colours.ClampedBound | Acun3D/Colour.cpp:27-35 | After `clamp(f)` every channel is at most f. Channels already at most f, negatives included, are unchanged, and the colour is unchanged iff all channels are at most f. |
| Colours.ClampedIdempotent | Acun3D/Colour.cpp:27-35 | Clamping twice with the same bound is clamping once. |
| Colours.ClampedMonotone | Acun3D/Colour.cpp:27-35 | Clamping to f and then to f' <= f is clamping to f'. |
| Colours.PlusMinus | Acun3D/Colour.cpp:37-79 | `-` undoes `+` and `+` undoes `-`. Negation is subtraction from black, and negating twice gives back the colour. |
| Colours.ScaledDividedBy | Acun3D/Colour.cpp:90-131 | Dividing by a non-zero factor undoes scaling by it, for both the float and the colour forms. |
| Vectors.Vector.constructor | Acun3D/Vector.cpp:5-8 | `Vector()` is the zero column. |
| Vectors.Vector.XYZ | Acun3D/Vector.cpp:10-16 | `Vector(x, y, z)` stores x, y, z and sets w to 0. |
| Vectors.Vector.Assign | Acun3D/Vector.cpp:18-23 | `operator=` copies all four components. |
| Vectors.Vector.GetX | Acun3D/Vector.cpp:95-98 | `getX` returns component 0. |
| Vectors.Vector.SetX | Acun3D/Vector.cpp:100-103 | `setX` changes exactly the x component. |
| Vectors.Vector.GetY | Acun3D/Vector.cpp:105-108 | `getY` returns component 1. |
| Vectors.Vector.SetY | Acun3D/Vector.cpp:110-113 | `setY` changes exactly the y component. |
| Vectors.Vector.GetZ | Acun3D/Vector.cpp:115-118 | `getZ` returns component 2. |
| Vectors.Vector.SetZ | Acun3D/Vector.cpp:120-123 | `setZ` changes exactly the z component. |
| Vectors.Vector.Add | Acun3D/Vector.cpp:32-41 | Binary `+` returns a fresh vector whose x, y, z are the sums and whose w is 0. |
| Vectors.Vector.Negate | Acun3D/Vector.cpp:43-52 | Unary `-` negates x, y, z into a fresh vector with w 0. |
| Vectors.Vector.Subtract | Acun3D/Vector.cpp:54-63 | Binary `-` gives the differences of x, y, z, with w 0. |
| Vectors.Vector.MultiplyScalar | Acun3D/Vector.cpp:65-74 | `*` by a float scales x, y, z, with w 0. |
| Vectors.Vector.DivideScalar | Acun3D/Vector.cpp:76-85 | `/` by a float divides x, y, z, with w 0. |
| Vectors.Vector.DivAssign | Acun3D/Vector.cpp:87-93 | `/=` divides all four components, w included. |
| Vectors.Vector.DotWith | Acun3D/Vector.cpp:125-128 | `dot` is x*x' + y*y' + z*z'. |
| Vectors.Vector.CrossWith | Acun3D/Vector.cpp:130-139 | `cross` returns a fresh vector given by the component formula, with w 0. |
| Vectors.TransformRow | Acun3D/Vector.cpp:175-184 | Row y of matrix x vector is zeroed and then accumulates row y of the matrix times the column; the other rows are unchanged. |
| Vectors.Transform | Acun3D/Vector.cpp:169-188 | Matrix x vector is the full four-row product, the w row included (`MatVec`). |
| Vectors.PlusMinus | Acun3D/Vector.cpp:32-63 | `-` undoes `+` on x, y, z, `+` commutes, and both produce w = 0. |
| Vectors.NegationTwice | Acun3D/Vector.cpp:43-63 | Unary `-` is subtraction from the zero vector; negating twice keeps x, y, z and clears w. |
| Vectors.ScaledDivided | Acun3D/Vector.cpp:65-93 | `/` undoes `*` on x, y, z. `/=` also divides w. The two divisions agree iff w is 0. |
| Vectors.Dot3Properties | Acun3D/Vector.cpp:125-128 | `dot` ignores w, is symmetric, and is non-negative on a vector with itself. |
| Vectors.CrossOrthogonal | Acun3D/Vector.cpp:130-139 | In exact arithmetic, the cross product has zero dot with both operands and anticommutes. |
| Vectors.MatVecEntries | Acun3D/Vector.cpp:169-188 | Each of the four result rows is the sum over all four columns, w included. |
| Vectors.MatVecIsProduct | Acun3D/Vector.cpp:169-188 | Matrix x vector equals the generic matrix product on the 4 x 1 column. |
| Vectors.MatVecIdentity | Acun3D/Vector.cpp:169-188 | The identity leaves a vector unchanged. |
| Vectors.MatVecTranslation | Acun3D/Vector.cpp:169-188 | A translation moves a point with w = 1 and leaves a direction with w = 0 in place. |
| Vertices.Vertex.constructor | Acun3D/Vertex.cpp:5-9 | `Vertex()` has zero coordinates and a zero normal. |
| Vertices.Vertex.XYZ | Acun3D/Vertex.cpp:11-15 | `Vertex(x, y, z)` has w = 0 and a zero normal. |
| Vertices.Vertex.Copy | Acun3D/Vertex.cpp:37 | The implicit copy (`Vertex v = *this`) copies the four coordinates and the normal. |
| Vertices.Vertex.GetNormal | Acun3D/Vertex.cpp:17-20 | `getNormal` returns a fresh vector equal to the stored normal. |
| Vertices.Vertex.SetNormal | Acun3D/Vertex.cpp:22-25 | `setNormal` replaces the normal and leaves the coordinates unchanged. |
| Vertices.Vertex.Assign | Acun3D/Vertex.cpp:27-33 | `operator=` copies all four coordinates and the normal. |
| Vertices.Vertex.Add | Acun3D/Vertex.cpp:35-44 | `+` combines x, y, z and keeps the left operand's w and normal. |
| Vertices.Vertex.Subtract | Acun3D/Vertex.cpp:46-55 | `-` combines x, y, z and keeps the left operand's w and normal. |
| Vertices.Vertex.Negate | Acun3D/Vertex.cpp:57-66 | Unary `-` gives negated x, y, z, w = 0 and a zero normal. |
| Vertices.Vertex.MultiplyScalar | Acun3D/Vertex.cpp:68-78 | `*` scales all four coordinates, w included, and gives a zero normal. |
| Vertices.Vertex.DivideScalar | Acun3D/Vertex.cpp:99-108 | `/` divides x, y, z and gives w = 0 and a zero normal. |
| Vertices.Vertex.DivAssign | Acun3D/Vertex.cpp:110-116 | `/=` divides all four coordinates and keeps the normal. |
| Vertices.TransformVertex | Acun3D/Vertex.cpp:80-97 | Matrix x vertex replaces the four coordinates with the product and keeps the right operand's normal. |
| Vertices.VPlusMinus | Acun3D/Vertex.cpp:35-55 | Because `+` and `-` keep the left w and normal, they undo each other exactly. |
| Vertices.VPlusAgreesWithVector | Acun3D/Vertex.cpp:35-44 | Vertex `+` agrees with vector `+` on x, y, z, but keeps w where the vector sum clears it. |
| Vertices.VScaledDivided | Acun3D/Vertex.cpp:68-116 | `/=` undoes `*` on all four coordinates, while `/` loses w. Both leave a zero normal. |
| Vertices.VNegationTwice | Acun3D/Vertex.cpp:57-66 | Negating twice gives back x, y, z with w 0 and a zero normal. |
| Vertices.VTransformIdentity | Acun3D/Vertex.cpp:80-97 | The identity leaves a vertex, normal included, unchanged. |
| Raster.MakePixelBytes | Acun3D/Pixel.h:8-12 | `Pixel(r, g, b, a)` stores the low byte of each argument, in memory order b, g, r, a. The clear colour is (255, 255, 255, 0). |
| Raster.WrittenKeepsPadding | Acun3D/Rasteriser.cpp:333-335 | A pixel write changes only bytes 0-2 and never the padding byte. It is idempotent, and it keeps only the low byte of each int. |
| Raster.DepthNeverIncreases | Acun3D/Rasteriser.cpp:288-290 | After the depth test the stored depth is either unchanged or z, and never larger than before. |
| Raster.StrictDiffersOnlyAtEqualDepth | Acun3D/Rasteriser.cpp:831-833 | The strict test (`>`) implies the non-strict one (`>=`). They differ exactly when the stored depth equals z, and +infinity always passes. |
| Raster.MinMaxProperties | Acun3D/Rasteriser.cpp:39-61 | `min`/`max` of three are lower/upper bounds of the three and equal one of them. |
| Raster.ClampProperties | Acun3D/Rasteriser.cpp:63-72 | For lo <= hi, `clamp` lands in [lo, hi], leaves in-range values alone (iff), and is idempotent. |
| Raster.TexelClampInRange | Acun3D/Rasteriser.cpp:540-547 | The texel clamp equals `clamp(n, 0, size-1)`, so a texel index is always within the texture. |
| Raster.CheckStep | Acun3D/Rasteriser.cpp:339-359 | One column right subtracts `fdx = 16*dx` and one row down adds `fdy = 16*dy`, so the increments keep the closed form. |
| Raster.ReversedEdge | Acun3D/Rasteriser.cpp:230-236 | Reversing an edge negates its half-space function. For distinct endpoints, exactly one direction gets the fill-rule bias. |
| Raster.SharedEdgeExactlyOne | Acun3D/Rasteriser.cpp:230-236 | For an edge shared with opposite orientation, every pixel passes the `> 0` test for exactly one of the two directions. |
| Raster.InsideRotation | Acun3D/Rasteriser.cpp:280-282 | Coverage does not depend on which vertex of the triangle comes first. |
| Raster.SharedEdgeNoDoubleClaim | Acun3D/Rasteriser.cpp:280-282 | Two triangles sharing an edge with opposite orientation never both cover a pixel. |
| Raster.BoxOnScreen | Acun3D/Rasteriser.cpp:210-223 | Every pixel the loops visit satisfies 0 <= x < width-1 and 0 <= y < height-1, so its buffer index is in range. |
| Raster.DrawnDepthNeverIncreases | Acun3D/Rasteriser.cpp:288-290 | After a triangle draw no depth entry has increased and no padding byte has changed. |
| Raster.DrawnWithoutTarget | Acun3D/Rasteriser.cpp:182 | A draw with no pixel buffer leaves both buffers unchanged. |
| Raster.StepStaysOnSegment | Acun3D/Rasteriser.cpp:123-135 | Each Bresenham step stays within the segment's extent and makes progress, which gives termination. |
| Raster.ErrStep | Acun3D/Rasteriser.cpp:123-135 | An x step subtracts dy from `err` and a y step adds dx. |
| Raster.AtEnd | Acun3D/Rasteriser.cpp:120-121 | The walk is at (x2, y2) exactly when both step counts are complete. |
| Raster.Walk | Acun3D/Rasteriser.cpp:116-136 | The walk from a position starts by plotting that position. |
| Raster.WalkEnds | Acun3D/Rasteriser.cpp:116-121 | The last point plotted is (x2, y2). |
| Raster.WalkStopsAtEnd | Acun3D/Rasteriser.cpp:116-121 | No point before the last one is (x2, y2), so the loop stops right after plotting it. |
| Raster.WalkAdjacent | Acun3D/Rasteriser.cpp:123-135 | Consecutive points differ by at most 1 in x and in y, and each step moves. |
| Raster.WalkInBox | Acun3D/Rasteriser.cpp:96-137 | Every point lies in the segment's bounding box. |
| Raster.WalkLength | Acun3D/Rasteriser.cpp:96-137 | The walk has between max(dx, dy)+1 and dx+dy+1 points. |
| Raster.LineProperties | Acun3D/Rasteriser.cpp:96-137 | `drawLine`'s points: first (x1, y1), last (x2, y2) and only there, adjacent steps, inside the box, and a bounded count. |
| Rasterisers.Rasteriser.constructor | Acun3D/Rasteriser.cpp:19-23 | `Rasteriser()` has no pixel buffer and empty buffers. |
| Rasterisers.Rasteriser.WithTarget | Acun3D/Rasteriser.cpp:25-31 | The three-argument constructor is `setTarget` on a fresh rasteriser. |
| Rasterisers.Rasteriser.SetPixel | Acun3D/Rasteriser.cpp:33-37 | `setPixel` writes `Pixel(colour)` at y*width+x iff 0 <= x < width and 0 <= y < height; otherwise the buffer is unchanged. |
| Rasterisers.Rasteriser.SetTarget | Acun3D/Rasteriser.cpp:74-85 | `setTarget` allocates a fresh depth buffer of exactly width*height entries. It clears every depth to +infinity and the first width*height pixels to (255, 255, 255, 0), and leaves the rest of the buffer unchanged. |
| Rasterisers.Rasteriser.BeginScene | Acun3D/Rasteriser.cpp:90-94 | `beginScene` sets the first width*height pixels to the colour and every depth to +infinity. |
| Rasterisers.Rasteriser.DrawLine | Acun3D/Rasteriser.cpp:96-137 | `drawLine` leaves the buffer equal to `setPixel` applied along `LinePoints`, in order. |
| Rasterisers.Rasteriser.Shade | Acun3D/Rasteriser.cpp:288-335 | One covered pixel: depth-tested against its old depth and, if it passed, depth set to z and bytes 0-2 written. Nothing else changes. |
| Rasterisers.Rasteriser.FillRow | Acun3D/Rasteriser.cpp:278-343 | The column loop from accumulators at the closed-form value: exactly the covered pixels of the row are shaded, and nothing else changes. |
| Rasterisers.Rasteriser.Scan | Acun3D/Rasteriser.cpp:263-360 | The row loop over the bounding box leaves the buffers `Drawn`. |
| Rasterisers.Rasteriser.Fill | Acun3D/Rasteriser.cpp:182-236 | Setup (edge coefficients, box, initial accumulators, bias) then the scan. A draw with no pixel buffer changes nothing. |
| Rasterisers.Rasteriser.DrawTriangle | Acun3D/Rasteriser.cpp:178-369 | The Gouraud overload: covered pixels are depth-tested with the strict test, with the given colour. |
| Rasterisers.Rasteriser.DrawTriangleTextured | Acun3D/Rasteriser.cpp:377-704 | The textured overload: strict test, and the colour comes from a clamped texel lookup. |
| Rasterisers.Rasteriser.DrawTriangleLit | Acun3D/Rasteriser.cpp:709-928 | The lit overload: non-strict test (`>=`), with the given light colour. |
| Rasterisers.Rasteriser.DrawTriangleLitTextured | Acun3D/Rasteriser.cpp:933-1284 | The lit textured overload: non-strict test, with a clamped texel lookup. |
| Rasterisers.InitialCheck | Acun3D/Rasteriser.cpp:226-228 | The source's initial accumulator expression equals the closed-form edge function plus bias at (minX, minY). |
| Md2.CalculateLights | Acun3D/MD2_Model.cpp:183-195 | `calculateLights` adds the per-light terms in list order to (0,0,0) and clamps to 1. Every channel is <= 1, and an empty list gives black. |
| Md2.AmbientIgnoresSurface | Acun3D/MD2_Model.cpp:209-217 | An ambient light contributes colour * intensity, independent of position and normal. |
| Md2.SpotFactorRange | Acun3D/MD2_Model.cpp:224-240 | The spot factor is never negative, is 0 below cos(fov), and is the powered dot inside the cone when that is non-negative. |
| Md2.SpotOutsideConeIsDark | Acun3D/MD2_Model.cpp:224-240 | A spotlight contributes black outside its cone. |
| Md2.DiffuseRange | Acun3D/MD2_Model.cpp:261-263 | The half-Lambert term lies in [0, 1] when the cosine does. |
| Md2.LightNonNegative | Acun3D/MD2_Model.cpp:197-284 | A light with non-negative colour, intensity and powers never contributes a negative channel. |
| Md2.LightsInUnitRange | Acun3D/MD2_Model.cpp:183-195 | With such lights, every channel of `calculateLights` lies in [0, 1]. |
| Md2.SetAnimationAsWritten | Acun3D/MD2_Model.cpp:317-343 | With fps < 0 or start >= frameCount only fps changes. With start < 0 the range is [0, frameCount-1]. With start >= 0, firstFrame = start and lastFrame changes only if end >= 0. curFrame = firstFrame, and nextFrame is firstFrame+1 if start+1 < frameCount, else firstFrame. |
| Md2.SetAnimationIntended | Acun3D/MD2_Model.cpp:329-335 | The corrected `setAnimation`: a negative end selects frameCount-1 as the last frame. It agrees with the code as written in every other field and case. |
| Md2.Animated | Acun3D/MD2_Model.cpp:345-370 | `animate` always records the time; with fps <= 0 nothing else changes. Once more than 1000/fps ms have passed it steps and sets oldTime := time; otherwise oldTime and the frames are kept. Afterwards both frames are in [0, frameCount). |
| Md2.SetAnimationInRange | Acun3D/MD2_Model.cpp:317-343 | With valid arguments, the corrected `setAnimation` gives an in-range, non-empty animation. |
| Md2.SingleFrameNextOutOfRange | Acun3D/MD2_Model.cpp:338-341 | On a one-frame model with start -1, nextFrame becomes 1, past the only frame; `animate` later resets it to 0. |
| Md2.SetAnimationStaleLastFrame | Acun3D/MD2_Model.cpp:331-334 | Starting from the record as loaded for a 10-frame model (lastFrame 9), `setAnimation(10, 2)` selects 2..9. Counterexample: after `setAnimation(10, 0, 3)`, the call `setAnimation(10, 5)` selects the empty range 5..3, and the next frame step wraps straight back to 5. The corrected version selects 5..9 and stays in range. |
| Md2.AnimatedStaysInRange | Acun3D/MD2_Model.cpp:351-366 | From an in-range state whose next frame lies in [first, last], `animate` stays in range. A step moves curFrame to nextFrame and advances nextFrame cyclically. |
| Md2.AnimatedCycles | Acun3D/MD2_Model.cpp:351-360 | After a step the next frame stays within [first, last] and oldTime is the new time. |
| Md2.Md2Model.constructor | Acun3D/MD2_Model.cpp:7-22 | A new model has no frames, and `setAnimation()` with its defaults sets only fps = -1. |
| Md2.Md2Model.SetAnimation | Acun3D/MD2_Model.cpp:317-343 | The imperative `setAnimation` leaves the record equal to `SetAnimationAsWritten` of the old record. |
| Md2.Md2Model.Animate | Acun3D/MD2_Model.cpp:345-370 | The imperative `animate` leaves the record equal to `Animated` of the old record. |
| Renderers.StackFor | Acun3D/Renderer.cpp:854-872 | The mode selects the projection stack iff it is PROJECTION, the view stack iff it is VIEW, and the world stack for WORLD and every other value. |
| Renderers.Pushed | Acun3D/Renderer.cpp:904-911 | `pushMatrix` grows the stack by one, keeps everything below, and duplicates the top (zero when empty). |
| Renderers.Popped | Acun3D/Renderer.cpp:913-917 | `popMatrix` removes exactly the top. |
| Renderers.IdentityLoaded | Acun3D/Renderer.cpp:934-941 | `loadIdentity` replaces the top with the identity without changing depth, or pushes it onto an empty stack. |
| Renderers.Transformed | Acun3D/Renderer.cpp:943-949 | `transform(m)` replaces the top with m * top, or pushes m onto an empty stack. |
| Renderers.EffectiveMaterial | Acun3D/Renderer.cpp:114-116 | The material drawn is SOLID iff it was SOLID, or TEXTURED with no textures; otherwise it is the material set. |
| Renderers.PathFor | Acun3D/Renderer.cpp:119-148 | The wireframe path is chosen iff the material is WIREFRAME, and a textured path iff it is TEXTURED. |
| Renderers.Renderer.constructor | Acun3D/Renderer.cpp:5-18 | The renderer starts with empty stacks and no lights, in TEXTURED / SMOOTH / BACK, with the given near and far planes. |
| Renderers.Renderer.SetMatrixMode | Acun3D/Renderer.cpp:854-872 | `setMatrixMode` records the mode and points the current stack at the stack it selects. Its effect is the `Apply` of a `SetMatrixMode` call. |
| Renderers.Renderer.PushMatrix | Acun3D/Renderer.cpp:904-911 | `pushMatrix` applies `Pushed` to the current stack only. |
| Renderers.Renderer.PopMatrix | Acun3D/Renderer.cpp:913-917 | `popMatrix` on a non-empty current stack applies `Popped` to it only. |
| Renderers.Renderer.GetMatrix | Acun3D/Renderer.cpp:919-925 | `getMatrix` returns the current top, or the zero matrix when the stack is empty. |
| Renderers.Renderer.ResetMatrixStack | Acun3D/Renderer.cpp:927-932 | `resetMatrixStack` pops until the current stack is empty; the other stacks are untouched. |
| Renderers.Renderer.LoadIdentity | Acun3D/Renderer.cpp:934-941 | `loadIdentity` applies `IdentityLoaded` to the current stack only. |
| Renderers.Renderer.Transform | Acun3D/Renderer.cpp:943-949 | `transform(m)` applies `Transformed` to the current stack only. |
| Renderers.Renderer.AddLight | Acun3D/Renderer.cpp:894-897 | `addLight` appends the light. |
| Renderers.Renderer.ClearLights | Acun3D/Renderer.cpp:899-902 | `clearLights` empties the light list. |
| Renderers.Renderer.Draw | Acun3D/Renderer.cpp:40-165 | When near < far, `draw` returns false beyond the far plane and true before the near one, in both cases leaving WORLD mode. Otherwise it draws along `PathFor(EffectiveMaterial(...))` and returns true. It restores the three stacks, the lights, the material type and the mode. |
| Renderers.Renderer.Render | Acun3D/Renderer.cpp:111-162 | The push, transform by the view and pop cancel out. The material fallback is undone and the light list and mode are restored. |
| Renderers.PushPop | Acun3D/Renderer.cpp:904-917 | Pop undoes push, and push keeps the top. |
| Renderers.PushTransformPop | Acun3D/Renderer.cpp:111-149 | Push, transform, pop leaves a stack as it was. |
| Renderers.IdentityThenTransform | Acun3D/Renderer.cpp:934-949 | After `loadIdentity` then `transform(m)` the top is m, at the same depth. |
| Renderers.TransformOrder | Acun3D/Renderer.cpp:943-949 | `transform(a)` then `transform(b)` gives b * (a * top): later transforms pre-multiply. |
| Renderers.OnlyCurrentChanges | Acun3D/Renderer.cpp:904-949 | Push, pop, load-identity and transform touch only the stack the mode selects, and keep the mode. |
| Renderers.TopOnlyKeepsDepth | Acun3D/Renderer.cpp:934-949 | A trace of load-identity, transform, light and child-draw calls in WORLD mode keeps the world-stack depth and the other stacks. |
| Renderers.DrawRestoresWorld | Acun3D/SceneNode.cpp:35-45 | `draw` (WORLD, push, traverse, pop) around a balanced traverse restores the world stack exactly. |
| Renderers.CullMissesAboveView | Acun3D/Renderer.cpp:203-211 | Counterexample: a triangle with every vertex at (0, 2, 0.5) lies entirely above the view, yet is not culled as written; the intended test culls it. |
| Renderers.CulledAsWrittenImpliesCulled | Acun3D/Renderer.cpp:203-211 | The cull as written implies the corrected cull, and the two agree whenever no vertex has y > 1. |
| Renderers.BackfaceRules | Acun3D/Renderer.cpp:220-222 | Wireframe never skips under no culling; under BACK it skips exactly what the solid paths skip (cos < 0); under FRONT it skips iff cos > 0; a face with cos = 0 is never skipped. |
| Renderers.MaterialFallback | Acun3D/Renderer.cpp:114-151 | With no textures, TEXTURED falls back to SOLID and the others are kept. With textures the material is kept, and the fallback is idempotent. |
| Scenes.SceneNode.constructor | Acun3D/SceneNode.cpp:5-9 | A new node has no children. |
| Scenes.SceneNode.Add | Acun3D/SceneNode.cpp:16-19 | `add` appends the node at the end. |
| Scenes.SceneNode.Remove | Acun3D/SceneNode.cpp:21-24 | `remove` leaves `Without(children, node)`: every occurrence deleted, the others kept in order. |
| Scenes.SceneNode.KillChildren | Acun3D/SceneNode.cpp:26-33 | `killChildren` leaves the child list empty. |
| Scenes.SceneNode.Traverse | Acun3D/SceneNode.cpp:47-53 | `traverse` draws the children in insertion order, each with the given time. |
| Scenes.SceneNode.Draw | Acun3D/SceneNode.cpp:35-45 | `draw` is WORLD, push, traverse, pop. From any renderer state it runs without error and restores the world stack, the other stacks and the lights, leaving WORLD mode. |
| Scenes.TransformNode.constructor | Acun3D/TransformNode.cpp:5-11 | Translation (0,0,0), rotation (0,0,0), scale (1,1,1), no children. |
| Scenes.TransformNode.SetTranslate | Acun3D/TransformNode.cpp:18-23 | Replaces the translation only. |
| Scenes.TransformNode.SetRotate | Acun3D/TransformNode.cpp:25-30 | Replaces the rotation only. |
| Scenes.TransformNode.SetScale | Acun3D/TransformNode.cpp:32-37 | Replaces the scale only. |
| Scenes.TransformNode.Translate | Acun3D/TransformNode.cpp:39-44 | Adds to the translation componentwise, keeping the other two triples. |
| Scenes.TransformNode.Rotate | Acun3D/TransformNode.cpp:46-51 | Adds to the rotation componentwise, keeping the other two triples. |
| Scenes.TransformNode.Scale | Acun3D/TransformNode.cpp:53-58 | Multiplies the scale componentwise, keeping the other two triples. |
| Scenes.TransformNode.Traverse | Acun3D/TransformNode.cpp:60-71 | Issues transforms in the order scale, rotX, rotY, rotZ, translation, then visits the children. |
| Scenes.TransformNodeComposes | Acun3D/TransformNode.cpp:60-71 | In WORLD mode the node's calls replace the world top by translation * Rz * Ry * Rx * scale * top and change nothing else. |
| Scenes.RunTransformCalls | Acun3D/TransformNode.cpp:62-68 | The five transforms alone compose into that top. |
| Scenes.ChildDrawsNeutral | Acun3D/SceneNode.cpp:47-53 | In WORLD mode, child draws as seen by their parent leave the renderer state unchanged. |
| Scenes.ChildDrawsTopOnly | Acun3D/SceneNode.cpp:47-53 | A plain node's traverse only draws children. |
| Scenes.TransformCallsTopOnly | Acun3D/TransformNode.cpp:60-71 | A transform node's traverse changes only the top of the current stack, so `draw` restores the world stack around it. |
| Scenes.WithoutCounts | Acun3D/SceneNode.cpp:21-24 | After `remove(x)`, x no longer occurs and every other node occurs as often as before. |
| Scenes.WithoutAppend | Acun3D/SceneNode.cpp:21-24 | Removal distributes over concatenation, which keeps the relative order. |
| Scenes.WithoutAbsent | Acun3D/SceneNode.cpp:21-24 | Removing an absent node changes nothing, and removal is idempotent. |
| Scenes.AddThenRemove | Acun3D/SceneNode.cpp:16-24 | Removing a node that was just added to a list without it restores the list. |
| Scenes.RotatingNode.constructor | Acun3D/RotatingNode.cpp:5-9 | The three-argument constructor sets the rates, speed 0 and lastUpdate 0. |
| Scenes.RotatingNode.Timed | Acun3D/RotatingNode.cpp:11-15 | The five-argument constructor stores the given speed and time. |
| Scenes.RotatingNode.SetTime | Acun3D/RotatingNode.cpp:22-25 | `setTime` changes only lastUpdate. |
| Scenes.RotatingNode.SetRotatingFrequency | Acun3D/RotatingNode.cpp:27-32 | Replaces the three rates and nothing else. |
| Scenes.RotatingNode.Traverse | Acun3D/RotatingNode.cpp:34-40 | Adds rate*(time-lastUpdate)*speed to each angle, sets lastUpdate := time, and then traverses as a transform node with `time`. |
| Scenes.TranslatingNode.constructor | Acun3D/TranslatingNode.cpp:5-9 | The three-argument constructor sets the rates, speed 0 and lastUpdate 0. |
| Scenes.TranslatingNode.Timed | Acun3D/TranslatingNode.cpp:11-15 | The longer constructor stores the given speed and time. |
| Scenes.TranslatingNode.SetTime | Acun3D/TranslatingNode.cpp:22-25 | `setTime` changes only lastUpdate. |
| Scenes.TranslatingNode.SetTranslatingFrequency | Acun3D/TranslatingNode.cpp:27-32 | Replaces the three rates and nothing else. |
| Scenes.TranslatingNode.Traverse | Acun3D/TranslatingNode.cpp:34-40 | Adds rate*(time-lastUpdate)*speed to the translation, sets lastUpdate := time, and passes 0, not `time`, to the children. |
| Scenes.AdvancedTelescopes | Acun3D/RotatingNode.cpp:34-39 | Traversing at t1 and then at t2 advances the angles as one traversal at t2. |
| Scenes.AdvancedStill | Acun3D/RotatingNode.cpp:36-37 | With speed 0, or no time elapsed, traversal leaves the angles unchanged. |
| Scenes.PulseNode.constructor | Acun3D/PulseNode.cpp:5-10 | Current scale starts at the first bound, with direction multiplier 1, speed 0 and lastUpdate 0. |
| Scenes.PulseNode.Timed | Acun3D/PulseNode.cpp:12-17 | The same, with the given speed and time. |
| Scenes.PulseNode.Uniform | Acun3D/PulseNode.cpp:19-24 | Uniform bounds (lo, lo, lo) and (hi, hi, hi); current at the first. |
| Scenes.PulseNode.UniformTimed | Acun3D/PulseNode.cpp:26-31 | The same, with the given speed and time. |
| Scenes.PulseNode.SetTime | Acun3D/PulseNode.cpp:38-41 | `setTime` changes only lastUpdate. |
| Scenes.PulseNode.SetUniformPulseFrequency | Acun3D/PulseNode.cpp:43-51 | Replaces the bounds only; the current scale and direction stay. |
| Scenes.PulseNode.SetPulseFrequency | Acun3D/PulseNode.cpp:53-62 | Replaces the bounds only; the current scale and direction stay. |
| Scenes.PulseNode.Traverse | Acun3D/PulseNode.cpp:76-110 | The step factor is (time-lastUpdate)*speed, or 1 when time is 0. Then comes the step as written, a direction flip iff some component left its range, and a clamp back. Afterwards every component is within its bounds, lastUpdate = time, and the scale is handed to the transform node. |
| Scenes.PulseNode.Bounce | Acun3D/PulseNode.cpp:86-105 | The step by factor*direction, then the flip and the clamps. |
| Scenes.PulseNode.Settle | Acun3D/PulseNode.cpp:90-105 | The direction flips iff the raw scale is outside the bounds; the scale becomes its clamp. |
| Scenes.ClampAxisProperties | Acun3D/PulseNode.cpp:94-105 | A clamped component lies between min and max of its bounds, changes iff it was outside them, and clamping is idempotent. |
| Scenes.ClampWithin | Acun3D/PulseNode.cpp:94-105 | The clamped scale is within the bounds, and equals the raw scale iff that was within them. |
| Scenes.PulseBounce | Acun3D/PulseNode.cpp:90-105 | An overshooting step is changed by the clamp (and reverses the direction); a step within the bounds is kept. |
| Scenes.StepAsWrittenIgnoresY | Acun3D/PulseNode.cpp:87 | Counterexample: with bounds (1,1,1) and (1,2,1) the y step as written is zero, so y never pulses; the intended step moves it. |
| Scenes.StepAxesIndependent | Acun3D/PulseNode.cpp:86-88 | The corrected step moves each axis by its own span only, and the opposite step undoes it. |
| Cameras.Camera.constructor | Acun3D/Camera.cpp:5-8 | `Camera()` has zero position and the identity rotation. |
| Cameras.Camera.At | Acun3D/Camera.cpp:10-14 | As written, the four-argument constructor composes the X rotation three times. |
| Cameras.Camera.SetPosition | Acun3D/Camera.cpp:21-27 | `setPosition` replaces the position, or adds componentwise when relative; nothing else changes. |
| Cameras.Camera.SetRotation | Acun3D/Camera.cpp:49-59 | `setRotation` stores the three angles. The rotation becomes Rx*Ry*Rz, or the current rotation post-multiplied by Rx, Ry, Rz when relative. |
| Cameras.Camera.Rotate | Acun3D/Camera.cpp:61-64 | `rotate(m)` pre-multiplies the rotation by m. |
| Cameras.Camera.RotateX | Acun3D/Camera.cpp:66-69 | Increases the X angle by rad, keeps the other two, and rebuilds the rotation. |
| Cameras.Camera.RotateY | Acun3D/Camera.cpp:71-74 | Increases the Y angle by rad, keeps the other two, and rebuilds the rotation. |
| Cameras.Camera.RotateZ | Acun3D/Camera.cpp:76-79 | Increases the Z angle by rad, keeps the other two, and rebuilds the rotation. |
| Cameras.RelativeFromIdentity | Acun3D/Camera.cpp:55-58 | From the identity, the relative and absolute `setRotation` agree. |
| Cameras.RelativeMoveUndone | Acun3D/Camera.cpp:21-27 | A relative move by d followed by one by -d returns to the start. |
| Cameras.InitialRotationIgnoresAxes | Acun3D/Camera.cpp:13 | Counterexample: for a rotation builder that is zero about Y, the constructor's rotation is the identity while Rx*Ry*Rz is zero. |
| Demos.Demo.constructor | TestProject/Demo.cpp:5-9 | Creation time and last update are the given time; the length is stored; no lights or messages. |
| Demos.Demo.Traverse | TestProject/Demo.cpp:19-42 | `traverse` sets lastUpdate := time and issues the view set-up, WORLD, clear, one `addLight` per light and the children's draws. |
| Demos.Demo.Reset | TestProject/Demo.cpp:49-56 | `reset(t)` sets creation time = last update = t, the camera to (0,0,0,1) with no rotation, and so `dead()` is false when length >= 0. |
| Demos.Demo.AddLight | TestProject/Demo.cpp:58-61 | `addLight` appends. |
| Demos.Demo.AddMessage | TestProject/Demo.cpp:63-66 | `addMessage` appends, so `getDemoText` returns the messages in insertion order. |
| Demos.LightCallsAppend | TestProject/Demo.cpp:36-39 | The `addLight` loop appends the demo's lights in order. |
| Demos.CameraView | TestProject/Demo.cpp:22-27 | The view top after `loadIdentity` and the two transforms is rotation * translation(-position). |
| Demos.HeadRun | TestProject/Demo.cpp:22-34 | The calls before the lights set up the view stack, switch to WORLD and empty the lights. |
| Demos.DemoRun | TestProject/Demo.cpp:19-42 | The whole traverse, from any renderer state, ends with that view, WORLD mode and exactly the demo's lights. |
| Demos.DemoHandsOff | TestProject/Demo.cpp:19-42 | After `traverse` the renderer's lights are exactly the demo's lights, in order. The mode is WORLD, the world and projection stacks are untouched, and the view top is the camera view. |

## Left out

- Floating point: every `float` is a `real`. Rounding, infinities and NaN are not modelled, so division by zero is excluded by `requires` instead of yielding inf/NaN.
- Colours.Colour.DivAssign: requires non-zero divisor channels, because float division by zero is not modelled.
- Colours.Colour.Divide, Colours.Colour.DivideScalar, Colours.Colour.DivAssignScalar, Vectors.Vector.DivideScalar, Vectors.Vector.DivAssign, Vertices.Vertex.DivideScalar, Vertices.Vertex.DivAssign: require a non-zero divisor, for the same reason.
- Integer widths: the source's 32-bit `int` and `long` arithmetic (the edge accumulators, `time - lastUpdate`, `(int)` casts of pixel coordinates) is modelled unbounded; overflow is not modelled.
- Matrix element type: `Matrix<T, M, N>` is modelled over `real`, not over a generic `T`. `Vector`, `Vertex`, `Camera` and `Renderer` all use it as `Matrix<float, ...>`.
- The floating-point interpolation of the triangle draws (`calculateInterpolants`; per-pixel colour, z and u/z, v/z, 1/z; the `(int)(16*x + 0.5)` snapping; SSE intrinsics and `fistp`): the draws take snapped points, per-pixel depths, colour bytes and raw texel coordinates as inputs.
- Lighting formulas: normalisation, `pow`, `cos`, and the dot products of `calculateLight` are inputs (`Md2.Terms`); only the ambient branch, the spot-factor branch, the half-Lambert and specular selection and the sum-then-clamp are modelled.
- Trigonometric rotation matrices (`createRotationX/Y/Z`): they are symbolic `Rotation(axis, angle)` terms evaluated by a caller-supplied function; the double overloads of `createPerspective` and `createTranslation(x, y)` are not modelled.
- `Vector::length`, `lengthSquared`, `normalise` and `getNormalised` (square roots).
- `Colour::toInt`: it reads an uninitialised fourth byte.
- `MD2_Model::loadModel` (which also sets `lastFrame = frameCount - 1`, as `Md2.LoadedTen` records for a 10-frame model), `setTexture`, `interpolate`, `processVertices`, `curInterpolation` and the normals table: binary file input and float interpolation.
- `Image.cpp` (DevIL calls) and texture loading: a texture is a `Raster.Texture` value.
- The `Renderer::draw*` vertex pipelines: per-vertex transforms, projection to screen and per-draw light cloning with `new`/`delete[]`. Only the cull and backface predicates and the state changes of `draw` are modelled; `Renderer.Draw` returns the path it would take rather than calling the rasteriser.
- Renderer.Draw: the transformed copies of point and spot lights that exist during a draw are not modelled. The light list is modelled as restored, which is what the caller sees.
- `Renderer::setMaterialType`, `setShadingType`, `setCullingType`, `setTarget` and `beginScene`: plain field stores and forwards to the rasteriser.
- Uninitialised fields: `Renderer()` leaves `_matrixMode` unset while the stack pointer is the world stack, and the model starts it at WORLD. `Rasteriser()` leaves the width and height unset, and the model sets them to 0; this is unobservable, since there is no target.
- Virtual dispatch: a child's drawing appears in its parent's trace as one `DrawChild(i, time)` event with no effect on the renderer state. This matches `SceneNode::draw` of a child whose traverse is balanced, which `Renderers.DrawRestoresWorld` and `Scenes.SceneNode.Draw` prove. A child that changes the light list (a nested `Demo`) is not modelled.
- Lights are held by pointer in the source; the model stores light values, so aliasing between the demo's and the renderer's lists is not modelled.
- Deleting children in `killChildren` and in destructors: memory management.
- `Camera::getRotationX/Y/Z` after the four-argument constructor read angles the constructor never sets; the model leaves them unconstrained.
- `CameraNode`, `CameraRotationNode`, `ModelNode` (thin forwarders), the demo scenes (`Cube`, `Miku`, `Orbit`, `Sonic`, `Tunnel`), `TestProject.cpp` (window, input, fonts) and the demo's skybox.
- Getters that only return a field (`GetMatrixMode`, `CurrentFrame`, `GetPosition`, `GetRotation`, `GetRotationX/Y/Z`, `GetDemoText`, `Dead`) are functions without contracts; the properties that use them are stated on the operations that change those fields.

## Findings

| source | as written | input that shows it | evidently intended | confidence | as-written member | corrected member |
|---|---|---|---|---|---|---|
| Acun3D/Matrix.h:339-348 | unary `-` negates a fresh zero matrix, so it always returns zero | any matrix with a non-zero entry | return the element-wise negation of `*this` | high, not executed | Matrices.NegateAsWrittenDiffers | Matrices.NegatedIsInverse |
| Acun3D/Matrix.h:370-390 | `*=` overwrites row entries while later entries of the same row still read them | [[1,1]] `*=` [[1,1],[1,1]] gives [[2,3]] | the product [[2,2]] | high, not executed | Matrices.MulAssignIsNotProduct | Matrices.Matrix.Mul |
| Acun3D/Renderer.cpp:208-210 | the "outside the view" test checks `x > 1` twice and never `y > 1` | a triangle with all vertices at (0, 2, 0.5) | the fourth test is `y > 1` | high, not executed | Renderers.CullMissesAboveView | Renderers.CulledAsWrittenImpliesCulled |
| Acun3D/MD2_Model.cpp:331-332 | with `start >= 0` and `end < 0` the code assigns the parameter `end`, leaving `lastFrame` stale | on a loaded 10-frame model, `setAnimation(10, 0, 3)` then `setAnimation(10, 5)` selects frames 5..3 | `lastFrame = frameCount - 1` | high, not executed | Md2.SetAnimationStaleLastFrame | Md2.SetAnimationInRange |
| Acun3D/PulseNode.cpp:87 | the y step uses `(_sy1 - _sx2)` | bounds (1,1,1) and (1,2,1) | `(_sy1 - _sy2)` | high, not executed | Scenes.StepAsWrittenIgnoresY | Scenes.StepAxesIndependent |
| Acun3D/Camera.cpp:13 | the constructor composes `createRotationX` for all three angles | a rotation builder that is zero about Y | `createRotationX(x) * createRotationY(y) * createRotationZ(z)`, as `setRotation` builds it | high, not executed | Cameras.InitialRotationIgnoresAxes | Cameras.RelativeFromIdentity |
