/**
 * The value-level part of the scan converter in Acun3D/Rasteriser.cpp: pixels
 * and depths, the `min`/`max`/`clamp` templates, the 28.4 fixed-point
 * half-space edge functions with their top-left fill-rule bias, the bounding
 * box, the per-pixel depth test and byte write, and the Bresenham walk of
 * `drawLine`. The class that owns the buffers is in module Rasterisers.
 */
module Raster {
  import opened Matrices

  // ---------------------------------------------------------------------------
  // Pixels and depths

  newtype Byte = x: int | 0 <= x < 256

  /** Conversion of an int to `unsigned char`: the low-order byte. */
  function ToByte(i: int): Byte
  {
    (i % 256) as Byte
  }

  /** `Pixel`: four bytes in memory order b, g, r, a. */
  datatype Pixel = Pixel(b: Byte, g: Byte, r: Byte, a: Byte)

  /** The constructor `Pixel(int r, int g, int b, int a)`, each argument truncated to a byte. */
  function MakePixel(r: int, g: int, b: int, a: int): Pixel
  {
    Pixel(ToByte(b), ToByte(g), ToByte(r), ToByte(a))
  }

  /** The clear colour of `setTarget`: `Pixel(255, 255, 255, 0)`. */
  const White := MakePixel(255, 255, 255, 0)

  /**
   * `_pixelBuffer[i] = colour` with an int `colour` goes through the implicit
   * conversion `Pixel(colour)`: the red byte is the low byte of `colour`, the rest 0.
   */
  function IntPixel(colour: int): Pixel
  {
    MakePixel(colour, 0, 0, 0)
  }

  /** A depth-buffer entry: a float depth, or the +infinity that `beginScene` stores. */
  datatype Depth = Finite(z: real) | Infinity

  /** `stored <= bound` in the order of floats extended with +infinity. */
  predicate AtMost(stored: Depth, bound: Depth)
  {
    bound.Infinity? || (stored.Finite? && stored.z <= bound.z)
  }

  /**
   * The depth test: `depthBuffer[x] > z` in the first two `drawTriangle`
   * overloads (strict), `depthBuffer[x] >= z` in the two lit ones.
   */
  predicate Passes(stored: Depth, z: real, strict: bool)
  {
    match stored
    case Infinity => true
    case Finite(s) => if strict then s > z else s >= z
  }

  /** The depth entry after the test: z when the test passes, otherwise unchanged. */
  function Tested(stored: Depth, z: real, strict: bool): Depth
  {
    if Passes(stored, z, strict) then Finite(z) else stored
  }

  /** The three ints i1, i2, i3 that a drawn pixel's b, g, r bytes are set from. */
  datatype Bytes = Bytes(b: int, g: int, r: int)

  /** The byte write: bytes 0, 1, 2 (b, g, r) take the low bytes of i1, i2, i3; byte 3 is untouched. */
  function Written(p: Pixel, c: Bytes): Pixel
  {
    p.(b := ToByte(c.b), g := ToByte(c.g), r := ToByte(c.r))
  }

  /** The pixel after the depth test against the stored depth. */
  function Shaded(p: Pixel, stored: Depth, z: real, strict: bool, c: Bytes): Pixel
  {
    if Passes(stored, z, strict) then Written(p, c) else p
  }

  // ---------------------------------------------------------------------------
  // The `min`, `max` and `clamp` templates

  function Min(i: int, j: int): int
  {
    if i < j then i else j
  }

  function Min3(i: int, j: int, k: int): int
  {
    Min(i, Min(j, k))
  }

  function Max(i: int, j: int): int
  {
    if i > j then i else j
  }

  function Max3(i: int, j: int, k: int): int
  {
    Max(i, Max(j, k))
  }

  /** `clamp(n, min, max)`: raised to min first, then lowered to max. */
  function Clamp(n: int, lo: int, hi: int): int
  {
    var m := if n < lo then lo else n;
    if m > hi then hi else m
  }

  // ---------------------------------------------------------------------------
  // Half-space edge functions in 28.4 fixed point

  /** A vertex snapped to 28.4 fixed point: `(int)(16 * x + 0.5)`, `(int)(16 * y + 0.5)`. */
  datatype Point = Point(x: int, y: int)

  datatype Triangle = Triangle(p1: Point, p2: Point, p3: Point)

  /**
   * The edge from p to q with the source's coefficient names: `dy` is
   * p.x - q.x and `dx` is p.y - q.y.
   */
  datatype Edge = Edge(x: int, y: int, dx: int, dy: int)

  function EdgeOf(p: Point, q: Point): Edge
  {
    Edge(p.x, p.y, p.y - q.y, p.x - q.x)
  }

  /** Edges 1, 2, 3 of a triangle: p1 to p2, p2 to p3, p3 to p1. */
  function E1(t: Triangle): Edge { EdgeOf(t.p1, t.p2) }
  function E2(t: Triangle): Edge { EdgeOf(t.p2, t.p3) }
  function E3(t: Triangle): Edge { EdgeOf(t.p3, t.p1) }

  /** The fill-convention bias: 1 exactly for a top or left edge (`dx < 0`, or `dx == 0 && dy > 0`). */
  function Bias(e: Edge): int
  {
    if e.dx < 0 || (e.dx == 0 && e.dy > 0) then 1 else 0
  }

  /** The half-space function of edge e at pixel (px, py), whose centre is (16 px, 16 py) in 28.4. */
  function Raw(e: Edge, px: int, py: int): int
  {
    e.dy * (16 * py - e.y) - e.dx * (16 * px - e.x)
  }

  /** The value of an edge's `checkTemp` accumulator at pixel (px, py): the closed form plus the bias. */
  function Check(e: Edge, px: int, py: int): int
  {
    Raw(e, px, py) + Bias(e)
  }

  /** A pixel is covered when all three accumulators are positive. */
  predicate Inside(t: Triangle, px: int, py: int)
  {
    Check(E1(t), px, py) > 0 && Check(E2(t), px, py) > 0 && Check(E3(t), px, py) > 0
  }

  // ---------------------------------------------------------------------------
  // The bounding box

  /** `(v + 0xF) >> 4`: the arithmetic shift rounds down, so this is v / 16 rounded up. */
  function Ceil16(v: int): int
  {
    (v + 15) / 16
  }

  /** The scanned pixels: columns minX .. maxX - 1 of rows minY .. maxY - 1. */
  datatype Box = Box(minX: int, maxX: int, minY: int, maxY: int)

  /** The box of `drawTriangle`: rounded-up fixed-point extremes, then clamped to the screen. */
  function BoundingBox(t: Triangle, width: int, height: int): Box
  {
    var minX := Ceil16(Min3(t.p1.x, t.p2.x, t.p3.x));
    var maxX := Ceil16(Max3(t.p1.x, t.p2.x, t.p3.x));
    var minY := Ceil16(Min3(t.p1.y, t.p2.y, t.p3.y));
    var maxY := Ceil16(Max3(t.p1.y, t.p2.y, t.p3.y));
    Box(if minX < 0 then 0 else minX,
        if maxX >= width then width - 1 else maxX,
        if minY < 0 then 0 else minY,
        if maxY >= height then height - 1 else maxY)
  }

  predicate Visits(b: Box, px: int, py: int)
  {
    b.minX <= px < b.maxX && b.minY <= py < b.maxY
  }

  /** A pixel the loops reach that passes all three edge tests. */
  predicate Claims(t: Triangle, width: int, height: int, px: int, py: int)
  {
    Visits(BoundingBox(t, width, height), px, py) && Inside(t, px, py)
  }

  /** The buffer index of pixel (x, y): row y starts at `y * width`. */
  function Idx(width: nat, height: nat, x: nat, y: nat): (i: nat)
    requires x < width && y < height
    ensures i < width * height
  {
    IndexInRange(y, x, height, width);
    y * width + x
  }

  // ---------------------------------------------------------------------------
  // Texture lookup

  /** An `Image`: its width, height and row-major texels. */
  datatype Texture = Texture(width: int, height: int, texels: seq<Pixel>)

  predicate ValidTexture(tex: Texture)
  {
    0 < tex.width && 0 < tex.height && |tex.texels| >= tex.width * tex.height
  }

  /** The source's texel clamp: negative to 0, then `>= size` to size - 1. */
  function ClampTexel(n: int, size: int): int
  {
    var m := if n < 0 then 0 else n;
    if m >= size then size - 1 else m
  }

  /** The texel fetched for raw texture coordinates (u, v), after clamping both. */
  function TexelAt(tex: Texture, u: int, v: int): Pixel
    requires ValidTexture(tex)
  {
    var cu, cv := ClampTexel(u, tex.width), ClampTexel(v, tex.height);
    tex.texels[Idx(tex.width, tex.height, cu, cv)]
  }

  /**
   * The per-pixel colour of the textured overloads: the raw texture coordinates
   * `uv(x, y)` are clamped, the texel fetched, and `blend` gives i1, i2, i3 from it.
   */
  function TexturedShade(tex: Texture, uv: (int, int) -> (int, int), blend: (int, int, Pixel) -> Bytes): (int, int) -> Bytes
    requires ValidTexture(tex)
  {
    (x: int, y: int) => blend(x, y, TexelAt(tex, uv(x, y).0, uv(x, y).1))
  }

  // ---------------------------------------------------------------------------
  // The state a triangle draw leaves

  /**
   * p and d are the pixel and depth buffers after drawing t over p0 and d0 on a
   * width x height target (`on` is `_pixelBuffer != 0`): every claimed pixel has
   * been depth-tested against its old depth and, if it passed, written; every
   * other pixel, and every pixel-buffer entry past width * height, is unchanged.
   */
  ghost predicate Drawn(p0: seq<Pixel>, d0: seq<Depth>, p: seq<Pixel>, d: seq<Depth>,
                        width: nat, height: nat, on: bool,
                        t: Triangle, strict: bool, z: (int, int) -> real, shade: (int, int) -> Bytes)
    requires |d0| == width * height && |p0| >= width * height
  {
    && |p| == |p0| && |d| == |d0|
    && (forall px, py :: 0 <= px < width && 0 <= py < height ==>
          d[Idx(width, height, px, py)]
          == if on && Claims(t, width, height, px, py)
             then Tested(d0[Idx(width, height, px, py)], z(px, py), strict)
             else d0[Idx(width, height, px, py)])
    && (forall px, py :: 0 <= px < width && 0 <= py < height ==>
          p[Idx(width, height, px, py)]
          == if on && Claims(t, width, height, px, py)
             then Shaded(p0[Idx(width, height, px, py)], d0[Idx(width, height, px, py)], z(px, py), strict, shade(px, py))
             else p0[Idx(width, height, px, py)])
    && (forall i :: width * height <= i < |p| ==> p[i] == p0[i])
  }

  // ---------------------------------------------------------------------------
  // `setPixel` and the Bresenham walk of `drawLine`

  /** `setPixel(x, y, colour)` on buffer contents s: a write at y * width + x only on the screen. */
  function SetPixelAt(s: seq<Pixel>, width: nat, height: nat, x: int, y: int, colour: int): (r: seq<Pixel>)
    requires |s| >= width * height
    ensures |r| == |s|
  {
    if 0 <= x < width && 0 <= y < height then s[Idx(width, height, x, y) := IntPixel(colour)] else s
  }

  /** The buffer after `setPixel` at each point of `pts`, in order. */
  function PlotAll(s: seq<Pixel>, width: nat, height: nat, pts: seq<(int, int)>, colour: int): (r: seq<Pixel>)
    requires |s| >= width * height
    ensures |r| == |s|
    decreases |pts|
  {
    if |pts| == 0 then s
    else PlotAll(SetPixelAt(s, width, height, pts[0].0, pts[0].1, colour), width, height, pts[1..], colour)
  }

  datatype Line = Line(x1: int, y1: int, x2: int, y2: int)

  function Abs(n: int): nat
  {
    if n < 0 then -n else n
  }

  /** `dx = abs(x2 - x1)` and `dy = abs(y2 - y1)`. */
  function Dx(l: Line): nat { Abs(l.x2 - l.x1) }
  function Dy(l: Line): nat { Abs(l.y2 - l.y1) }

  /** `err` after a steps in x (each `err -= dy`) and b steps in y (each `err += dx`), from `dx - dy`. */
  function Err(l: Line, a: nat, b: nat): int
  {
    Dx(l) - Dy(l) + Dx(l) * b - Dy(l) * a
  }

  /** The point after a steps of `sx` in x and b steps of `sy` in y; `sx` is 1 iff x1 < x2. */
  function At(l: Line, a: nat, b: nat): (int, int)
  {
    (if l.x1 < l.x2 then l.x1 + a else l.x1 - a, if l.y1 < l.y2 then l.y1 + b else l.y1 - b)
  }

  /** x moves when `e2 > -dy`, y when `e2 < dx`, both tested on `e2 = 2 * err` from before the step. */
  function NextA(l: Line, a: nat, b: nat): nat
  {
    if 2 * Err(l, a, b) > -(Dy(l) as int) then a + 1 else a
  }

  function NextB(l: Line, a: nat, b: nat): nat
  {
    if 2 * Err(l, a, b) < Dx(l) then b + 1 else b
  }

  /**
   * Before the end point, a step never takes x past x2 or y past y2, and at
   * least one of them moves.
   */
  lemma StepStaysOnSegment(l: Line, a: nat, b: nat)
    requires a <= Dx(l) && b <= Dy(l) && !(a == Dx(l) && b == Dy(l))
    ensures NextA(l, a, b) <= Dx(l) && NextB(l, a, b) <= Dy(l)
    ensures NextA(l, a, b) + NextB(l, a, b) > a + b
  {
    var dx, dy := Dx(l), Dy(l);
    if a == dx {
      MulMono(b + 1, dy, dx);
      assert dx * (b + 1) == dx * b + dx;
      assert dx * b <= dx * dy - dx;
      assert Err(l, a, b) <= -dy;
    }
    if b == dy {
      MulMono(a + 1, dx, dy);
      assert dy * (a + 1) == dy * a + dy;
      assert Err(l, a, b) >= dx;
    }
  }

  /** The points `drawLine` plots from step (a, b) on, ending with the point where it breaks. */
  function Walk(l: Line, a: nat, b: nat): (w: seq<(int, int)>)
    requires a <= Dx(l) && b <= Dy(l)
    ensures |w| >= 1 && w[0] == At(l, a, b)
    decreases Dx(l) - a + Dy(l) - b
  {
    if a == Dx(l) && b == Dy(l) then [At(l, a, b)]
    else
      StepStaysOnSegment(l, a, b);
      [At(l, a, b)] + Walk(l, NextA(l, a, b), NextB(l, a, b))
  }

  /** Every point `drawLine(x1, y1, x2, y2)` plots, in order. */
  function LinePoints(l: Line): seq<(int, int)>
  {
    Walk(l, 0, 0)
  }

  /** `err -= dy` is one more x step, `err += dx` one more y step. */
  lemma ErrStep(l: Line, a: nat, b: nat)
    ensures Err(l, a + 1, b) == Err(l, a, b) - Dy(l)
    ensures Err(l, a, b + 1) == Err(l, a, b) + Dx(l)
  {
  }

  /** The walk reaches (x2, y2) only after Dx steps in x and Dy steps in y. */
  lemma AtEnd(l: Line, a: nat, b: nat)
    requires a <= Dx(l) && b <= Dy(l)
    ensures At(l, a, b) == (l.x2, l.y2) <==> a == Dx(l) && b == Dy(l)
  {
  }

  /** At the end point the walk plots that point only. */
  lemma PlotLast(s: seq<Pixel>, width: nat, height: nat, l: Line, colour: int)
    requires |s| >= width * height
    ensures PlotAll(s, width, height, Walk(l, Dx(l), Dy(l)), colour)
            == SetPixelAt(s, width, height, l.x2, l.y2, colour)
  {
  }

  /** Before the end point, plotting the walk from (a, b) is plotting its first point, then the walk from the next step. */
  lemma PlotStep(s: seq<Pixel>, width: nat, height: nat, l: Line, a: nat, b: nat, colour: int)
    requires |s| >= width * height
    requires a <= Dx(l) && b <= Dy(l) && !(a == Dx(l) && b == Dy(l))
    requires NextA(l, a, b) <= Dx(l) && NextB(l, a, b) <= Dy(l)
    ensures PlotAll(s, width, height, Walk(l, a, b), colour)
            == PlotAll(SetPixelAt(s, width, height, At(l, a, b).0, At(l, a, b).1, colour), width, height,
                       Walk(l, NextA(l, a, b), NextB(l, a, b)), colour)
  {
    assert Walk(l, a, b)[1..] == Walk(l, NextA(l, a, b), NextB(l, a, b));
  }

  // ---------------------------------------------------------------------------
  // Properties: pixels and depths

  /** `Pixel(r, g, b, a)` stores each argument's low byte, r and b swapped into memory order. */
  lemma MakePixelBytes(r: int, g: int, b: int, a: int)
    requires 0 <= r < 256 && 0 <= g < 256 && 0 <= b < 256 && 0 <= a < 256
    ensures MakePixel(r, g, b, a) == Pixel(b as Byte, g as Byte, r as Byte, a as Byte)
    ensures White == Pixel(255, 255, 255, 0)
  {
  }

  /** A drawn pixel keeps its fourth byte, and its b, g, r depend only on i1, i2, i3 modulo 256. */
  lemma WrittenKeepsPadding(p: Pixel, c: Bytes, k: int)
    ensures Written(p, c).a == p.a
    ensures Written(Written(p, c), c) == Written(p, c)
    ensures Written(p, Bytes(c.b + 256 * k, c.g, c.r)) == Written(p, c)
  {
    assert (c.b + 256 * k) % 256 == c.b % 256;
  }

  /** The depth test never lets the stored depth grow, with either comparison. */
  lemma DepthNeverIncreases(stored: Depth, z: real, strict: bool)
    ensures AtMost(Tested(stored, z, strict), stored)
    ensures Tested(stored, z, strict) == stored || Tested(stored, z, strict) == Finite(z)
  {
  }

  /**
   * The strict and non-strict tests differ exactly at equal depth: a second
   * fragment at the same depth is rejected by overloads 1 and 2 and drawn by 3 and 4.
   */
  lemma StrictDiffersOnlyAtEqualDepth(stored: Depth, z: real)
    ensures Passes(stored, z, true) ==> Passes(stored, z, false)
    ensures Passes(stored, z, false) && !Passes(stored, z, true) <==> stored == Finite(z)
    ensures Passes(Infinity, z, true)
  {
  }

  // ---------------------------------------------------------------------------
  // Properties: the templates and the texel clamp

  lemma MinMaxProperties(i: int, j: int, k: int)
    ensures Min3(i, j, k) <= i && Min3(i, j, k) <= j && Min3(i, j, k) <= k
    ensures Min3(i, j, k) == i || Min3(i, j, k) == j || Min3(i, j, k) == k
    ensures Max3(i, j, k) >= i && Max3(i, j, k) >= j && Max3(i, j, k) >= k
    ensures Max3(i, j, k) == i || Max3(i, j, k) == j || Max3(i, j, k) == k
  {
  }

  /** `clamp` lands in [lo, hi] when lo <= hi, and leaves a value already there unchanged. */
  lemma ClampProperties(n: int, lo: int, hi: int)
    requires lo <= hi
    ensures lo <= Clamp(n, lo, hi) <= hi
    ensures lo <= n <= hi <==> Clamp(n, lo, hi) == n
    ensures Clamp(Clamp(n, lo, hi), lo, hi) == Clamp(n, lo, hi)
  {
  }

  /** The texel clamp is `clamp(n, 0, size - 1)`, so a fetched texel index is always inside the texture. */
  lemma TexelClampInRange(n: int, size: int)
    requires 0 < size
    ensures ClampTexel(n, size) == Clamp(n, 0, size - 1)
    ensures 0 <= ClampTexel(n, size) < size
  {
  }

  // ---------------------------------------------------------------------------
  // Properties: edge functions, fill rule and box

  /** The accumulators step exactly like the closed form: `-= fdx` per column and `+= fdy` per row. */
  lemma CheckStep(e: Edge, px: int, py: int)
    ensures Check(e, px + 1, py) == Check(e, px, py) - 16 * e.dx
    ensures Check(e, px, py + 1) == Check(e, px, py) + 16 * e.dy
  {
    assert e.dx * (16 * (px + 1) - e.x) == e.dx * (16 * px - e.x) + 16 * e.dx;
    assert e.dy * (16 * (py + 1) - e.y) == e.dy * (16 * py - e.y) + 16 * e.dy;
  }

  /** The edge from q to p has the opposite half-space function, and exactly one of the two has bias 1 (when p != q). */
  lemma ReversedEdge(p: Point, q: Point, px: int, py: int)
    ensures Raw(EdgeOf(q, p), px, py) == -Raw(EdgeOf(p, q), px, py)
    ensures p != q ==> Bias(EdgeOf(p, q)) + Bias(EdgeOf(q, p)) == 1
  {
    var e, f := EdgeOf(p, q), EdgeOf(q, p);
    calc {
      Raw(e, px, py) + Raw(f, px, py);
      (p.x - q.x) * (16 * py - p.y) - (p.y - q.y) * (16 * px - p.x)
        + (q.x - p.x) * (16 * py - q.y) - (q.y - p.y) * (16 * px - q.x);
      (p.x - q.x) * (16 * py - p.y) - (p.x - q.x) * (16 * py - q.y)
        - (p.y - q.y) * (16 * px - p.x) + (p.y - q.y) * (16 * px - q.x);
      (p.x - q.x) * (q.y - p.y) + (p.y - q.y) * (p.x - q.x);
      0;
    }
  }

  /**
   * The fill rule on a shared edge: when two triangles share the edge p-q with
   * opposite orientations, every pixel passes that edge's `> 0` test in exactly
   * one of them; a degenerate edge (p == q) passes in neither.
   */
  lemma SharedEdgeExactlyOne(p: Point, q: Point, px: int, py: int)
    ensures p != q ==> (Check(EdgeOf(p, q), px, py) > 0 <==> !(Check(EdgeOf(q, p), px, py) > 0))
    ensures Check(EdgeOf(p, p), px, py) <= 0
  {
    ReversedEdge(p, q, px, py);
  }

  /** Relabelling a triangle's vertices cyclically does not change which pixels it covers. */
  lemma InsideRotation(t: Triangle, px: int, py: int)
    ensures Inside(t, px, py) <==> Inside(Triangle(t.p2, t.p3, t.p1), px, py)
  {
  }

  /** Two triangles p q r and q p s, sharing edge p-q with opposite orientations, never both cover a pixel. */
  lemma SharedEdgeNoDoubleClaim(p: Point, q: Point, r: Point, s: Point, px: int, py: int)
    ensures !(Inside(Triangle(p, q, r), px, py) && Inside(Triangle(q, p, s), px, py))
  {
    if p != q {
      SharedEdgeExactlyOne(p, q, px, py);
    } else {
      SharedEdgeExactlyOne(p, p, px, py);
    }
  }

  /**
   * Every pixel the loops reach lies on the screen, one short of the right and
   * bottom borders (the clamped maxX and maxY are exclusive bounds), so its
   * buffer index is in range.
   */
  lemma BoxOnScreen(t: Triangle, width: int, height: int, px: int, py: int)
    requires Visits(BoundingBox(t, width, height), px, py)
    ensures 0 <= px < width - 1 && 0 <= py < height - 1
    ensures 0 <= py * width + px < width * height
  {
    IndexInRange(py, px, height, width);
  }

  // ---------------------------------------------------------------------------
  // Properties: a triangle draw

  /** After any triangle draw, no depth-buffer entry is larger than before. */
  lemma DrawnDepthNeverIncreases(p0: seq<Pixel>, d0: seq<Depth>, p: seq<Pixel>, d: seq<Depth>,
                                 width: nat, height: nat, on: bool,
                                 t: Triangle, strict: bool, z: (int, int) -> real, shade: (int, int) -> Bytes)
    requires |d0| == width * height && |p0| >= width * height
    requires Drawn(p0, d0, p, d, width, height, on, t, strict, z, shade)
    ensures forall i :: 0 <= i < |d| ==> AtMost(d[i], d0[i])
    ensures forall i :: 0 <= i < |p| ==> p[i].a == p0[i].a
  {
    forall i | 0 <= i < |d|
      ensures AtMost(d[i], d0[i]) && p[i].a == p0[i].a
    {
      RowOfIndex(i, height, width);
      var px, py := i % width, i / width;
      assert Idx(width, height, px, py) == i;
      DepthNeverIncreases(d0[i], z(px, py), strict);
    }
  }

  /** A draw with no pixel buffer changes nothing. */
  lemma DrawnWithoutTarget(p0: seq<Pixel>, d0: seq<Depth>, p: seq<Pixel>, d: seq<Depth>,
                           width: nat, height: nat,
                           t: Triangle, strict: bool, z: (int, int) -> real, shade: (int, int) -> Bytes)
    requires |d0| == width * height && |p0| >= width * height
    requires Drawn(p0, d0, p, d, width, height, false, t, strict, z, shade)
    ensures p == p0 && d == d0
  {
    forall i | 0 <= i < |d|
      ensures d[i] == d0[i] && p[i] == p0[i]
    {
      RowOfIndex(i, height, width);
      assert Idx(width, height, i % width, i / width) == i;
    }
  }

  // ---------------------------------------------------------------------------
  // Properties: the line walk

  lemma {:induction false} WalkEnds(l: Line, a: nat, b: nat)
    requires a <= Dx(l) && b <= Dy(l)
    ensures Walk(l, a, b)[|Walk(l, a, b)| - 1] == (l.x2, l.y2)
    decreases Dx(l) - a + Dy(l) - b
  {
    if a == Dx(l) && b == Dy(l) {
    } else {
      StepStaysOnSegment(l, a, b);
      WalkEnds(l, NextA(l, a, b), NextB(l, a, b));
    }
  }

  /** Only the last point of a walk is the end point. */
  lemma {:induction false} WalkStopsAtEnd(l: Line, a: nat, b: nat)
    requires a <= Dx(l) && b <= Dy(l)
    ensures forall k :: 0 <= k < |Walk(l, a, b)| - 1 ==> Walk(l, a, b)[k] != (l.x2, l.y2)
    decreases Dx(l) - a + Dy(l) - b
  {
    if a == Dx(l) && b == Dy(l) {
    } else {
      StepStaysOnSegment(l, a, b);
      WalkStopsAtEnd(l, NextA(l, a, b), NextB(l, a, b));
      assert At(l, a, b) != (l.x2, l.y2);
    }
  }

  /** Consecutive points differ by at most 1 in x and in y, and are never equal. */
  lemma {:induction false} WalkAdjacent(l: Line, a: nat, b: nat)
    requires a <= Dx(l) && b <= Dy(l)
    ensures forall k :: 0 <= k < |Walk(l, a, b)| - 1 ==>
      Abs(Walk(l, a, b)[k + 1].0 - Walk(l, a, b)[k].0) <= 1 &&
      Abs(Walk(l, a, b)[k + 1].1 - Walk(l, a, b)[k].1) <= 1 &&
      Walk(l, a, b)[k + 1] != Walk(l, a, b)[k]
    decreases Dx(l) - a + Dy(l) - b
  {
    if a == Dx(l) && b == Dy(l) {
    } else {
      StepStaysOnSegment(l, a, b);
      WalkAdjacent(l, NextA(l, a, b), NextB(l, a, b));
    }
  }

  /** Every point lies in the segment's bounding range. */
  lemma {:induction false} WalkInBox(l: Line, a: nat, b: nat)
    requires a <= Dx(l) && b <= Dy(l)
    ensures forall k :: 0 <= k < |Walk(l, a, b)| ==>
      Min(l.x1, l.x2) <= Walk(l, a, b)[k].0 <= Max(l.x1, l.x2) &&
      Min(l.y1, l.y2) <= Walk(l, a, b)[k].1 <= Max(l.y1, l.y2)
    decreases Dx(l) - a + Dy(l) - b
  {
    if a == Dx(l) && b == Dy(l) {
    } else {
      StepStaysOnSegment(l, a, b);
      WalkInBox(l, NextA(l, a, b), NextB(l, a, b));
    }
  }

  /** A walk has at least max(dx, dy) + 1 and at most dx + dy + 1 points, counted from step (a, b). */
  lemma {:induction false} WalkLength(l: Line, a: nat, b: nat)
    requires a <= Dx(l) && b <= Dy(l)
    ensures Max(Dx(l) - a, Dy(l) - b) + 1 <= |Walk(l, a, b)| <= Dx(l) - a + Dy(l) - b + 1
    decreases Dx(l) - a + Dy(l) - b
  {
    if a == Dx(l) && b == Dy(l) {
    } else {
      StepStaysOnSegment(l, a, b);
      WalkLength(l, NextA(l, a, b), NextB(l, a, b));
    }
  }

  /**
   * `drawLine` plots (x1, y1) first and (x2, y2) last, and only last; each step
   * moves x and y by at most 1; every point lies in the segment's bounding range;
   * and it plots between max(dx, dy) + 1 and dx + dy + 1 points.
   */
  lemma LineProperties(l: Line)
    ensures LinePoints(l)[0] == (l.x1, l.y1)
    ensures LinePoints(l)[|LinePoints(l)| - 1] == (l.x2, l.y2)
    ensures forall k :: 0 <= k < |LinePoints(l)| - 1 ==> LinePoints(l)[k] != (l.x2, l.y2)
    ensures forall k :: 0 <= k < |LinePoints(l)| - 1 ==>
      Abs(LinePoints(l)[k + 1].0 - LinePoints(l)[k].0) <= 1 &&
      Abs(LinePoints(l)[k + 1].1 - LinePoints(l)[k].1) <= 1
    ensures forall k :: 0 <= k < |LinePoints(l)| ==>
      Min(l.x1, l.x2) <= LinePoints(l)[k].0 <= Max(l.x1, l.x2) &&
      Min(l.y1, l.y2) <= LinePoints(l)[k].1 <= Max(l.y1, l.y2)
    ensures Max(Dx(l), Dy(l)) + 1 <= |LinePoints(l)| <= Dx(l) + Dy(l) + 1
  {
    WalkEnds(l, 0, 0);
    WalkStopsAtEnd(l, 0, 0);
    WalkAdjacent(l, 0, 0);
    WalkInBox(l, 0, 0);
    WalkLength(l, 0, 0);
  }
}
