/**
 * The `Rasteriser` class of Acun3D/Rasteriser.cpp: a caller-owned pixel buffer,
 * its own depth buffer of width * height entries, and the drawing operations
 * that update both in place. The triangle draws take the vertices already
 * snapped to 28.4 fixed point, and the per-pixel depth and colour values that
 * the source interpolates in floating point, as inputs.
 */
module Rasterisers {
  import opened Matrices
  import opened Raster

  class Rasteriser {
    /** `_pixelBuffer`; `hasTarget` is `_pixelBuffer != 0`. */
    var pixels: array<Pixel>
    var hasTarget: bool
    /** `_depthBuffer`. */
    var depth: array<Depth>
    var width: nat
    var height: nat

    ghost predicate Valid()
      reads this
    {
      depth.Length == width * height && pixels.Length >= width * height
    }

    /** `Rasteriser()`: no pixel buffer and no depth buffer. */
    constructor ()
      ensures Valid() && !hasTarget && width == 0 && height == 0
    {
      pixels := new Pixel[0];
      depth := new Depth[0];
      hasTarget := false;
      width, height := 0, 0;
    }

    /** `Rasteriser(pixelBuffer, width, height)`: `setTarget` on a fresh rasteriser. */
    constructor WithTarget(buffer: array<Pixel>, w: nat, h: nat)
      requires buffer.Length >= w * h
      modifies buffer
      ensures Valid() && hasTarget && pixels == buffer && width == w && height == h && fresh(depth)
      ensures forall i :: 0 <= i < w * h ==> pixels[i] == White && depth[i] == Infinity
      ensures forall i :: w * h <= i < buffer.Length ==> pixels[i] == old(buffer[i])
    {
      pixels := new Pixel[0];
      depth := new Depth[0];
      hasTarget := false;
      width, height := 0, 0;
      new;
      SetTarget(buffer, w, h);
    }

    /** `setPixel`: writes `Pixel(colour)` at y * width + x when (x, y) is on the screen, and nothing otherwise. */
    method SetPixel(x: int, y: int, colour: int)
      requires Valid()
      modifies pixels
      ensures pixels[..] == SetPixelAt(old(pixels[..]), width, height, x, y, colour)
      ensures 0 <= x < width && 0 <= y < height ==> pixels[y * width + x] == IntPixel(colour)
      ensures !(0 <= x < width && 0 <= y < height) ==> pixels[..] == old(pixels[..])
    {
      if x >= 0 && y >= 0 && x < width && y < height {
        pixels[Idx(width, height, x, y)] := IntPixel(colour);
      }
    }

    /** `setTarget`: the new pixel buffer, a fresh depth buffer of width * height entries, then `beginScene(Pixel(255, 255, 255, 0))`. */
    method SetTarget(buffer: array<Pixel>, w: nat, h: nat)
      requires buffer.Length >= w * h
      modifies this, buffer
      ensures Valid() && hasTarget && pixels == buffer && width == w && height == h && fresh(depth)
      ensures forall i :: 0 <= i < w * h ==> pixels[i] == White && depth[i] == Infinity
      ensures forall i :: w * h <= i < buffer.Length ==> pixels[i] == old(buffer[i])
    {
      pixels := buffer;
      hasTarget := true;
      depth := new Depth[w * h];
      width, height := w, h;
      BeginScene(White);
    }

    /** `beginScene`: the first width * height pixels become `colour` and every depth +infinity. */
    method BeginScene(colour: Pixel)
      requires Valid()
      modifies pixels, depth
      ensures forall i :: 0 <= i < width * height ==> pixels[i] == colour
      ensures forall i :: width * height <= i < pixels.Length ==> pixels[i] == old(pixels[i])
      ensures forall i :: 0 <= i < depth.Length ==> depth[i] == Infinity
    {
      var n := width * height;
      for i := 0 to n
        invariant forall k :: 0 <= k < i ==> pixels[k] == colour
        invariant forall k :: i <= k < pixels.Length ==> pixels[k] == old(pixels[k])
      {
        pixels[i] := colour;
      }
      for i := 0 to n
        invariant forall k :: 0 <= k < i ==> depth[k] == Infinity
        invariant forall k :: 0 <= k < pixels.Length ==> pixels[k] == if k < n then colour else old(pixels[k])
      {
        depth[i] := Infinity;
      }
    }

    /**
     * `drawLine`: Bresenham's walk from (x1, y1) to (x2, y2), calling `setPixel`
     * at each point and stopping right after it plots (x2, y2).
     */
    method DrawLine(x1: int, y1: int, x2: int, y2: int, colour: int)
      requires Valid()
      modifies pixels
      ensures pixels[..] == PlotAll(old(pixels[..]), width, height, LinePoints(Line(x1, y1, x2, y2)), colour)
    {
      ghost var l := Line(x1, y1, x2, y2);
      var dx: int := Abs(x2 - x1);
      var dy: int := Abs(y2 - y1);
      var sx := if x1 < x2 then 1 else -1;
      var sy := if y1 < y2 then 1 else -1;
      var err := dx - dy;
      var x, y := x1, y1;
      ghost var a: nat, b: nat := 0, 0;
      while true
        invariant a <= dx && b <= dy
        invariant x == At(l, a, b).0 && y == At(l, a, b).1
        invariant err == Err(l, a, b)
        invariant PlotAll(pixels[..], width, height, Walk(l, a, b), colour)
               == PlotAll(old(pixels[..]), width, height, LinePoints(l), colour)
        decreases dx - a + dy - b
      {
        ghost var before := pixels[..];
        SetPixel(x, y, colour);
        AtEnd(l, a, b);
        if x == x2 && y == y2 {
          PlotLast(before, width, height, l, colour);
          break;
        }
        StepStaysOnSegment(l, a, b);
        PlotStep(before, width, height, l, a, b, colour);
        ghost var a', b' := NextA(l, a, b), NextB(l, a, b);
        ErrStep(l, a, b);
        ErrStep(l, a', b);
        var e2 := 2 * err;
        assert e2 > -dy <==> a' == a + 1;
        assert e2 < dx <==> b' == b + 1;
        if e2 > -dy {
          err := err - dy;
          x := x + sx;
          a := a + 1;
        }
        assert x == At(l, a, b).0 && err == Err(l, a, b);
        if e2 < dx {
          err := err + dx;
          y := y + sy;
          b := b + 1;
        }
        assert a == a' && b == b';
      }
    }

    /** The body of the inner loop for a claimed pixel at buffer index i: the depth test, then the new depth and the three colour bytes. */
    method Shade(i: nat, zv: real, strict: bool, c: Bytes)
      requires Valid() && i < depth.Length
      modifies pixels, depth
      ensures depth[..] == old(depth[..])[i := Tested(old(depth[i]), zv, strict)]
      ensures pixels[..] == old(pixels[..])[i := Shaded(old(pixels[i]), old(depth[i]), zv, strict, c)]
    {
      if Passes(depth[i], zv, strict) {
        depth[i] := Finite(zv);
        pixels[i] := Written(pixels[i], c);
      }
    }

    /**
     * One row of the scan: `check1 .. check3` are the row's starting accumulator
     * values, `row` is the buffer offset y * width. Columns minX .. maxX - 1 are
     * tested in order; the accumulators drop by `dx << 4` per column.
     */
    method FillRow(t: Triangle, bx: Box, y: nat, row: nat, check1: int, check2: int, check3: int,
                   strict: bool, z: (int, int) -> real, shade: (int, int) -> Bytes)
      requires Valid() && 0 <= bx.minX && bx.maxX <= width
      requires row + width <= depth.Length
      requires check1 == Check(E1(t), bx.minX, y) && check2 == Check(E2(t), bx.minX, y) && check3 == Check(E3(t), bx.minX, y)
      modifies pixels, depth
      ensures RowFilled(old(pixels[..]), old(depth[..]), pixels[..], depth[..], width, row, y, t, bx, bx.maxX, strict, z, shade)
    {
      ghost var p1, d1 := pixels[..], depth[..];
      var e1, e2, e3 := E1(t), E2(t), E3(t);
      var check1Temp, check2Temp, check3Temp := check1, check2, check3;
      var x := bx.minX;
      RowFilledNone(p1, d1, width, row, y, t, bx, strict, z, shade);
      while x < bx.maxX
        invariant bx.minX <= x && (x <= bx.maxX || x == bx.minX)
        invariant check1Temp == Check(e1, x, y) && check2Temp == Check(e2, x, y) && check3Temp == Check(e3, x, y)
        invariant |pixels[..]| == |p1| && |depth[..]| == |d1|
        invariant RowFilled(p1, d1, pixels[..], depth[..], width, row, y, t, bx, x, strict, z, shade)
      {
        ghost var p, d := pixels[..], depth[..];
        if check1Temp > 0 && check2Temp > 0 && check3Temp > 0 {
          Shade(row + x, z(x, y), strict, shade(x, y));
        }
        RowFilledStep(p1, d1, p, d, pixels[..], depth[..], width, row, y, t, bx, x, strict, z, shade);
        CheckStep(e1, x, y);
        CheckStep(e2, x, y);
        CheckStep(e3, x, y);
        check1Temp := check1Temp - 16 * e1.dx;
        check2Temp := check2Temp - 16 * e2.dx;
        check3Temp := check3Temp - 16 * e3.dx;
        x := x + 1;
      }
      RowFilledAll(p1, d1, pixels[..], depth[..], width, row, y, t, bx, x, strict, z, shade);
    }

    /**
     * The skeleton the four `drawTriangle` overloads share: nothing without a
     * pixel buffer; otherwise the clamped bounding box, the initial accumulators
     * with the fill-rule bias, and the row-by-row scan, each claimed pixel
     * depth-tested (strictly or not) and, when it passes, written.
     */
    method Fill(t: Triangle, strict: bool, z: (int, int) -> real, shade: (int, int) -> Bytes)
      requires Valid()
      modifies pixels, depth
      ensures Drawn(old(pixels[..]), old(depth[..]), pixels[..], depth[..], width, height, hasTarget, t, strict, z, shade)
    {
      if !hasTarget {
        return;
      }
      var e1, e2, e3 := E1(t), E2(t), E3(t);
      var minX := (Min3(t.p1.x, t.p2.x, t.p3.x) + 15) / 16;
      var maxX := (Max3(t.p1.x, t.p2.x, t.p3.x) + 15) / 16;
      var minY := (Min3(t.p1.y, t.p2.y, t.p3.y) + 15) / 16;
      var maxY := (Max3(t.p1.y, t.p2.y, t.p3.y) + 15) / 16;
      if minX < 0 {
        minX := 0;
      }
      if minY < 0 {
        minY := 0;
      }
      if maxX >= width {
        maxX := width - 1;
      }
      if maxY >= height {
        maxY := height - 1;
      }
      var bx := Box(minX, maxX, minY, maxY);
      assert bx == BoundingBox(t, width, height);
      var check1 := e1.dy * (minY * 16) - e1.dy * e1.y - e1.dx * (minX * 16) + e1.dx * e1.x;
      var check2 := e2.dy * (minY * 16) - e2.dy * e2.y - e2.dx * (minX * 16) + e2.dx * e2.x;
      var check3 := e3.dy * (minY * 16) - e3.dy * e3.y - e3.dx * (minX * 16) + e3.dx * e3.x;
      if e1.dx < 0 || (e1.dx == 0 && e1.dy > 0) {
        check1 := check1 + 1;
      }
      if e2.dx < 0 || (e2.dx == 0 && e2.dy > 0) {
        check2 := check2 + 1;
      }
      if e3.dx < 0 || (e3.dx == 0 && e3.dy > 0) {
        check3 := check3 + 1;
      }
      InitialCheck(e1, minX, minY);
      InitialCheck(e2, minX, minY);
      InitialCheck(e3, minX, minY);
      Scan(t, bx, check1, check2, check3, strict, z, shade);
    }

    /** The row loop of `drawTriangle`, from the box's first row, with `buffer` starting at minY * width. */
    method Scan(t: Triangle, bx: Box, check1: int, check2: int, check3: int,
                strict: bool, z: (int, int) -> real, shade: (int, int) -> Bytes)
      requires Valid() && bx == BoundingBox(t, width, height)
      requires check1 == Check(E1(t), bx.minX, bx.minY) && check2 == Check(E2(t), bx.minX, bx.minY)
      requires check3 == Check(E3(t), bx.minX, bx.minY)
      modifies pixels, depth
      ensures Drawn(old(pixels[..]), old(depth[..]), pixels[..], depth[..], width, height, true, t, strict, z, shade)
    {
      var e1, e2, e3 := E1(t), E2(t), E3(t);
      var check1, check2, check3 := check1, check2, check3;
      ghost var p0, d0 := pixels[..], depth[..];
      RowsDoneNone(p0, d0, width, height, t, strict, z, shade);
      MulMono(0, bx.minY, width);
      var row := bx.minY * width;
      var y := bx.minY;
      while y < bx.maxY
        invariant bx.minY <= y && (y <= bx.maxY || y == bx.minY)
        invariant 0 <= row == y * width
        invariant check1 == Check(e1, bx.minX, y) && check2 == Check(e2, bx.minX, y) && check3 == Check(e3, bx.minX, y)
        invariant |pixels[..]| == |p0| && |depth[..]| == |d0|
        invariant RowsDone(p0, d0, pixels[..], depth[..], width, height, t, strict, z, shade, y)
      {
        MulMono(y + 1, height, width);
        assert (y + 1) * width == row + width;
        ghost var p1, d1 := pixels[..], depth[..];
        FillRow(t, bx, y, row, check1, check2, check3, strict, z, shade);
        RowsDoneStep(p0, d0, p1, d1, pixels[..], depth[..], width, height, t, strict, z, shade, y);
        CheckStep(e1, bx.minX, y);
        CheckStep(e2, bx.minX, y);
        CheckStep(e3, bx.minX, y);
        row := row + width;
        check1 := check1 + 16 * e1.dy;
        check2 := check2 + 16 * e2.dy;
        check3 := check3 + 16 * e3.dy;
        y := y + 1;
      }
      RowsDoneAll(p0, d0, pixels[..], depth[..], width, height, t, strict, z, shade, y);
    }

    /** Overload 1 (Gouraud colour): strict depth test, `colour(x, y)` gives i1, i2, i3. */
    method DrawTriangle(t: Triangle, z: (int, int) -> real, colour: (int, int) -> Bytes)
      requires Valid()
      modifies pixels, depth
      ensures Drawn(old(pixels[..]), old(depth[..]), pixels[..], depth[..], width, height, hasTarget, t, true, z, colour)
    {
      Fill(t, true, z, colour);
    }

    /** Overload 2 (textured): strict depth test; the texel at the clamped coordinates is blended into i1, i2, i3. */
    method DrawTriangleTextured(t: Triangle, z: (int, int) -> real, tex: Texture,
                                uv: (int, int) -> (int, int), blend: (int, int, Pixel) -> Bytes)
      requires Valid() && ValidTexture(tex)
      modifies pixels, depth
      ensures Drawn(old(pixels[..]), old(depth[..]), pixels[..], depth[..], width, height, hasTarget, t, true, z,
                    TexturedShade(tex, uv, blend))
    {
      Fill(t, true, z, TexturedShade(tex, uv, blend));
    }

    /** Overload 3 (per-pixel lighting): non-strict depth test, `light(x, y)` gives i1, i2, i3. */
    method DrawTriangleLit(t: Triangle, z: (int, int) -> real, light: (int, int) -> Bytes)
      requires Valid()
      modifies pixels, depth
      ensures Drawn(old(pixels[..]), old(depth[..]), pixels[..], depth[..], width, height, hasTarget, t, false, z, light)
    {
      Fill(t, false, z, light);
    }

    /** Overload 4 (lit and textured): non-strict depth test; the texel at the clamped coordinates is blended with the light. */
    method DrawTriangleLitTextured(t: Triangle, z: (int, int) -> real, tex: Texture,
                                   uv: (int, int) -> (int, int), blend: (int, int, Pixel) -> Bytes)
      requires Valid() && ValidTexture(tex)
      modifies pixels, depth
      ensures Drawn(old(pixels[..]), old(depth[..]), pixels[..], depth[..], width, height, hasTarget, t, false, z,
                    TexturedShade(tex, uv, blend))
    {
      Fill(t, false, z, TexturedShade(tex, uv, blend));
    }
  }

  /** The source's expansion of the initial accumulator, plus the bias, is the edge function at (px, py). */
  lemma InitialCheck(e: Edge, px: int, py: int)
    ensures e.dy * (py * 16) - e.dy * e.y - e.dx * (px * 16) + e.dx * e.x + Bias(e) == Check(e, px, py)
  {
    assert e.dy * (16 * py - e.y) == e.dy * (py * 16) - e.dy * e.y;
    assert e.dx * (16 * px - e.x) == e.dx * (px * 16) - e.dx * e.x;
  }

  /** Buffer index i is column i - row of row y, scanned before column upTo and claimed by t. */
  predicate Scanned(row: int, width: int, y: int, t: Triangle, bx: Box, upTo: int, i: int)
  {
    row <= i < row + width && bx.minX <= i - row < upTo && Inside(t, i - row, y)
  }

  /**
   * p2 and d2 are p1 and d1 after columns minX .. upTo - 1 of row y (at buffer
   * offset `row`) have been scanned; nothing outside the row has changed.
   */
  ghost predicate RowFilled(p1: seq<Pixel>, d1: seq<Depth>, p2: seq<Pixel>, d2: seq<Depth>,
                            width: nat, row: nat, y: int, t: Triangle, bx: Box, upTo: int,
                            strict: bool, z: (int, int) -> real, shade: (int, int) -> Bytes)
  {
    && |p2| == |p1| && |d2| == |d1| && row + width <= |d1| <= |p1|
    && (forall i :: 0 <= i < |d1| ==>
          d2[i] == if Scanned(row, width, y, t, bx, upTo, i) then Tested(d1[i], z(i - row, y), strict) else d1[i])
    && (forall i :: 0 <= i < |p1| ==>
          p2[i] == if Scanned(row, width, y, t, bx, upTo, i)
                   then Shaded(p1[i], d1[i], z(i - row, y), strict, shade(i - row, y)) else p1[i])
  }

  lemma RowFilledNone(p1: seq<Pixel>, d1: seq<Depth>, width: nat, row: nat, y: int, t: Triangle, bx: Box,
                      strict: bool, z: (int, int) -> real, shade: (int, int) -> Bytes)
    requires row + width <= |d1| <= |p1|
    ensures RowFilled(p1, d1, p1, d1, width, row, y, t, bx, bx.minX, strict, z, shade)
  {
  }

  /** Column x of the row: a claimed pixel is shaded at `row + x`, any other leaves both buffers as they were. */
  lemma RowFilledStep(p1: seq<Pixel>, d1: seq<Depth>, p: seq<Pixel>, d: seq<Depth>, p': seq<Pixel>, d': seq<Depth>,
                      width: nat, row: nat, y: int, t: Triangle, bx: Box, x: int,
                      strict: bool, z: (int, int) -> real, shade: (int, int) -> Bytes)
    requires 0 <= bx.minX <= x < bx.maxX <= width
    requires RowFilled(p1, d1, p, d, width, row, y, t, bx, x, strict, z, shade)
    requires Inside(t, x, y) ==>
      d' == d[row + x := Tested(d[row + x], z(x, y), strict)]
      && p' == p[row + x := Shaded(p[row + x], d[row + x], z(x, y), strict, shade(x, y))]
    requires !Inside(t, x, y) ==> d' == d && p' == p
    ensures RowFilled(p1, d1, p', d', width, row, y, t, bx, x + 1, strict, z, shade)
  {
    assert !Scanned(row, width, y, t, bx, x, row + x);
    assert d[row + x] == d1[row + x] && p[row + x] == p1[row + x];
  }

  lemma RowFilledAll(p1: seq<Pixel>, d1: seq<Depth>, p: seq<Pixel>, d: seq<Depth>,
                     width: nat, row: nat, y: int, t: Triangle, bx: Box, x: int,
                     strict: bool, z: (int, int) -> real, shade: (int, int) -> Bytes)
    requires x == bx.maxX || (x == bx.minX && bx.maxX <= bx.minX)
    requires RowFilled(p1, d1, p, d, width, row, y, t, bx, x, strict, z, shade)
    ensures RowFilled(p1, d1, p, d, width, row, y, t, bx, bx.maxX, strict, z, shade)
  {
    forall i ensures Scanned(row, width, y, t, bx, x, i) == Scanned(row, width, y, t, bx, bx.maxX, i) {
    }
  }

  /** p and d are p0 and d0 after the claimed pixels of the rows before `rows` have been drawn. */
  ghost predicate RowsDone(p0: seq<Pixel>, d0: seq<Depth>, p: seq<Pixel>, d: seq<Depth>,
                           width: nat, height: nat, t: Triangle, strict: bool,
                           z: (int, int) -> real, shade: (int, int) -> Bytes, rows: int)
    requires |d0| == width * height && |p0| >= width * height
  {
    && |p| == |p0| && |d| == |d0|
    && (forall px, py :: 0 <= px < width && 0 <= py < height ==>
          d[Idx(width, height, px, py)]
          == if py < rows && Claims(t, width, height, px, py)
             then Tested(d0[Idx(width, height, px, py)], z(px, py), strict)
             else d0[Idx(width, height, px, py)])
    && (forall px, py :: 0 <= px < width && 0 <= py < height ==>
          p[Idx(width, height, px, py)]
          == if py < rows && Claims(t, width, height, px, py)
             then Shaded(p0[Idx(width, height, px, py)], d0[Idx(width, height, px, py)], z(px, py), strict, shade(px, py))
             else p0[Idx(width, height, px, py)])
    && (forall i :: width * height <= i < |p| ==> p[i] == p0[i])
  }

  lemma RowsDoneNone(p0: seq<Pixel>, d0: seq<Depth>, width: nat, height: nat, t: Triangle, strict: bool,
                     z: (int, int) -> real, shade: (int, int) -> Bytes)
    requires |d0| == width * height && |p0| >= width * height
    ensures RowsDone(p0, d0, p0, d0, width, height, t, strict, z, shade, BoundingBox(t, width, height).minY)
  {
  }

  /** Scanning row y of the box extends the drawn rows by one. */
  lemma RowsDoneStep(p0: seq<Pixel>, d0: seq<Depth>, p1: seq<Pixel>, d1: seq<Depth>, p2: seq<Pixel>, d2: seq<Depth>,
                     width: nat, height: nat, t: Triangle, strict: bool,
                     z: (int, int) -> real, shade: (int, int) -> Bytes, y: nat)
    requires |d0| == width * height && |p0| >= width * height
    requires BoundingBox(t, width, height).minY <= y < BoundingBox(t, width, height).maxY
    requires 0 <= BoundingBox(t, width, height).minX && BoundingBox(t, width, height).maxX <= width
    requires RowsDone(p0, d0, p1, d1, width, height, t, strict, z, shade, y)
    requires RowFilled(p1, d1, p2, d2, width, y * width, y, t, BoundingBox(t, width, height),
                       BoundingBox(t, width, height).maxX, strict, z, shade)
    ensures RowsDone(p0, d0, p2, d2, width, height, t, strict, z, shade, y + 1)
  {
    var bx := BoundingBox(t, width, height);
    forall px, py | 0 <= px < width && 0 <= py < height
      ensures d2[Idx(width, height, px, py)]
              == if py < y + 1 && Claims(t, width, height, px, py)
                 then Tested(d0[Idx(width, height, px, py)], z(px, py), strict)
                 else d0[Idx(width, height, px, py)]
      ensures p2[Idx(width, height, px, py)]
              == if py < y + 1 && Claims(t, width, height, px, py)
                 then Shaded(p0[Idx(width, height, px, py)], d0[Idx(width, height, px, py)], z(px, py), strict, shade(px, py))
                 else p0[Idx(width, height, px, py)]
    {
      RowSeparation(px, py, y, width);
      var i := Idx(width, height, px, py);
      assert Scanned(y * width, width, y, t, bx, bx.maxX, i) <==> py == y && Claims(t, width, height, px, py);
      if py == y {
        assert i - y * width == px;
      }
    }
    forall i | width * height <= i < |p2|
      ensures p2[i] == p0[i]
    {
      MulMono(y + 1, height, width);
    }
  }

  /** Once the scan is past the box's last row, the buffers are as `Drawn` describes. */
  lemma RowsDoneAll(p0: seq<Pixel>, d0: seq<Depth>, p: seq<Pixel>, d: seq<Depth>,
                    width: nat, height: nat, t: Triangle, strict: bool,
                    z: (int, int) -> real, shade: (int, int) -> Bytes, rows: int)
    requires |d0| == width * height && |p0| >= width * height
    requires rows >= BoundingBox(t, width, height).maxY
    requires RowsDone(p0, d0, p, d, width, height, t, strict, z, shade, rows)
    ensures Drawn(p0, d0, p, d, width, height, true, t, strict, z, shade)
  {
  }

  /** Pixel (px, py) lies in row y's index range [y * width, y * width + width) exactly when py == y. */
  lemma RowSeparation(px: nat, py: nat, y: nat, width: nat)
    requires px < width
    ensures py == y <==> y * width <= py * width + px < y * width + width
  {
    if py < y {
      MulMono(py + 1, y, width);
    } else if py > y {
      MulMono(y + 1, py, width);
    }
  }
}
