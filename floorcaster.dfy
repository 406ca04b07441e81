/** The floor caster of `render`: for every screen row below the horizon it
    walks a straight line of floor points across the screen and copies one
    texel of the floor texture per pixel into a persistent row-major buffer
    covering the lower half of the screen. */
module FloorCaster {
  import opened Camera
  import opened Pixels

  /** `posZ / (y + 1)` with posZ = h / 2: how far away (in cells) the floor
      seen on buffer row y lies. */
  function RowDistance(h: nat, y: nat): (r: real)
    ensures h > 0 ==> r > 0.0
  {
    (0.5 * h as real) / (y as real + 1.0)
  }

  /** Rows further down the screen show floor closer to the player. */
  lemma RowDistanceDecreasing(h: nat, y: nat, y': nat)
    requires h > 0 && y < y'
    ensures RowDistance(h, y') < RowDistance(h, y)
  {
    var posZ := 0.5 * h as real;
    var a, b := RowDistance(h, y), RowDistance(h, y');
    assert a * (y as real + 1.0) == posZ;
    assert b * (y' as real + 1.0) == posZ;
    assert b * (y as real + 1.0) < b * (y' as real + 1.0);
  }

  /** How far the floor point moves per screen pixel along row y: one w-th
      of the row's span between the rays through the left (dir - plane) and
      right (dir + plane) screen edges. */
  function FloorStepX(st: PlayerState, w: nat, h: nat, y: nat): (r: real)
    requires w > 0
    // w steps cover the camera plane's full width, 2 * plane, at that distance
    ensures w as real * r == 2.0 * RowDistance(h, y) * st.planeX
  {
    RowDistance(h, y) * ((st.dirX + st.planeX) - (st.dirX - st.planeX)) / w as real
  }

  function FloorStepY(st: PlayerState, w: nat, h: nat, y: nat): (r: real)
    requires w > 0
    ensures w as real * r == 2.0 * RowDistance(h, y) * st.planeY
  {
    RowDistance(h, y) * ((st.dirY + st.planeY) - (st.dirY - st.planeY)) / w as real
  }

  /** The world point of the floor under screen pixel (x, y), accumulated as
      the caster does: the left edge ray (dir - plane) meets the floor at
      `pos + rowDistance * (dir - plane)`, and each pixel to the right adds
      one step. */
  function FloorX(st: PlayerState, w: nat, h: nat, y: nat, x: nat): real
    requires w > 0
  {
    if x == 0 then st.x + RowDistance(h, y) * (st.dirX - st.planeX)
    else FloorX(st, w, h, y, x - 1) + FloorStepX(st, w, h, y)
  }

  function FloorY(st: PlayerState, w: nat, h: nat, y: nat, x: nat): real
    requires w > 0
  {
    if x == 0 then st.y + RowDistance(h, y) * (st.dirY - st.planeY)
    else FloorY(st, w, h, y, x - 1) + FloorStepY(st, w, h, y)
  }

  /** The accumulated floor point lies on the straight line from the left
      edge point, x steps along. */
  lemma {:induction false} FloorOnLine(st: PlayerState, w: nat, h: nat, y: nat, x: nat)
    requires w > 0
    ensures FloorX(st, w, h, y, x) == FloorX(st, w, h, y, 0) + x as real * FloorStepX(st, w, h, y)
    ensures FloorY(st, w, h, y, x) == FloorY(st, w, h, y, 0) + x as real * FloorStepY(st, w, h, y)
  {
    if x > 0 {
      FloorOnLine(st, w, h, y, x - 1);
      var sx, sy := FloorStepX(st, w, h, y), FloorStepY(st, w, h, y);
      assert (x - 1) as real * sx + sx == x as real * sx;
      assert (x - 1) as real * sy + sy == x as real * sy;
    }
  }

  /** The floor point under pixel (x, y) is where that column's ray
      `dir + plane * (2x / w - 1)` meets the floor, `rowDistance` along it:
      the floor and the walls are cast along the same rays. */
  lemma FloorOnColumnRay(st: PlayerState, w: nat, h: nat, y: nat, x: nat)
    requires w > 0
    ensures FloorX(st, w, h, y, x) == st.x + RowDistance(h, y) * (st.dirX + st.planeX * (2.0 * x as real / w as real - 1.0))
    ensures FloorY(st, w, h, y, x) == st.y + RowDistance(h, y) * (st.dirY + st.planeY * (2.0 * x as real / w as real - 1.0))
  {
    FloorOnLine(st, w, h, y, x);
    var d, f := RowDistance(h, y), 2.0 * x as real / w as real;
    var sx, sy := FloorStepX(st, w, h, y), FloorStepY(st, w, h, y);
    assert x as real * sx == d * st.planeX * f by {
      assert sx == 2.0 * d * st.planeX / w as real;
    }
    assert x as real * sy == d * st.planeY * f by {
      assert sy == 2.0 * d * st.planeY / w as real;
    }
  }

  /** Across the whole row the floor point moves from where the left edge ray
      meets the floor to where the right edge ray (dir + plane) does. */
  lemma FloorRowEnds(st: PlayerState, w: nat, h: nat, y: nat)
    requires w > 0
    ensures FloorX(st, w, h, y, w) == st.x + RowDistance(h, y) * (st.dirX + st.planeX)
    ensures FloorY(st, w, h, y, w) == st.y + RowDistance(h, y) * (st.dirY + st.planeY)
  {
    FloorOnLine(st, w, h, y, w);
    var d := RowDistance(h, y);
    var spanX, spanY := d * ((st.dirX + st.planeX) - (st.dirX - st.planeX)), d * ((st.dirY + st.planeY) - (st.dirY - st.planeY));
    assert w as real * (spanX / w as real) == spanX;
    assert w as real * (spanY / w as real) == spanY;
  }

  /** `Math.floor(TEXTURE_SIZE * (v - Math.floor(v)))` with TEXTURE_SIZE = 2^k:
      the fractional part of a world coordinate scaled to the texture. Over
      exact reals it already lies inside the texture. */
  function Scaled(v: real, k: nat): (r: int)
    ensures 0 <= r < Pow2(k)
  {
    var size, frac := Pow2(k) as real, v - v.Floor as real;
    ScaledFraction(size, frac);
    (size * frac).Floor
  }

  /** One texture coordinate: the scaled fraction masked with 2^k - 1. The
      mask alone keeps it inside the texture, whatever rounding produced the
      scaled value. */
  function TexCoord(v: real, k: nat): (r: int)
    ensures 0 <= r < Pow2(k)
  {
    Mask(Scaled(v, k), k)
  }

  /** Over exact reals the mask never changes anything. */
  lemma TexCoordUnmasked(v: real, k: nat)
    ensures TexCoord(v, k) == Scaled(v, k)
  {
    MaskKeepsInRange(Scaled(v, k), k);
  }

  /** The texel `TEXTURE_SIZE * ty + tx` sampled for screen pixel (x, y) of
      the floor buffer. */
  function FloorSample(st: PlayerState, w: nat, h: nat, k: nat, y: nat, x: nat): (r: int)
    requires w > 0
    ensures 0 <= r < Pow2(k) * Pow2(k)
  {
    var tx, ty := TexCoord(FloorX(st, w, h, y, x), k), TexCoord(FloorY(st, w, h, y, x), k);
    TexelInRange(Pow2(k), tx, ty);
    Pow2(k) * ty + tx
  }

  /** The texel shown by the i-th cell of the floor buffer. */
  function PixelAt(floorTex: seq<int>, st: PlayerState, w: nat, h: nat, k: nat, i: nat): (r: int)
    requires w > 0 && |floorTex| == Pow2(k) * Pow2(k)
    // every floor pixel shows a texel of the floor texture
    ensures r in floorTex
  {
    floorTex[FloorSample(st, w, h, k, i / w, i % w)]
  }

  /** The floor-casting loops, in place on the buffer. `writes` logs every
      buffer index written, in order: it comes out as 0, 1, ..., length - 1,
      so every cell is written exactly once per frame. */
  method CastFloor(buffer: array<int>, floorTex: seq<int>, st: PlayerState, w: nat, h: nat, k: nat)
    returns (ghost writes: seq<int>)
    requires w > 0 && h % 2 == 0 && buffer.Length == (h / 2) * w
    requires |floorTex| == Pow2(k) * Pow2(k)
    modifies buffer
    ensures writes == seq(buffer.Length, i => i)
    ensures forall i :: 0 <= i < buffer.Length ==> buffer[i] == PixelAt(floorTex, st, w, h, k, i)
  {
    writes := [];
    var y := 0;
    while y < h / 2
      invariant 0 <= y <= h / 2
      invariant writes == seq(y * w, i => i)
      invariant forall i :: 0 <= i < y * w ==> buffer[i] == PixelAt(floorTex, st, w, h, k, i)
    {
      RowMajor(w, h / 2, y, w - 1);
      ghost var row := CastRow(buffer, floorTex, st, w, h, k, y, y * w);
      forall i | y * w <= i < y * w + w
        ensures buffer[i] == PixelAt(floorTex, st, w, h, k, i)
      {
        PixelAtCell(floorTex, st, w, h, k, y, i - y * w);
      }
      writes := writes + row;
      y := y + 1;
    }
  }

  /** One screen row of the floor caster: walks the floor points of row y
      from left to right and writes the w buffer cells from `start` on. */
  method CastRow(buffer: array<int>, floorTex: seq<int>, st: PlayerState, w: nat, h: nat, k: nat,
                 y: nat, start: nat)
    returns (ghost writes: seq<int>)
    requires w > 0 && start + w <= buffer.Length
    requires |floorTex| == Pow2(k) * Pow2(k)
    modifies buffer
    ensures writes == seq(w, i => start + i)
    ensures forall i :: 0 <= i < buffer.Length && !(start <= i < start + w) ==> buffer[i] == old(buffer[i])
    ensures forall j :: 0 <= j < w ==> buffer[start + j] == floorTex[FloorSample(st, w, h, k, y, j)]
  {
    var size := Pow2(k);
    // rowDistance * (rayDir1 - rayDir0) / w and pos + rowDistance * rayDir0
    var floorStepX, floorStepY := FloorStepX(st, w, h, y), FloorStepY(st, w, h, y);
    var floorX, floorY := FloorX(st, w, h, y, 0), FloorY(st, w, h, y, 0);
    writes := [];
    var x := 0;
    while x < w
      invariant 0 <= x <= w
      invariant floorX == FloorX(st, w, h, y, x) && floorY == FloorY(st, w, h, y, x)
      invariant writes == seq(x, i => start + i)
      invariant forall i :: 0 <= i < buffer.Length && !(start <= i < start + x) ==> buffer[i] == old(buffer[i])
      invariant forall j :: 0 <= j < x ==> buffer[start + j] == floorTex[FloorSample(st, w, h, k, y, j)]
    {
      var tx := Mask(Scaled(floorX, k), k);
      var ty := Mask(Scaled(floorY, k), k);
      floorX := floorX + floorStepX;
      floorY := floorY + floorStepY;
      assert size * ty + tx == FloorSample(st, w, h, k, y, x);
      var color := floorTex[size * ty + tx];
      buffer[start + x] := color;
      writes := writes + [start + x];
      x := x + 1;
    }
  }

  /** The cell of pixel (x, y) shows the texel sampled for that pixel. */
  lemma PixelAtCell(floorTex: seq<int>, st: PlayerState, w: nat, h: nat, k: nat, y: nat, x: nat)
    requires w > 0 && y < h / 2 && x < w && |floorTex| == Pow2(k) * Pow2(k)
    ensures 0 <= y * w + x < (h / 2) * w
    ensures PixelAt(floorTex, st, w, h, k, y * w + x) == floorTex[FloorSample(st, w, h, k, y, x)]
  {
    RowMajor(w, h / 2, y, x);
  }
}
