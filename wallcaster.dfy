/** The wall pass of `render`: one ray per screen column, traced through the
    grid with the DDA (digital differential analyser) walk until it enters a
    wall cell, then turned into a clipped vertical span, a texture column and
    a texture (possibly one frame of an animation). */
module WallCaster {
  import opened World
  import opened Camera
  import opened Pixels

  datatype Option<T> = None | Some(value: T)

  /** A non-negative distance along a ray as JavaScript computes it:
      `Math.abs(1 / 0)` is Infinity, which no finite value reaches and which
      absorbs additions. It arises whenever a ray is parallel to a grid axis
      (e.g. the centre column of the initial pose, whose ray is (-1, 0)). */
  datatype Dist = Finite(v: real) | Infinite

  /** `a < b` on distances. */
  predicate Less(a: Dist, b: Dist) {
    match a
    case Infinite => false
    case Finite(u) => b.Infinite? || u < b.v
  }

  /** `a + b` on distances. */
  function Add(a: Dist, b: Dist): (r: Dist)
    ensures r.Infinite? <==> a.Infinite? || b.Infinite?
  {
    if a.Finite? && b.Finite? then Finite(a.v + b.v) else Infinite
  }

  /** `Math.abs(1 / d)`: the ray length between two grid lines of one axis. */
  function DeltaDist(d: real): (r: Dist)
    ensures r.Infinite? <==> d == 0.0
    ensures r.Finite? ==> r.v > 0.0
  {
    if d == 0.0 then Infinite else if d < 0.0 then Finite(-1.0 / d) else Finite(1.0 / d)
  }

  /** `a * delta` where a > 0 or delta is finite (so 0 * Infinity, which would
      be NaN, never arises). */
  function Scale(a: real, delta: Dist): (r: Dist)
    requires a > 0.0 || delta.Finite?
    ensures r.Infinite? <==> delta.Infinite?
  {
    match delta
    case Infinite => Infinite
    case Finite(v) => Finite(a * v)
  }

  /** The per-ray constants of the walk: the step direction on each axis (-1
      for a negative ray component, 1 otherwise) and the ray length between
      grid lines of each axis. */
  datatype Ray = Ray(stepX: int, stepY: int, deltaDistX: Dist, deltaDistY: Dist)

  function RayOf(rayDirX: real, rayDirY: real): (g: Ray)
    ensures g.stepX == -1 <==> rayDirX < 0.0
    ensures g.stepY == -1 <==> rayDirY < 0.0
    ensures (g.stepX == -1 || g.stepX == 1) && (g.stepY == -1 || g.stepY == 1)
    ensures g.deltaDistX.Infinite? <==> rayDirX == 0.0
    ensures g.deltaDistY.Infinite? <==> rayDirY == 0.0
  {
    Ray(if rayDirX < 0.0 then -1 else 1, if rayDirY < 0.0 then -1 else 1,
        DeltaDist(rayDirX), DeltaDist(rayDirY))
  }

  /** The mutable state of the walk: the current cell, the ray length to the
      next grid line of each axis, and which axis was crossed last (0 for x,
      1 for y). */
  datatype Dda = Dda(mapX: int, mapY: int, sideDistX: Dist, sideDistY: Dist, side: int)

  /** What every state of a walk along ray g satisfies: the steps are unit
      steps, and an axis's next-crossing distance is infinite exactly when the
      ray never crosses that axis's grid lines. */
  predicate Consistent(s: Dda, g: Ray) {
    && (g.stepX == -1 || g.stepX == 1) && (g.stepY == -1 || g.stepY == 1)
    && (s.sideDistX.Infinite? <==> g.deltaDistX.Infinite?)
    && (s.sideDistY.Infinite? <==> g.deltaDistY.Infinite?)
  }

  /** The state before the first step: the player's cell, and the distance
      from the player to the first grid line the ray meets on each axis. */
  function Start(px: real, py: real, rayDirX: real, rayDirY: real): (s: Dda)
    ensures s.mapX == px.Floor && s.mapY == py.Floor
    ensures Consistent(s, RayOf(rayDirX, rayDirY))
  {
    var g := RayOf(rayDirX, rayDirY);
    var mapX, mapY := px.Floor, py.Floor;
    Dda(mapX, mapY,
        if rayDirX < 0.0 then Scale(px - mapX as real, g.deltaDistX) else Scale(mapX as real + 1.0 - px, g.deltaDistX),
        if rayDirY < 0.0 then Scale(py - mapY as real, g.deltaDistY) else Scale(mapY as real + 1.0 - py, g.deltaDistY),
        0)
  }

  /** One iteration of the walk: cross the nearer grid line. */
  function Advance(s: Dda, g: Ray): (r: Dda)
    requires Consistent(s, g)
    // exactly one coordinate moves, by its unit step, and `side` names it
    ensures || (r.side == 0 && r.mapX == s.mapX + g.stepX && r.mapY == s.mapY)
            || (r.side == 1 && r.mapY == s.mapY + g.stepY && r.mapX == s.mapX)
    // x is crossed only along a ray that crosses x grid lines; y is crossed
    // only if the ray crosses y grid lines or never crosses x grid lines
    ensures r.side == 0 ==> g.deltaDistX.Finite?
    ensures r.side == 1 ==> g.deltaDistY.Finite? || g.deltaDistX.Infinite?
    ensures Consistent(r, g)
  {
    if Less(s.sideDistX, s.sideDistY) then
      s.(sideDistX := Add(s.sideDistX, g.deltaDistX), mapX := s.mapX + g.stepX, side := 0)
    else
      s.(sideDistY := Add(s.sideDistY, g.deltaDistY), mapY := s.mapY + g.stepY, side := 1)
  }

  /** Cells left before the border in the stepping direction of each axis. */
  function Remaining(m: WorldMap, mapX: int, mapY: int, stepX: int, stepY: int): int
    requires Rectangular(m)
  {
    (if stepX == 1 then |m| - 1 - mapX else mapX) + (if stepY == 1 then |m[0]| - 1 - mapY else mapY)
  }

  /** The walk from s to the first wall cell (value > 0) it enters. On a
      walled map it cannot leave the grid, so it ends. */
  function CastFrom(m: WorldMap, s: Dda, g: Ray): (r: Dda)
    requires Rectangular(m) && Walled(m) && Interior(m, s.mapX, s.mapY) && Consistent(s, g)
    ensures InBounds(m, r.mapX, r.mapY) && m[r.mapX][r.mapY] > 0
    ensures Consistent(r, g) && (r.side == 0 || r.side == 1)
    // the walk only ever moves forward along each axis
    ensures g.stepX == 1 ==> r.mapX >= s.mapX
    ensures g.stepX == -1 ==> r.mapX <= s.mapX
    ensures g.stepY == 1 ==> r.mapY >= s.mapY
    ensures g.stepY == -1 ==> r.mapY <= s.mapY
    // the axis crossed last has moved away from its start
    ensures r.side == 0 ==> r.mapX != s.mapX && g.deltaDistX.Finite?
    ensures r.side == 1 ==> r.mapY != s.mapY && (g.deltaDistY.Finite? || g.deltaDistX.Infinite?)
    // so unless the ray is parallel to the y axis, the axis crossed last has a finite delta
    ensures g.deltaDistX.Finite? || g.deltaDistY.Finite? ==> (r.side == 1 ==> g.deltaDistY.Finite?)
    decreases Remaining(m, s.mapX, s.mapY, g.stepX, g.stepY)
  {
    var n := Advance(s, g);
    NeighbourInBounds(m, s.mapX, s.mapY, n.mapX, n.mapY);
    if m[n.mapX][n.mapY] > 0 then n
    else
      OpenCellIsInterior(m, n.mapX, n.mapY);
      CastFrom(m, n, g)
  }

  /** The DDA loop of `render` for one ray, from the player's cell. */
  method TraceRay(m: WorldMap, px: real, py: real, rayDirX: real, rayDirY: real) returns (r: Dda)
    requires Rectangular(m) && Walled(m) && Interior(m, px.Floor, py.Floor)
    ensures r == CastFrom(m, Start(px, py, rayDirX, rayDirY), RayOf(rayDirX, rayDirY))
  {
    var mapX, mapY := px.Floor, py.Floor;
    var deltaDistX, deltaDistY := DeltaDist(rayDirX), DeltaDist(rayDirY);
    var stepX, stepY;
    var sideDistX, sideDistY;
    if rayDirX < 0.0 {
      stepX := -1;
      sideDistX := Scale(px - mapX as real, deltaDistX);
    } else {
      stepX := 1;
      sideDistX := Scale(mapX as real + 1.0 - px, deltaDistX);
    }
    if rayDirY < 0.0 {
      stepY := -1;
      sideDistY := Scale(py - mapY as real, deltaDistY);
    } else {
      stepY := 1;
      sideDistY := Scale(mapY as real + 1.0 - py, deltaDistY);
    }
    ghost var g := RayOf(rayDirX, rayDirY);
    ghost var start := Start(px, py, rayDirX, rayDirY);
    assert g == Ray(stepX, stepY, deltaDistX, deltaDistY);
    assert start == Dda(mapX, mapY, sideDistX, sideDistY, 0);
    var hit, side := 0, 0;
    while hit == 0
      invariant hit == 0 || hit == 1
      invariant Consistent(Dda(mapX, mapY, sideDistX, sideDistY, side), g)
      invariant hit == 0 ==> Interior(m, mapX, mapY)
      invariant hit == 0 ==> CastFrom(m, Dda(mapX, mapY, sideDistX, sideDistY, side), g) == CastFrom(m, start, g)
      invariant hit == 1 ==> Dda(mapX, mapY, sideDistX, sideDistY, side) == CastFrom(m, start, g)
      decreases 1 - hit, if hit == 0 then Remaining(m, mapX, mapY, stepX, stepY) else 0
    {
      ghost var before := Dda(mapX, mapY, sideDistX, sideDistY, side);
      if Less(sideDistX, sideDistY) {
        sideDistX := Add(sideDistX, deltaDistX);
        mapX := mapX + stepX;
        side := 0;
      } else {
        sideDistY := Add(sideDistY, deltaDistY);
        mapY := mapY + stepY;
        side := 1;
      }
      assert Dda(mapX, mapY, sideDistX, sideDistY, side) == Advance(before, g);
      NeighbourInBounds(m, before.mapX, before.mapY, mapX, mapY);
      if m[mapX][mapY] > 0 {
        hit := 1;
      } else {
        OpenCellIsInterior(m, mapX, mapY);
      }
    }
    r := Dda(mapX, mapY, sideDistX, sideDistY, side);
  }

  /** `perpWallDist`: the distance from the camera plane to the wall along
      the view direction (not along the ray, which would bend straight walls). */
  function PerpWallDist(px: real, py: real, rayDirX: real, rayDirY: real, r: Dda, g: Ray): (d: real)
    requires r.side == 0 ==> rayDirX != 0.0
    requires r.side != 0 ==> rayDirY != 0.0
    // `pos + d * rayDir` lies on the grid line of the face the walk crossed
    // last: the near face of the hit cell (mapX for a ray going +x, mapX + 1
    // for one going -x; likewise for y)
    ensures r.side == 0 ==> px + d * rayDirX == r.mapX as real + (1 - g.stepX) as real / 2.0
    ensures r.side != 0 ==> py + d * rayDirY == r.mapY as real + (1 - g.stepY) as real / 2.0
  {
    if r.side == 0 then
      var num := r.mapX as real - px + (1 - g.stepX) as real / 2.0;
      Cancel(num, rayDirX);
      num / rayDirX
    else
      var num := r.mapY as real - py + (1 - g.stepY) as real / 2.0;
      Cancel(num, rayDirY);
      num / rayDirY
  }

  /** The hit of a non-zero ray is never behind the camera plane. */
  lemma PerpNonNegative(m: WorldMap, px: real, py: real, rayDirX: real, rayDirY: real)
    requires Rectangular(m) && Walled(m) && Interior(m, px.Floor, py.Floor)
    requires rayDirX != 0.0 || rayDirY != 0.0
    ensures var g := RayOf(rayDirX, rayDirY);
            var r := CastFrom(m, Start(px, py, rayDirX, rayDirY), g);
            && (r.side == 0 ==> rayDirX != 0.0) && (r.side != 0 ==> rayDirY != 0.0)
            && PerpWallDist(px, py, rayDirX, rayDirY, r, g) >= 0.0
            // a zero distance is a zero numerator over a negative component
            && (PerpWallDist(px, py, rayDirX, rayDirY, r, g) == 0.0 ==>
                  if r.side == 0 then rayDirX < 0.0 else rayDirY < 0.0)
  {
    var g := RayOf(rayDirX, rayDirY);
    var r := CastFrom(m, Start(px, py, rayDirX, rayDirY), g);
    if r.side == 0 {
      var num := r.mapX as real - px + (1 - g.stepX) as real / 2.0;
      if rayDirX < 0.0 {
        assert r.mapX + 1 <= px.Floor;
        Quotient(num, rayDirX);
      } else {
        assert r.mapX >= px.Floor + 1;
        Quotient(num, rayDirX);
      }
    } else {
      var num := r.mapY as real - py + (1 - g.stepY) as real / 2.0;
      if rayDirY < 0.0 {
        assert r.mapY + 1 <= py.Floor;
        Quotient(num, rayDirY);
      } else {
        assert r.mapY >= py.Floor + 1;
        Quotient(num, rayDirY);
      }
    }
  }

  lemma Quotient(a: real, b: real)
    requires (a > 0.0 && b > 0.0) || (a <= 0.0 && b < 0.0)
    ensures a / b >= 0.0 && (b > 0.0 ==> a / b > 0.0)
  {
    assert (a / b) * b == a;
  }

  /** `Math.floor(h / perpWallDist)`. A distance of 0 only ever comes out of
      0 divided by a negative ray component (see PerpNonNegative), which in
      IEEE arithmetic is -0, so the quotient is -Infinity. */
  datatype Height = Height(n: int) | NegInfinite

  function LineHeight(h: nat, perp: real): (r: Height)
    requires perp >= 0.0
    ensures r.NegInfinite? <==> perp == 0.0
    ensures r.Height? ==> r.n >= 0
  {
    if perp == 0.0 then NegInfinite else Height((h as real / perp).Floor)
  }

  /** Nearer walls are drawn at least as tall as farther ones. */
  lemma NearerIsTaller(h: nat, near: real, far: real)
    requires 0.0 < near <= far
    ensures LineHeight(h, near).n >= LineHeight(h, far).n
  {
    var a, b := h as real / near, h as real / far;
    assert a * near == h as real && b * far == h as real;
    assert b * near <= b * far;
    assert (a - b) * near >= 0.0;
    assert a >= b;
  }

  /** The rows `[drawStart, drawEnd]` a column covers. `Inverted` is what a
      line height of -Infinity gives: drawStart = +Infinity and drawEnd =
      -Infinity pass both clamps unchanged, and the canvas ignores a
      rectangle with non-finite coordinates, so nothing is drawn. */
  datatype Span = Span(drawStart: real, drawEnd: real) | Inverted

  /** `-lineHeight / 2 + h / 2` raised to 0 and `lineHeight / 2 + h / 2`
      lowered to h - 1 when it reaches h (JavaScript `/` is real division). */
  function ClipSpan(lh: Height, h: nat): (r: Span)
    requires h > 0 && (lh.Height? ==> lh.n >= 0)
    ensures r.Inverted? <==> lh.NegInfinite?
    ensures r.Span? ==> 0.0 <= r.drawStart <= r.drawEnd < h as real
    // drawEnd exceeds h - 1 only for a line one row shorter than the screen,
    // whose end lands half a row past it (h - 1/2), below the `>= h` guard
    ensures r.Span? ==> (r.drawEnd <= (h - 1) as real <==> lh != Height(h - 1))
    // a line that fits is centred on the horizon and keeps its height; a
    // taller one fills the column
    ensures lh.Height? && lh.n < h ==>
              r.drawStart + r.drawEnd == h as real && r.drawEnd - r.drawStart == lh.n as real
    ensures lh.Height? && lh.n >= h ==> r == Span(0.0, (h - 1) as real)
  {
    match lh
    case NegInfinite => Inverted
    case Height(n) =>
      var drawStart := -(n as real) / 2.0 + h as real / 2.0;
      var drawEnd := n as real / 2.0 + h as real / 2.0;
      Span(if drawStart < 0.0 then 0.0 else drawStart, if drawEnd >= h as real then (h - 1) as real else drawEnd)
  }

  /** `wallX - Math.floor(wallX)`: where on the wall face the ray hit. */
  function WallX(v: real): (r: real)
    ensures 0.0 <= r < 1.0
    ensures (v - r).Floor as real == v - r
  {
    v - v.Floor as real
  }

  /** The hit point on the face does not depend on which cell the face is in. */
  lemma WallXPeriodic(v: real, k: int)
    ensures WallX(v + k as real) == WallX(v)
  {
    assert (v + k as real).Floor == v.Floor + k;
  }

  /** `Math.floor(wallX * TEXTURE_SIZE)` with TEXTURE_SIZE = 2^k. */
  function TexColumn(wallX: real, k: nat): (r: int)
    requires 0.0 <= wallX < 1.0
    ensures 0 <= r < Pow2(k)
  {
    var size := Pow2(k) as real;
    ScaledFraction(size, wallX);
    assert wallX * size == size * wallX;
    (wallX * size).Floor
  }

  /** `TEXTURE_SIZE - texX - 1`: read the texture column from the other edge. */
  function Mirror(texX: int, size: int): (r: int)
    ensures 0 <= texX < size ==> 0 <= r < size
    ensures r + texX == size - 1
  {
    size - texX - 1
  }

  lemma MirrorInvolution(texX: int, size: int)
    ensures Mirror(Mirror(texX, size), size) == texX
  {
  }

  /** The texture column of the hit: mirrored on faces seen from the side
      where the texture would otherwise appear flipped (an x face hit by a
      ray going +x, a y face hit by a ray going -y). */
  function TexX(wallX: real, side: int, rayDirX: real, rayDirY: real, k: nat): (r: int)
    requires 0.0 <= wallX < 1.0
    ensures 0 <= r < Pow2(k)
    // the two mirror conditions exclude each other: a column is flipped at
    // most once, about the texture's centre
    ensures (side == 0 && rayDirX > 0.0) || (side == 1 && rayDirY < 0.0)
            ==> r + TexColumn(wallX, k) == Pow2(k) - 1
    ensures !((side == 0 && rayDirX > 0.0) || (side == 1 && rayDirY < 0.0))
            ==> r == TexColumn(wallX, k)
  {
    var texX := TexColumn(wallX, k);
    var texX' := if side == 0 && rayDirX > 0.0 then Mirror(texX, Pow2(k)) else texX;
    if side == 1 && rayDirY < 0.0 then Mirror(texX', Pow2(k)) else texX'
  }

  /** `Math.floor(now / 150) % frames.length`: a new frame every 150 ms. */
  function FrameIndex(now: nat, len: nat): (r: nat)
    requires len > 0
    ensures r < len
  {
    (now / 150) % len
  }

  /** The animation repeats every 150 * len milliseconds. */
  lemma FramePeriodic(now: nat, len: nat)
    requires len > 0
    ensures FrameIndex(now + 150 * len, len) == FrameIndex(now, len)
  {
    var q := now / 150;
    DivModUnique(now + 150 * len, 150, q + len, now % 150);
    DivModUnique(q + len, len, q / len + 1, q % len);
  }

  /** A frame stays on screen for a whole 150 ms window. */
  lemma FrameSteady(q: nat, j: nat, len: nat)
    requires len > 0 && j < 150
    ensures FrameIndex(150 * q + j, len) == q % len
  {
    DivModUnique(150 * q + j, 150, q, j);
  }

  /** A wall texture: one image, or the frames of an animation. Images are
      opaque handles. */
  datatype WallTexture = Single(image: int) | Animated(frames: seq<int>)

  /** `walls[texNum]`, with the frame for the current time if it is
      animated. A missing texture (and an animation without frames, whose
      frame index is NaN) gives nothing, and the column is filled white. */
  function SelectTexture(walls: map<int, WallTexture>, texNum: int, now: nat): (r: Option<int>)
    ensures r.Some? <==> texNum in walls && (walls[texNum].Animated? ==> |walls[texNum].frames| > 0)
    ensures r.Some? && walls[texNum].Single? ==> r.value == walls[texNum].image
    ensures r.Some? && walls[texNum].Animated? ==> r.value in walls[texNum].frames
  {
    if texNum !in walls then None
    else match walls[texNum]
      case Single(image) => Some(image)
      case Animated(frames) =>
        if |frames| == 0 then None else Some(frames[FrameIndex(now, |frames|)])
  }

  /** What a column shows: a one-texel-wide slice of a texture, darkened for
      y faces, or a white fill. */
  datatype Paint = Textured(image: int, texX: int, shaded: bool) | Blank

  datatype Column = Column(span: Span, paint: Paint)

  /** `2 * x / w - 1`: screen column x mapped to [-1, 1). */
  function CameraX(x: nat, w: nat): (r: real)
    requires x < w
    ensures -1.0 <= r < 1.0
  {
    assert x as real < w as real;
    2.0 * x as real / w as real - 1.0
  }

  lemma Cancel(a: real, b: real)
    requires b != 0.0
    ensures (a / b) * b == a
  {
  }

  /** `dir + plane * cameraX`: the ray through a screen column. */
  function RayDir(d: real, p: real, cameraX: real): real {
    d + p * cameraX
  }

  /** The columns' rays sweep the camera plane evenly: the leftmost column
      looks along dir - plane (the ray the floor caster starts each row
      from), and each column to the right adds 2 / w of the plane. */
  lemma RaysSweepPlane(d: real, p: real, w: nat, x: nat)
    requires x + 1 < w
    ensures RayDir(d, p, CameraX(0, w)) == d - p
    ensures RayDir(d, p, CameraX(x + 1, w)) - RayDir(d, p, CameraX(x, w)) == 2.0 * p / w as real
  {
    var a, b := CameraX(x, w), CameraX(x + 1, w);
    assert b - a == 2.0 / w as real by {
      assert 2.0 * (x + 1) as real / w as real - 2.0 * x as real / w as real
             == (2.0 * (x + 1) as real - 2.0 * x as real) / w as real;
    }
    assert p * b - p * a == p * (b - a);
    assert p * (2.0 / w as real) == 2.0 * p / w as real;
  }

  /** Distances along any column's ray are distances along the view
      direction: the ray meets dir with dot product 1, so `t * rayDir` is t
      ahead of the player. This is why perpWallDist shows no fish-eye. */
  lemma AlongView(st: PlayerState, cameraX: real, t: real)
    requires Framed(st)
    ensures Dot(t * RayDir(st.dirX, st.planeX, cameraX), t * RayDir(st.dirY, st.planeY, cameraX), st.dirX, st.dirY) == t
  {
    RayNonZero(st, cameraX);
    var rx, ry := RayDir(st.dirX, st.planeX, cameraX), RayDir(st.dirY, st.planeY, cameraX);
    assert Dot(rx, ry, st.dirX, st.dirY) == 1.0;
    ScaledDot(t, rx, ry, st.dirX, st.dirY);
  }

  lemma ScaledDot(t: real, ux: real, uy: real, vx: real, vy: real)
    ensures Dot(t * ux, t * uy, vx, vy) == t * Dot(ux, uy, vx, vy)
  {
  }

  /** `if (texture) drawImage(...) else fillRect(...)`, the drawn image
      darkened for y faces. */
  function PaintOf(texture: Option<int>, texX: int, side: int): (r: Paint)
    ensures r.Blank? <==> texture.None?
    ensures r.Textured? ==> Some(r.image) == texture && r.texX == texX && (r.shaded <==> side == 1)
  {
    match texture
    case None => Blank
    case Some(image) => Textured(image, texX, side == 1)
  }

  /** What `render` draws for a ray from (px, py) along g whose walk ended
      at `hit`, on a wall with texture id texNum. */
  function ColumnFromHit(px: real, py: real, rayDirX: real, rayDirY: real, hit: Dda, g: Ray, texNum: int,
                         h: nat, k: nat, walls: map<int, WallTexture>, now: nat): (c: Column)
    requires h > 0
    requires (hit.side == 0 ==> rayDirX != 0.0) && (hit.side != 0 ==> rayDirY != 0.0)
    requires PerpWallDist(px, py, rayDirX, rayDirY, hit, g) >= 0.0
    ensures c.span.Span? ==> 0.0 <= c.span.drawStart <= c.span.drawEnd < h as real
    ensures c.paint.Textured? ==> 0 <= c.paint.texX < Pow2(k)
    // the column shows the wall's texture, darkened for a y face
    ensures c.paint.Blank? <==> SelectTexture(walls, texNum, now).None?
    ensures c.paint.Textured? ==> Some(c.paint.image) == SelectTexture(walls, texNum, now)
                                  && (c.paint.shaded <==> hit.side == 1)
  {
    var perp := PerpWallDist(px, py, rayDirX, rayDirY, hit, g);
    var wallX := WallX(AlongFace(px, py, rayDirX, rayDirY, hit.side, perp));
    Column(ClipSpan(LineHeight(h, perp), h),
           PaintOf(SelectTexture(walls, texNum, now), TexX(wallX, hit.side, rayDirX, rayDirY, k), hit.side))
  }

  /** The coordinate of the hit point along the face it lies on: y for an x
      face (side 0), x for a y face. */
  function AlongFace(px: real, py: real, rayDirX: real, rayDirY: real, side: int, perp: real): real {
    if side == 0 then py + perp * rayDirY else px + perp * rayDirX
  }

  /** The hit point (the crossed face's grid line on one axis, AlongFace on
      the other) lies on the column's ray through the player: its offset
      from the player is parallel to rayDir. */
  lemma HitPointOnRay(px: real, py: real, rayDirX: real, rayDirY: real, r: Dda, g: Ray)
    requires (r.side == 0 ==> rayDirX != 0.0) && (r.side != 0 ==> rayDirY != 0.0)
    ensures var along := AlongFace(px, py, rayDirX, rayDirY, r.side, PerpWallDist(px, py, rayDirX, rayDirY, r, g));
            r.side == 0 ==> (r.mapX as real + (1 - g.stepX) as real / 2.0 - px) * rayDirY == (along - py) * rayDirX
    ensures var along := AlongFace(px, py, rayDirX, rayDirY, r.side, PerpWallDist(px, py, rayDirX, rayDirY, r, g));
            r.side != 0 ==> (r.mapY as real + (1 - g.stepY) as real / 2.0 - py) * rayDirX == (along - px) * rayDirY
  {
    var t := PerpWallDist(px, py, rayDirX, rayDirY, r, g);
    if r.side == 0 {
      assert (t * rayDirX) * rayDirY == (t * rayDirY) * rayDirX;
    } else {
      assert (t * rayDirY) * rayDirX == (t * rayDirX) * rayDirY;
    }
  }

  /** Everything `render` works out for one ray from (px, py): the walk to
      the first wall cell it enters, then that wall's column. */
  function ColumnOf(m: WorldMap, px: real, py: real, rayDirX: real, rayDirY: real, h: nat, k: nat,
                    walls: map<int, WallTexture>, now: nat): (c: Column)
    requires Rectangular(m) && Walled(m) && Interior(m, px.Floor, py.Floor) && h > 0
    requires rayDirX != 0.0 || rayDirY != 0.0
    // the column shows the texture of the first wall cell the ray enters,
    // darkened when it entered through a y face
    ensures var hit := CastFrom(m, Start(px, py, rayDirX, rayDirY), RayOf(rayDirX, rayDirY));
            && (c.paint.Blank? <==> SelectTexture(walls, m[hit.mapX][hit.mapY], now).None?)
            && (c.paint.Textured? ==> Some(c.paint.image) == SelectTexture(walls, m[hit.mapX][hit.mapY], now)
                                      && (c.paint.shaded <==> hit.side == 1))
  {
    PerpNonNegative(m, px, py, rayDirX, rayDirY);
    var g := RayOf(rayDirX, rayDirY);
    var hit := CastFrom(m, Start(px, py, rayDirX, rayDirY), g);
    ColumnFromHit(px, py, rayDirX, rayDirY, hit, g, m[hit.mapX][hit.mapY], h, k, walls, now)
  }

  /** The column whose camera-plane coordinate is cameraX. */
  function ColumnAt(m: WorldMap, st: PlayerState, h: nat, k: nat, walls: map<int, WallTexture>, now: nat,
                    cameraX: real): (c: Column)
    requires Rectangular(m) && Walled(m) && Interior(m, st.x.Floor, st.y.Floor) && Framed(st) && h > 0
    // whatever the pose and the column, the drawing stays on the screen and
    // inside the texture
    ensures c.span.Span? ==> 0.0 <= c.span.drawStart <= c.span.drawEnd < h as real
    ensures c.paint.Textured? ==> 0 <= c.paint.texX < Pow2(k)
  {
    RayNonZero(st, cameraX);
    ColumnOf(m, st.x, st.y, RayDir(st.dirX, st.planeX, cameraX), RayDir(st.dirY, st.planeY, cameraX), h, k, walls, now)
  }

  /** The body of the wall loop of `render` for one ray: the walk, then the
      column drawn for its hit. */
  method TraceColumn(m: WorldMap, px: real, py: real, rayDirX: real, rayDirY: real, h: nat, k: nat,
                     walls: map<int, WallTexture>, now: nat) returns (c: Column)
    requires Rectangular(m) && Walled(m) && Interior(m, px.Floor, py.Floor) && h > 0
    requires rayDirX != 0.0 || rayDirY != 0.0
    ensures c == ColumnOf(m, px, py, rayDirX, rayDirY, h, k, walls, now)
  {
    PerpNonNegative(m, px, py, rayDirX, rayDirY);
    var hit := TraceRay(m, px, py, rayDirX, rayDirY);
    c := DrawHit(px, py, rayDirX, rayDirY, hit, RayOf(rayDirX, rayDirY), m[hit.mapX][hit.mapY], h, k, walls, now);
  }

  /** The part of the wall loop after the walk: projection, clipping, texture
      column and texture choice. */
  method DrawHit(px: real, py: real, rayDirX: real, rayDirY: real, hit: Dda, g: Ray, texNum: int,
                 h: nat, k: nat, walls: map<int, WallTexture>, now: nat) returns (c: Column)
    requires h > 0
    requires (hit.side == 0 ==> rayDirX != 0.0) && (hit.side != 0 ==> rayDirY != 0.0)
    requires PerpWallDist(px, py, rayDirX, rayDirY, hit, g) >= 0.0
    ensures c == ColumnFromHit(px, py, rayDirX, rayDirY, hit, g, texNum, h, k, walls, now)
  {
    var perpWallDist;
    if hit.side == 0 {
      perpWallDist := (hit.mapX as real - px + (1 - g.stepX) as real / 2.0) / rayDirX;
    } else {
      perpWallDist := (hit.mapY as real - py + (1 - g.stepY) as real / 2.0) / rayDirY;
    }
    assert perpWallDist == PerpWallDist(px, py, rayDirX, rayDirY, hit, g);
    var span := ClipSpan(LineHeight(h, perpWallDist), h);
    var wallX;
    if hit.side == 0 {
      wallX := py + perpWallDist * rayDirY;
    } else {
      wallX := px + perpWallDist * rayDirX;
    }
    assert wallX == AlongFace(px, py, rayDirX, rayDirY, hit.side, perpWallDist);
    var texX := TexX(WallX(wallX), hit.side, rayDirX, rayDirY, k);
    var texture := SelectTexture(walls, texNum, now);
    if texture.Some? {
      c := Column(span, Textured(texture.value, texX, hit.side == 1));
    } else {
      c := Column(span, Blank);
    }
  }

  /** The wall loop of `render`: one column per screen x, left to right.
      The clock is read inside the loop, so column x sees its own time
      `times[x]` (only an animated wall looks at it), and one frame can mix
      two animation frames. */
  method RenderWalls(m: WorldMap, st: PlayerState, w: nat, h: nat, k: nat, walls: map<int, WallTexture>,
                     times: seq<nat>)
    returns (cols: seq<Column>)
    requires Rectangular(m) && Walled(m) && Interior(m, st.x.Floor, st.y.Floor) && Framed(st) && h > 0
    requires |times| == w
    ensures |cols| == w
    ensures forall x :: 0 <= x < w ==> cols[x] == ColumnAt(m, st, h, k, walls, times[x], CameraX(x, w))
  {
    cols := [];
    var x := 0;
    while x < w
      invariant 0 <= x <= w && |cols| == x
      invariant forall i :: 0 <= i < x ==> cols[i] == ColumnAt(m, st, h, k, walls, times[i], CameraX(i, w))
    {
      var cameraX := CameraX(x, w);
      var rayDirX := RayDir(st.dirX, st.planeX, cameraX);
      var rayDirY := RayDir(st.dirY, st.planeY, cameraX);
      RayNonZero(st, cameraX);
      var c := TraceColumn(m, st.x, st.y, rayDirX, rayDirY, h, k, walls, times[x]);
      cols := cols + [c];
      x := x + 1;
    }
  }
}
