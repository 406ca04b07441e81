/** The game canvas component: the state it keeps between frames (the pose
    object, the generated textures, the lazily created floor buffer) and the
    per-frame loop that runs `update`, then `render`, then publishes a copy of
    the pose. */
module GameLoop {
  import opened World
  import opened Camera
  import opened Movement
  import opened Pixels
  import opened FloorCaster
  import opened WallCaster

  /** The procedurally generated textures: wall textures by texture id, and
      the floor texture as TEXTURE_SIZE * TEXTURE_SIZE packed colours. */
  datatype Textures = Textures(walls: map<int, WallTexture>, floor: seq<int>)

  class Game {
    const world: WorldMap
    /** Screen width and height, in pixels. */
    const w: nat
    const h: nat
    /** TEXTURE_SIZE = 2^k. */
    const k: nat
    const moveSpeed: real
    /** Math.cos(rotSpeed) and Math.sin(rotSpeed). */
    const c: real
    const s: real
    /** playerRef.current */
    const player: Player
    /** texturesRef.current: absent until the mount effect has run. */
    var textures: Option<Textures>
    /** floorBufferRef.current: a w * (h / 2) pixel buffer, created by the
        first frame that renders and reused by every later one. */
    var floorBuffer: array?<int>
    /** The wall columns the last rendered frame drew, left to right. */
    var wallColumns: seq<Column>

    /** What keeps every lookup of `update` and `render` inside the grid and
        the buffers: a walled rectangular map, a player in an open cell, a
        framed pose, an exact rotation, a step below one cell, a screen of
        even height, a buffer of the right size and a square floor texture. */
    ghost predicate Valid()
      reads this, player
    {
      && Rectangular(world) && Walled(world)
      && Passable(world, player.x.Floor, player.y.Floor)
      && Framed(player.State())
      && c * c + s * s == 1.0 && 0.0 <= moveSpeed < 1.0
      && w > 0 && h > 0 && h % 2 == 0
      && (floorBuffer != null ==> floorBuffer.Length == (h / 2) * w)
      && (textures.Some? ==> |textures.value.floor| == Pow2(k) * Pow2(k))
    }

    /** The component as first rendered: the initial pose, no textures, no
        floor buffer, nothing drawn. */
    constructor (world: WorldMap, w: nat, h: nat, k: nat, moveSpeed: real, c: real, s: real)
      requires Rectangular(world) && Walled(world) && Passable(world, 22, 12)
      requires c * c + s * s == 1.0 && 0.0 <= moveSpeed < 1.0
      requires w > 0 && h > 0 && h % 2 == 0
      ensures Valid()
      ensures this.world == world && this.w == w && this.h == h && this.k == k
      ensures this.moveSpeed == moveSpeed && this.c == c && this.s == s
      ensures fresh(player) && player.State() == InitialState
      ensures textures == None && floorBuffer == null && wallColumns == []
    {
      this.world, this.w, this.h, this.k := world, w, h, k;
      this.moveSpeed, this.c, this.s := moveSpeed, c, s;
      player := new Player.Initial();
      textures := None;
      floorBuffer := null;
      wallColumns := [];
      InitialFramed();
    }

    /** The mount effect: `texturesRef.current = generateTextures()`. */
    method SetTextures(t: Textures)
      requires Valid() && |t.floor| == Pow2(k) * Pow2(k)
      modifies this
      ensures Valid()
      ensures textures == Some(t)
      ensures floorBuffer == old(floorBuffer) && wallColumns == old(wallColumns)
    {
      textures := Some(t);
    }

    /** `render`. Without a drawing context or before the textures exist it
        draws nothing. Otherwise every cell of the floor buffer gets the floor
        texel seen at that pixel, and the wall columns are the ones the
        caster computes for the current pose, column x at the clock reading
        `times[x]`. The pose is only read. */
    method Render(hasContext: bool, times: seq<nat>)
      requires Valid() && |times| == w
      modifies this, floorBuffer
      ensures Valid()
      ensures unchanged(player) && textures == old(textures)
      ensures !hasContext || textures.None? ==>
                floorBuffer == old(floorBuffer) && wallColumns == old(wallColumns)
                && (floorBuffer != null ==> unchanged(floorBuffer))
      ensures hasContext && textures.Some? ==>
                && floorBuffer != null
                && (old(floorBuffer) != null ==> floorBuffer == old(floorBuffer))
                && (forall i :: 0 <= i < floorBuffer.Length ==>
                      floorBuffer[i] == PixelAt(textures.value.floor, player.State(), w, h, k, i))
                && |wallColumns| == w
                && (forall x :: 0 <= x < w ==>
                      wallColumns[x] == ColumnAt(world, player.State(), h, k, textures.value.walls, times[x], CameraX(x, w)))
    {
      if !hasContext || textures.None? {
        return;
      }
      var tex := textures.value;
      if floorBuffer == null {
        // createImageData(w, h / 2): a zero-filled buffer
        floorBuffer := new int[(h / 2) * w](_ => 0);
      }
      var st := player.State();
      // an open cell of a walled map is away from the border, so the walk starts inside
      OpenCellIsInterior(world, st.x.Floor, st.y.Floor);
      ghost var writes := CastFloor(floorBuffer, tex.floor, st, w, h, k);
      wallColumns := RenderWalls(world, st, w, h, k, tex.walls, times);
    }

    /** One animation frame (`loop`): when the canvas is mounted, move the
        player, draw, and publish a copy of the new pose; otherwise do
        nothing. Rescheduling with requestAnimationFrame is the caller's
        business. */
    method Loop(canvasPresent: bool, hasContext: bool, input: Input, times: seq<nat>)
      returns (published: Option<PlayerState>)
      requires Valid() && |times| == w
      modifies this, player, floorBuffer
      ensures Valid()
      ensures published.Some? <==> canvasPresent
      // without a canvas nothing happens: the pose, the buffer and the columns are kept
      ensures !canvasPresent ==>
                && player.State() == old(player.State()) && wallColumns == old(wallColumns)
                && floorBuffer == old(floorBuffer) && (floorBuffer != null ==> unchanged(floorBuffer))
      // with a canvas but no context or no textures the pose moves but nothing is drawn
      ensures canvasPresent && (!hasContext || textures.None?) ==>
                && floorBuffer == old(floorBuffer) && wallColumns == old(wallColumns)
                && (floorBuffer != null ==> unchanged(floorBuffer))
      // a buffer, once created, is reused
      ensures old(floorBuffer) != null ==> floorBuffer == old(floorBuffer)
      ensures canvasPresent ==>
                && player.State() == Step(old(player.State()), input, world, moveSpeed, c, s)
                && published == Some(player.State())
      // the frame is drawn from the pose after this tick's movement
      ensures canvasPresent && hasContext && textures.Some? ==>
                && floorBuffer != null
                && (forall i :: 0 <= i < floorBuffer.Length ==>
                      floorBuffer[i] == PixelAt(textures.value.floor, player.State(), w, h, k, i))
                && |wallColumns| == w
                && (forall x :: 0 <= x < w ==>
                      wallColumns[x] == ColumnAt(world, player.State(), h, k, textures.value.walls, times[x], CameraX(x, w)))
      ensures textures == old(textures)
    {
      if canvasPresent {
        Update(player, input, world, moveSpeed, c, s);
        Render(hasContext, times);
        published := Some(player.State());
      } else {
        published := None;
      }
    }
  }
}
