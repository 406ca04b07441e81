/** The movement and collision resolver (`update`): turn, then move forward,
    backward and sideways, testing each axis separately against the grid. */
module Movement {
  import opened World
  import opened Camera

  /** The per-tick snapshot of active actions, as read from the keyboard:
      ArrowLeft or Q, ArrowRight or E, ArrowUp or W, ArrowDown or S, A, D. */
  datatype Input = Input(turnLeft: bool, turnRight: bool, forward: bool, backward: bool,
                         strafeLeft: bool, strafeRight: bool)

  function IntentsOf(pressed: set<string>): Input {
    Input("ArrowLeft" in pressed || "KeyQ" in pressed, "ArrowRight" in pressed || "KeyE" in pressed,
          "ArrowUp" in pressed || "KeyW" in pressed, "ArrowDown" in pressed || "KeyS" in pressed,
          "KeyA" in pressed, "KeyD" in pressed)
  }

  /** The key codes `update` reads. */
  const ActionKeys: set<string> :=
    {"ArrowLeft", "KeyQ", "ArrowRight", "KeyE", "ArrowUp", "KeyW", "ArrowDown", "KeyS", "KeyA", "KeyD"}

  /** Only the action keys matter: any other key held down changes nothing,
      and with no action key held the tick has no intent at all. */
  lemma IntentsReadOnlyActionKeys(pressed: set<string>)
    ensures IntentsOf(pressed) == IntentsOf(pressed * ActionKeys)
    ensures pressed * ActionKeys == {} ==> IntentsOf(pressed) == Input(false, false, false, false, false, false)
  {
    if pressed * ActionKeys == {} {
      forall key | key in ActionKeys
        ensures key !in pressed
      {
        assert key in pressed * ActionKeys ==> false;
      }
      assert "ArrowLeft" !in pressed && "KeyQ" !in pressed && "ArrowRight" !in pressed && "KeyE" !in pressed;
      assert "ArrowUp" !in pressed && "KeyW" !in pressed && "ArrowDown" !in pressed && "KeyS" !in pressed;
      assert "KeyA" !in pressed && "KeyD" !in pressed;
    }
  }

  /** Each arrow key and its letter alias are interchangeable. */
  lemma KeyAliases(pressed: set<string>)
    ensures IntentsOf(pressed + {"ArrowLeft"}) == IntentsOf(pressed + {"KeyQ"})
    ensures IntentsOf(pressed + {"ArrowRight"}) == IntentsOf(pressed + {"KeyE"})
    ensures IntentsOf(pressed + {"ArrowUp"}) == IntentsOf(pressed + {"KeyW"})
    ensures IntentsOf(pressed + {"ArrowDown"}) == IntentsOf(pressed + {"KeyS"})
  {
  }

  /** One movement block: try to move x by dx, then y by dy. The x move is
      committed only if the cell at the candidate x and the current y is
      passable; the y move then tests the cell at the (possibly updated) x and
      the candidate y. */
  function Slide(m: WorldMap, st: PlayerState, dx: real, dy: real): (r: PlayerState)
    // only the position changes
    ensures r == st.(x := r.x, y := r.y)
    // each axis is either moved by its full step or not at all
    ensures r.x == (if Passable(m, (st.x + dx).Floor, st.y.Floor) then st.x + dx else st.x)
    ensures r.y == st.y || r.y == st.y + dy
    // y is committed exactly when the cell at the updated x and candidate y is passable
    ensures r.y == (if Passable(m, r.x.Floor, (st.y + dy).Floor) then st.y + dy else st.y)
    // a blocked x axis still lets y move (wall sliding)
    ensures !Passable(m, (st.x + dx).Floor, st.y.Floor) && Passable(m, st.x.Floor, (st.y + dy).Floor)
            ==> r.x == st.x && r.y == st.y + dy
    // the player never ends up in a wall cell
    ensures Passable(m, st.x.Floor, st.y.Floor) ==> Passable(m, r.x.Floor, r.y.Floor)
  {
    var x' := if Passable(m, (st.x + dx).Floor, st.y.Floor) then st.x + dx else st.x;
    var y' := if Passable(m, x'.Floor, (st.y + dy).Floor) then st.y + dy else st.y;
    st.(x := x', y := y')
  }

  /** The two rotation blocks of `update`. `c` and `s` stand for
      Math.cos(rotSpeed) and Math.sin(rotSpeed); the right turn uses
      cos(-rotSpeed) = c and sin(-rotSpeed) = -s. */
  function Turns(st: PlayerState, input: Input, c: real, s: real): (r: PlayerState)
    ensures r.x == st.x && r.y == st.y
  {
    var st1 := if input.turnLeft then Turn(st, c, s) else st;
    if input.turnRight then Turn(st1, c, -s) else st1
  }

  /** The four movement blocks of `update`, in source order. */
  datatype Block = Forward | Backward | StrafeLeft | StrafeRight

  /** A displacement of the player's position. */
  datatype Delta = Delta(dx: real, dy: real)

  /** The displacement a block tries: dir * moveSpeed forward, its negation
      backward, and the perpendicular (-dirY, dirX) (left) or (dirY, -dirX)
      (right) scaled by moveSpeed * 0.7 when strafing. */
  function Offset(st: PlayerState, b: Block, moveSpeed: real): (r: Delta)
    // forward and backward move along the view direction, the other way round
    ensures b == Forward ==> r.dx * st.dirX + r.dy * st.dirY == moveSpeed * DirNormSq(st)
    ensures b == Backward ==> r.dx * st.dirX + r.dy * st.dirY == -(moveSpeed * DirNormSq(st))
    // with no sideways part: the step is parallel to dir
    ensures (b == Forward || b == Backward) ==> st.dirX * r.dy - st.dirY * r.dx == 0.0
    // strafing moves at right angles to it, to the left (counter-clockwise) or the right
    ensures (b == StrafeLeft || b == StrafeRight) ==> r.dx * st.dirX + r.dy * st.dirY == 0.0
    ensures b == StrafeLeft ==> st.dirX * r.dy - st.dirY * r.dx == 0.7 * moveSpeed * DirNormSq(st)
    ensures b == StrafeRight ==> st.dirX * r.dy - st.dirY * r.dx == -(0.7 * moveSpeed * DirNormSq(st))
  {
    match b
    case Forward => Delta(st.dirX * moveSpeed, st.dirY * moveSpeed)
    case Backward => Delta(-(st.dirX * moveSpeed), -(st.dirY * moveSpeed))
    case StrafeLeft => Delta(-st.dirY * moveSpeed * 0.7, st.dirX * moveSpeed * 0.7)
    case StrafeRight => Delta(st.dirY * moveSpeed * 0.7, -st.dirX * moveSpeed * 0.7)
  }

  /** Backward undoes forward and strafing right undoes strafing left. */
  lemma OffsetsOpposite(st: PlayerState, moveSpeed: real)
    ensures Offset(st, Backward, moveSpeed).dx == -Offset(st, Forward, moveSpeed).dx
    ensures Offset(st, Backward, moveSpeed).dy == -Offset(st, Forward, moveSpeed).dy
    ensures Offset(st, StrafeRight, moveSpeed).dx == -Offset(st, StrafeLeft, moveSpeed).dx
    ensures Offset(st, StrafeRight, moveSpeed).dy == -Offset(st, StrafeLeft, moveSpeed).dy
  {
  }

  /** One block, if its key is pressed. */
  function MoveIf(pressed: bool, m: WorldMap, st: PlayerState, b: Block, moveSpeed: real): (r: PlayerState)
    ensures r == st.(x := r.x, y := r.y)
    ensures Passable(m, st.x.Floor, st.y.Floor) ==> Passable(m, r.x.Floor, r.y.Floor)
  {
    if pressed then Slide(m, st, Offset(st, b, moveSpeed).dx, Offset(st, b, moveSpeed).dy) else st
  }

  /** The four movement blocks of `update` in source order, each reading the
      pose left by the previous one. */
  function Moves(st: PlayerState, forward: bool, backward: bool, strafeLeft: bool, strafeRight: bool,
                 m: WorldMap, moveSpeed: real): (r: PlayerState)
    // the movement blocks never touch the direction or the camera plane
    ensures r == st.(x := r.x, y := r.y)
    // a player in a passable cell stays in a passable cell
    ensures Passable(m, st.x.Floor, st.y.Floor) ==> Passable(m, r.x.Floor, r.y.Floor)
  {
    var st3 := MoveIf(forward, m, st, Forward, moveSpeed);
    var st4 := MoveIf(backward, m, st3, Backward, moveSpeed);
    var st5 := MoveIf(strafeLeft, m, st4, StrafeLeft, moveSpeed);
    MoveIf(strafeRight, m, st5, StrafeRight, moveSpeed)
  }

  /** The whole of `update` on a pose value: turn, then move. */
  function Step(st: PlayerState, input: Input, m: WorldMap, moveSpeed: real, c: real, s: real): (r: PlayerState)
    // the movement blocks never turn: the orientation is the one the turn blocks leave
    ensures r == Turns(st, input, c, s).(x := r.x, y := r.y)
    // without a turn key the orientation is kept
    ensures !input.turnLeft && !input.turnRight ==> r == st.(x := r.x, y := r.y)
    // without a movement key the position is kept
    ensures !input.forward && !input.backward && !input.strafeLeft && !input.strafeRight
            ==> r.x == st.x && r.y == st.y
  {
    Moves(Turns(st, input, c, s), input.forward, input.backward, input.strafeLeft, input.strafeRight, m, moveSpeed)
  }

  /** Perpendicularity, the unit view direction and the plane length (the
      field of view) survive any tick. */
  lemma StepKeepsFrame(st: PlayerState, input: Input, m: WorldMap, moveSpeed: real, c: real, s: real)
    requires c * c + s * s == 1.0
    ensures DirDotPlane(Step(st, input, m, moveSpeed, c, s)) == DirDotPlane(st)
    ensures DirNormSq(Step(st, input, m, moveSpeed, c, s)) == DirNormSq(st)
    ensures PlaneNormSq(Step(st, input, m, moveSpeed, c, s)) == PlaneNormSq(st)
    ensures Framed(st) ==> Framed(Step(st, input, m, moveSpeed, c, s))
  {
    TurnKeepsFrame(st, c, s);
    var st1 := if input.turnLeft then Turn(st, c, s) else st;
    assert (-s) * (-s) == s * s;
    TurnKeepsFrame(st1, c, -s);
  }

  /** The collision invariant: a player standing in a passable cell is still
      in a passable cell after any tick. */
  lemma StepKeepsPassable(st: PlayerState, input: Input, m: WorldMap, moveSpeed: real, c: real, s: real)
    requires Passable(m, st.x.Floor, st.y.Floor)
    ensures var r := Step(st, input, m, moveSpeed, c, s); Passable(m, r.x.Floor, r.y.Floor)
  {
  }

  /** Pressing both turn keys in one tick leaves the view unturned: the left
      rotation by (c, s) is undone by the right rotation by (c, -s). */
  lemma BothTurnsCancel(st: PlayerState, input: Input, m: WorldMap, moveSpeed: real, c: real, s: real)
    requires c * c + s * s == 1.0
    requires input.turnLeft && input.turnRight
    ensures Step(st, input, m, moveSpeed, c, s)
         == Step(st, input.(turnLeft := false, turnRight := false), m, moveSpeed, c, s)
  {
    var still := input.(turnLeft := false, turnRight := false);
    TurnLeftThenRight(st, c, s);
    assert Turns(st, input, c, s) == st == Turns(st, still, c, s);
  }

  /** In an open area (the four cells spanned by the step are passable),
      strafing left and then right returns to the same position. */
  lemma StrafeRoundTrip(m: WorldMap, st: PlayerState, moveSpeed: real)
    requires var d := Offset(st, StrafeLeft, moveSpeed);
             && Passable(m, (st.x + d.dx).Floor, st.y.Floor)
             && Passable(m, (st.x + d.dx).Floor, (st.y + d.dy).Floor)
             && Passable(m, st.x.Floor, (st.y + d.dy).Floor)
             && Passable(m, st.x.Floor, st.y.Floor)
    ensures MoveIf(true, m, MoveIf(true, m, st, StrafeLeft, moveSpeed), StrafeRight, moveSpeed) == st
  {
    var d := Offset(st, StrafeLeft, moveSpeed);
    var left := MoveIf(true, m, st, StrafeLeft, moveSpeed);
    assert left.x == st.x + d.dx && left.y == st.y + d.dy;
    assert left.dirX == st.dirX && left.dirY == st.dirY;
    OffsetsOpposite(st, moveSpeed);
    assert Offset(left, StrafeRight, moveSpeed) == Offset(st, StrafeRight, moveSpeed);
    assert (left.x + -d.dx).Floor == st.x.Floor;
    assert (left.y + -d.dy).Floor == st.y.Floor;
  }

  /** |dir| = 1 and moveSpeed < 1 keep every block's displacement below one
      cell on each axis. */
  lemma OffsetSmall(st: PlayerState, b: Block, moveSpeed: real)
    requires DirNormSq(st) == 1.0 && 0.0 <= moveSpeed < 1.0
    ensures -1.0 < Offset(st, b, moveSpeed).dx < 1.0 && -1.0 < Offset(st, b, moveSpeed).dy < 1.0
  {
    var dirX, dirY := st.dirX, st.dirY;
    SmallComponent(dirX, dirY, moveSpeed);
    SmallComponent(dirY, dirX, moveSpeed);
    var d := Offset(st, b, moveSpeed);
    match b
    case Forward =>
      assert d == Delta(dirX * moveSpeed, dirY * moveSpeed);
    case Backward =>
      assert d == Delta(-(dirX * moveSpeed), -(dirY * moveSpeed));
    case StrafeLeft =>
      assert d == Delta(-(dirY * moveSpeed * 0.7), dirX * moveSpeed * 0.7);
    case StrafeRight =>
      assert d == Delta(dirY * moveSpeed * 0.7, -(dirX * moveSpeed * 0.7));
  }

  lemma SmallComponent(d: real, other: real, moveSpeed: real)
    requires d * d + other * other == 1.0 && 0.0 <= moveSpeed < 1.0
    ensures -1.0 < d * moveSpeed < 1.0 && -1.0 < d * moveSpeed * 0.7 < 1.0
  {
    UnitComponent(d, other);
    BoundedProduct(d, moveSpeed);
    var t := d * moveSpeed;
    assert -0.7 < t * 0.7 < 0.7;
  }

  lemma UnitComponent(a: real, b: real)
    requires a * a + b * b == 1.0
    ensures -1.0 <= a <= 1.0
  {
    assert b * b >= 0.0;
    assert (1.0 - a) * (1.0 + a) == 1.0 - a * a >= 0.0;
  }

  lemma BoundedProduct(a: real, b: real)
    requires -1.0 <= a <= 1.0 && 0.0 <= b < 1.0
    ensures -1.0 < a * b < 1.0
  {
    NonNegProduct(1.0 - a, b);
    NonNegProduct(1.0 + a, b);
    assert a * b == b - (1.0 - a) * b;
    assert a * b == (1.0 + a) * b - b;
    assert -b <= a * b <= b;
  }

  lemma NonNegProduct(x: real, y: real)
    requires x >= 0.0 && y >= 0.0
    ensures x * y >= 0.0
  {
  }

  /** From a passable cell, a candidate less than one cell away on one axis
      indexes a row and a column that exist. */
  lemma CandidateInBounds(m: WorldMap, x: real, y: real, d: real)
    requires Rectangular(m) && Walled(m) && Passable(m, x.Floor, y.Floor)
    requires -1.0 < d < 1.0
    ensures InBounds(m, (x + d).Floor, y.Floor) && InBounds(m, x.Floor, (y + d).Floor)
  {
    OpenCellIsInterior(m, x.Floor, y.Floor);
    FloorNear(x, x + d);
    FloorNear(y, y + d);
    NeighbourInBounds(m, x.Floor, y.Floor, (x + d).Floor, y.Floor);
    NeighbourInBounds(m, x.Floor, y.Floor, x.Floor, (y + d).Floor);
  }

  /** One rotation block of `update`, in place. */
  method TurnInPlace(p: Player, c: real, s: real)
    modifies p
    ensures p.State() == Turn(old(p.State()), c, s)
  {
    var oldDirX := p.dirX;
    p.dirX := p.dirX * c - p.dirY * s;
    p.dirY := oldDirX * s + p.dirY * c;
    var oldPlaneX := p.planeX;
    p.planeX := p.planeX * c - p.planeY * s;
    p.planeY := oldPlaneX * s + p.planeY * c;
  }

  /** One movement block of `update`, in place: each axis is checked against
      the cell at its floored candidate coordinate paired with the other
      axis's current value, x first. */
  method MoveInPlace(p: Player, m: WorldMap, b: Block, moveSpeed: real)
    requires Rectangular(m) && Walled(m) && Passable(m, p.x.Floor, p.y.Floor)
    requires DirNormSq(p.State()) == 1.0 && 0.0 <= moveSpeed < 1.0
    modifies p
    ensures p.State() == MoveIf(true, m, old(p.State()), b, moveSpeed)
  {
    var d := Offset(p.State(), b, moveSpeed);
    var dx, dy := d.dx, d.dy;
    OffsetSmall(p.State(), b, moveSpeed);
    CandidateInBounds(m, p.x, p.y, dx);
    if m[(p.x + dx).Floor][p.y.Floor] == 0 { p.x := p.x + dx; }
    CandidateInBounds(m, p.x, p.y, dy);
    if m[p.x.Floor][(p.y + dy).Floor] == 0 { p.y := p.y + dy; }
  }

  /** `update`, in place on the pose object. The requires are what keeps every
      `map[..][..]` lookup of the source inside the grid: a walled rectangular
      map, a player in a passable cell, a unit view direction, an exact
      rotation (c^2 + s^2 = 1) and a step shorter than one cell. */
  method Update(p: Player, input: Input, m: WorldMap, moveSpeed: real, c: real, s: real)
    requires Rectangular(m) && Walled(m)
    requires Passable(m, p.x.Floor, p.y.Floor) && DirNormSq(p.State()) == 1.0
    requires c * c + s * s == 1.0 && 0.0 <= moveSpeed < 1.0
    modifies p
    ensures p.State() == Step(old(p.State()), input, m, moveSpeed, c, s)
    ensures Passable(m, p.x.Floor, p.y.Floor)
    ensures DirNormSq(p.State()) == 1.0
    ensures DirDotPlane(p.State()) == DirDotPlane(old(p.State()))
    ensures PlaneNormSq(p.State()) == PlaneNormSq(old(p.State()))
  {
    ghost var st0 := p.State();
    StepKeepsFrame(st0, input, m, moveSpeed, c, s);
    if input.turnLeft {
      TurnInPlace(p, c, s);
    }
    if input.turnRight {
      TurnInPlace(p, c, -s);
    }
    assert p.State() == Turns(st0, input, c, s);
    assert DirNormSq(p.State()) == DirNormSq(Step(st0, input, m, moveSpeed, c, s));
    if input.forward {
      MoveInPlace(p, m, Forward, moveSpeed);
    }
    if input.backward {
      MoveInPlace(p, m, Backward, moveSpeed);
    }
    if input.strafeLeft {
      MoveInPlace(p, m, StrafeLeft, moveSpeed);
    }
    if input.strafeRight {
      MoveInPlace(p, m, StrafeRight, moveSpeed);
    }
  }
}
