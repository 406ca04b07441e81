/** The camera pose (PlayerState): position, view direction and camera plane. */
module Camera {

  /** A snapshot of the pose, as published to the HUD and the minimap. */
  datatype PlayerState = PlayerState(x: real, y: real, dirX: real, dirY: real, planeX: real, planeY: real)

  /** The pose every session starts from: at (22, 12), looking along -x,
      with a camera plane of length 0.66 (a field of view of about 66 degrees). */
  const InitialState := PlayerState(22.0, 12.0, -1.0, 0.0, 0.0, 0.66)

  function Dot(ux: real, uy: real, vx: real, vy: real): real {
    ux * vx + uy * vy
  }

  /** The quantities a rotation must keep: dir . plane, |dir|^2 and |plane|^2.
      Keeping the first at 0 keeps the two vectors perpendicular; keeping the
      other two keeps the field of view. */
  function DirDotPlane(st: PlayerState): real { Dot(st.dirX, st.dirY, st.planeX, st.planeY) }
  function DirNormSq(st: PlayerState): real { Dot(st.dirX, st.dirY, st.dirX, st.dirY) }
  function PlaneNormSq(st: PlayerState): real { Dot(st.planeX, st.planeY, st.planeX, st.planeY) }

  /** The pose invariant the source relies on: a unit view direction and a
      camera plane perpendicular to it whose length encodes the field of view. */
  predicate Framed(st: PlayerState) {
    DirNormSq(st) == 1.0 && DirDotPlane(st) == 0.0 && PlaneNormSq(st) == 0.66 * 0.66
  }

  lemma InitialFramed()
    ensures Framed(InitialState)
  {
  }

  /** The rotation of one coordinate pair by the angle whose cosine is c and
      whose sine is s. */
  function RotX(ax: real, ay: real, c: real, s: real): real { ax * c - ay * s }
  function RotY(ax: real, ay: real, c: real, s: real): real { ax * s + ay * c }

  /** One rotation block of `update`: rotate the direction and the camera plane
      by the same angle. */
  function Turn(st: PlayerState, c: real, s: real): (r: PlayerState)
    ensures r.x == st.x && r.y == st.y
  {
    st.(dirX := RotX(st.dirX, st.dirY, c, s), dirY := RotY(st.dirX, st.dirY, c, s),
        planeX := RotX(st.planeX, st.planeY, c, s), planeY := RotY(st.planeX, st.planeY, c, s))
  }

  /** A rotation keeps the dot product of any two vectors it is applied to. */
  lemma RotationKeepsDot(ux: real, uy: real, vx: real, vy: real, c: real, s: real)
    requires c * c + s * s == 1.0
    ensures Dot(RotX(ux, uy, c, s), RotY(ux, uy, c, s), RotX(vx, vy, c, s), RotY(vx, vy, c, s)) == Dot(ux, uy, vx, vy)
  {
    calc {
      Dot(RotX(ux, uy, c, s), RotY(ux, uy, c, s), RotX(vx, vy, c, s), RotY(vx, vy, c, s));
      (ux * c - uy * s) * (vx * c - vy * s) + (ux * s + uy * c) * (vx * s + vy * c);
      ux * vx * (c * c) - ux * vy * (c * s) - uy * vx * (s * c) + uy * vy * (s * s)
        + ux * vx * (s * s) + ux * vy * (s * c) + uy * vx * (c * s) + uy * vy * (c * c);
      ux * vx * (c * c + s * s) + uy * vy * (c * c + s * s);
      Dot(ux, uy, vx, vy);
    }
  }

  /** Turning applies the same rotation to both vectors, so perpendicularity
      and both lengths are kept exactly. */
  lemma TurnKeepsFrame(st: PlayerState, c: real, s: real)
    requires c * c + s * s == 1.0
    ensures DirDotPlane(Turn(st, c, s)) == DirDotPlane(st)
    ensures DirNormSq(Turn(st, c, s)) == DirNormSq(st)
    ensures PlaneNormSq(Turn(st, c, s)) == PlaneNormSq(st)
  {
    var dx, dy, px, py := st.dirX, st.dirY, st.planeX, st.planeY;
    RotationKeepsDot(dx, dy, px, py, c, s);
    RotationKeepsDot(dx, dy, dx, dy, c, s);
    RotationKeepsDot(px, py, px, py, c, s);
  }

  /** Rotating one coordinate pair by (c, s) and then by (c, -s) gives it back. */
  lemma RotationUndone(ax: real, ay: real, c: real, s: real)
    requires c * c + s * s == 1.0
    ensures RotX(RotX(ax, ay, c, s), RotY(ax, ay, c, s), c, -s) == ax
    ensures RotY(RotX(ax, ay, c, s), RotY(ax, ay, c, s), c, -s) == ay
  {
    calc {
      RotX(RotX(ax, ay, c, s), RotY(ax, ay, c, s), c, -s);
      (ax * c - ay * s) * c - (ax * s + ay * c) * (-s);
      ax * (c * c) - ay * (s * c) + ax * (s * s) + ay * (c * s);
      ax * (c * c + s * s);
      ax;
    }
    calc {
      RotY(RotX(ax, ay, c, s), RotY(ax, ay, c, s), c, -s);
      (ax * c - ay * s) * (-s) + (ax * s + ay * c) * c;
      -(ax * (c * s)) + ay * (s * s) + ax * (s * c) + ay * (c * c);
      ay * (c * c + s * s);
      ay;
    }
  }

  /** A left turn by (c, s) followed by a right turn by (c, -s), i.e. by
      cos(-rotSpeed) and sin(-rotSpeed), restores the pose exactly. */
  lemma TurnLeftThenRight(st: PlayerState, c: real, s: real)
    requires c * c + s * s == 1.0
    ensures Turn(Turn(st, c, s), c, -s) == st
  {
    var dx, dy, px, py := st.dirX, st.dirY, st.planeX, st.planeY;
    RotationUndone(dx, dy, c, s);
    RotationUndone(px, py, c, s);
  }

  /** Rotating one coordinate pair by (c1, s1) and then by (c2, s2) is one
      rotation by the angle sum: cos = c1 c2 - s1 s2, sin = s1 c2 + c1 s2. */
  lemma RotationsCompose(ax: real, ay: real, c1: real, s1: real, c2: real, s2: real)
    ensures RotX(RotX(ax, ay, c1, s1), RotY(ax, ay, c1, s1), c2, s2) == RotX(ax, ay, c1 * c2 - s1 * s2, s1 * c2 + c1 * s2)
    ensures RotY(RotX(ax, ay, c1, s1), RotY(ax, ay, c1, s1), c2, s2) == RotY(ax, ay, c1 * c2 - s1 * s2, s1 * c2 + c1 * s2)
  {
    calc {
      RotX(RotX(ax, ay, c1, s1), RotY(ax, ay, c1, s1), c2, s2);
      (ax * c1 - ay * s1) * c2 - (ax * s1 + ay * c1) * s2;
      ax * (c1 * c2) - ay * (s1 * c2) - ax * (s1 * s2) - ay * (c1 * s2);
      ax * (c1 * c2 - s1 * s2) - ay * (s1 * c2 + c1 * s2);
    }
    calc {
      RotY(RotX(ax, ay, c1, s1), RotY(ax, ay, c1, s1), c2, s2);
      (ax * c1 - ay * s1) * s2 + (ax * s1 + ay * c1) * c2;
      ax * (c1 * s2) - ay * (s1 * s2) + ax * (s1 * c2) + ay * (c1 * c2);
      ax * (s1 * c2 + c1 * s2) + ay * (c1 * c2 - s1 * s2);
    }
  }

  /** Two successive turns are one turn by the sum of the angles (angle
      addition), so e.g. two left turns by a are undone by one right turn by 2a. */
  lemma TurnTwice(st: PlayerState, c1: real, s1: real, c2: real, s2: real)
    ensures Turn(Turn(st, c1, s1), c2, s2) == Turn(st, c1 * c2 - s1 * s2, s1 * c2 + c1 * s2)
  {
    var dx, dy, px, py := st.dirX, st.dirY, st.planeX, st.planeY;
    RotationsCompose(dx, dy, c1, s1, c2, s2);
    RotationsCompose(px, py, c1, s1, c2, s2);
  }

  /** On a framed pose, every column's ray `dir + plane * cameraX` is a
      non-zero vector: its projection on dir is exactly 1. */
  lemma RayNonZero(st: PlayerState, cameraX: real)
    requires Framed(st)
    ensures Dot(st.dirX + st.planeX * cameraX, st.dirY + st.planeY * cameraX, st.dirX, st.dirY) == 1.0
    ensures st.dirX + st.planeX * cameraX != 0.0 || st.dirY + st.planeY * cameraX != 0.0
  {
    calc {
      Dot(st.dirX + st.planeX * cameraX, st.dirY + st.planeY * cameraX, st.dirX, st.dirY);
      DirNormSq(st) + cameraX * DirDotPlane(st);
      1.0;
    }
  }

  /** The pose object owned by the frame loop (playerRef.current), mutated in
      place by the movement resolver every tick. */
  class Player {
    var x: real
    var y: real
    var dirX: real
    var dirY: real
    var planeX: real
    var planeY: real

    /** A copy of the current pose (`{ ...player }`). */
    function State(): PlayerState
      reads this
    {
      PlayerState(x, y, dirX, dirY, planeX, planeY)
    }

    constructor Initial()
      ensures State() == InitialState
      ensures Framed(State())
    {
      x, y := 22.0, 12.0;
      dirX, dirY := -1.0, 0.0;
      planeX, planeY := 0.0, 0.66;
    }
  }
}
