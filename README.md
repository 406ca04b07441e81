# Reactenstein 3D engine core, modelled in Dafny

Reactenstein 3D is a browser first-person raycaster in the style of Wolfenstein 3D. Its engine lives in the
`GameCanvas` component. On every animation frame it does three things:

1. **`update`**: turn the camera, then move the player. Movement is checked against the wall grid one axis at a
   time, which lets the player slide along walls.
2. **`render`**: draw the picture in three layers:
   - the ceiling, as a flat colour;
   - the floor, cast row by row into a persistent pixel buffer;
   - the walls, one screen column at a time. Each column's ray is walked through the grid with the DDA
     (digital differential analyser) until it enters a wall cell. That hit gives the column's height, its
     texture column and its texture, which may be one frame of an animation.
3. **Publish** a copy of the pose to the HUD and the minimap.

The model has one module per part of the engine:

| module | file | what it holds |
|---|---|---|
| `World` | `world.dfy` | The wall grid: `WORLD_MAP[x][y]`, where 0 is open and a positive value is a texture id. It also holds the predicates that keep lookups inside it. |
| `Camera` | `camera.dfy` | The pose (`PlayerState`), the mutable pose object (`Player`), the rotation and its invariants. |
| `Movement` | `movement.dfy` | `update`: a value-level specification (`Step`) and the in-place method (`Update`) proved equal to it. |
| `Pixels` | `pixels.dfy` | Power-of-two texture sizes, the `& (TEXTURE_SIZE - 1)` mask and row-major buffer indexing. |
| `FloorCaster` | `floorcaster.dfy` | The floor loops, writing an `array<int>` in place. |
| `WallCaster` | `wallcaster.dfy` | The DDA loop and everything derived from one column's hit. |
| `GameLoop` | `gameloop.dfy` | The component's state between frames (`Game`) and the frame loop. |

All arithmetic is over exact reals. Two IEEE-754 effects of the source are still modelled, because they decide
what is drawn:

- **Infinity.** `Math.abs(1 / 0)` is Infinity for a ray parallel to a grid axis, as in the centre column of
  the initial pose. The model's `Dist` has an `Infinite` case that compares greater than every finite value
  and absorbs additions.
- **Negative zero.** A perpendicular wall distance of exactly 0 only comes from 0 divided by a negative ray
  component. IEEE arithmetic makes that -0, so the line height is -Infinity. That gives an inverted span the
  canvas ignores, so the column is left undrawn.

The source never states its preconditions. The model states them, and they are exactly what keeps every
`WORLD_MAP[..][..]` lookup of the source defined:

- a rectangular map whose border cells are all walls;
- a player standing in an open cell;
- a unit view direction;
- an exact rotation, `c*c + s*s == 1`;
- a step shorter than one cell.

The model proves that `update` keeps all of these true.

The code has no sprite pass, no per-cell floor grid and no guard on a zero ray component, and the model follows it:

- `render` samples one floor texture everywhere and draws only the ceiling, the floor and the walls.
- A zero ray component is not guarded. Its Infinity flows into the walk, and the model shows it never reaches
  a texture index.
- An unknown texture id falls through to a white fill.
- The hit distance is non-negative, not strictly positive.

## Model

| member | source | states |
|---|---|---|
| Camera.InitialFramed | components/GameCanvas.tsx:228-235 | The initial pose (-1, 0) / (0, 0.66) has a unit view direction perpendicular to a camera plane of length 0.66. |
| Camera.Player.Initial | components/GameCanvas.tsx:228-235 | The pose object starts at (22, 12) facing -x, and that pose is framed. |
| Camera.Turn | components/GameCanvas.tsx:266-281 | A rotation block never changes the position. |
| Camera.RotationKeepsDot | components/GameCanvas.tsx:266-281 | Rotating two vectors by the same (c, s) with c^2 + s^2 = 1 keeps their dot product. |
| Camera.TurnKeepsFrame | components/GameCanvas.tsx:266-281 | A turn keeps dir . plane, \|dir\|^2 and \|plane\|^2: perpendicularity and the field of view survive every turn. |
| Camera.RotationUndone | components/GameCanvas.tsx:266-281 | The right-turn transform (c, -s) is the inverse of the left-turn transform (c, s). |
| Camera.TurnLeftThenRight | components/GameCanvas.tsx:266-281 | A left turn followed by a right turn restores the whole pose. |
| Camera.RotationsCompose | components/GameCanvas.tsx:266-281 | Two rotations compose into the rotation by the summed angle (the cosine and sine addition formulas). |
| Camera.TurnTwice | components/GameCanvas.tsx:266-281 | Two turns in a row equal one turn by the summed angle; for example, two left turns are undone by one right turn of twice the angle. |
| Camera.RayNonZero | components/GameCanvas.tsx:376-378 | Every column's ray `dir + plane * cameraX` has projection exactly 1 on dir, so it is never the zero vector. |
| Movement.Slide | components/GameCanvas.tsx:286-307 | A movement block changes only the position. x moves by its full step exactly when the cell at (candidate x, current y) is open. Then y moves by its full step exactly when the cell at (updated x, candidate y) is open, and otherwise stays. A blocked x still lets y move (wall sliding). A player in an open cell stays in one. |
| Movement.IntentsReadOnlyActionKeys | components/GameCanvas.tsx:266-302 | Only the ten key codes `update` tests (ArrowLeft/KeyQ, ArrowRight/KeyE, ArrowUp/KeyW, ArrowDown/KeyS, KeyA, KeyD) affect the tick's intents (`IntentsOf`). With none of them held, nothing is intended. |
| Movement.KeyAliases | components/GameCanvas.tsx:266-290 | Each arrow key and its letter alias (Q, E, W, S) give the same intents. |
| Movement.Offset | components/GameCanvas.tsx:283-307 | Forward moves along dir and backward against it, with no sideways part, by moveSpeed times \|dir\|^2 projected on dir. Left and right strafes move at right angles to dir, counter-clockwise and clockwise, by 0.7 moveSpeed times \|dir\|^2. |
| Movement.Step | components/GameCanvas.tsx:262-308 | A whole tick (`update`): the movement blocks never change the orientation the turn blocks leave. Without a turn key the orientation is kept, and without a movement key the position is kept. The collision and frame invariants are `StepKeepsPassable` and `StepKeepsFrame`. |
| Movement.Turns | components/GameCanvas.tsx:266-281 | The rotation blocks never change the position. |
| Movement.OffsetsOpposite | components/GameCanvas.tsx:283-307 | The backward displacement is the negated forward one. The right strafe vector (dirY, -dirX) is the negated left one (-dirY, dirX). |
| Movement.MoveIf | components/GameCanvas.tsx:286-307 | A block, pressed or not, changes only the position and keeps the player in an open cell. |
| Movement.Moves | components/GameCanvas.tsx:283-307 | The four movement blocks never touch dir or plane, and they keep the player in an open cell. |
| Movement.StepKeepsFrame | components/GameCanvas.tsx:262-308 | A whole tick keeps dir . plane, \|dir\|^2 and \|plane\|^2, so a framed pose stays framed. |
| Movement.StepKeepsPassable | components/GameCanvas.tsx:283-307 | The collision invariant: a player in an open cell is still in an open cell after any tick. |
| Movement.BothTurnsCancel | components/GameCanvas.tsx:266-281 | Holding both turn keys in one tick moves the player exactly as holding neither. |
| Movement.StrafeRoundTrip | components/GameCanvas.tsx:295-307 | With no obstruction, strafing left and then right returns the pose to where it started. |
| Movement.OffsetSmall | components/GameCanvas.tsx:283-307 | With \|dir\| = 1 and moveSpeed < 1, every displacement is below one cell on each axis. |
| Movement.CandidateInBounds | components/GameCanvas.tsx:287-306 | From an open cell, every candidate cell that `update` looks up exists in the map. |
| Movement.TurnInPlace | components/GameCanvas.tsx:266-281 | One in-place rotation block leaves the pose object equal to `Turn` of its old pose. |
| Movement.MoveInPlace | components/GameCanvas.tsx:286-307 | One in-place movement block leaves the pose object equal to `MoveIf` of its old pose. |
| Movement.Update | components/GameCanvas.tsx:262-308 | `update` leaves the pose object equal to `Step` of its old pose. The player stays in an open cell, \|dir\| stays 1, and dir . plane and \|plane\| are unchanged. |
| Pixels.Mask | components/GameCanvas.tsx:357-358 | `v & (2^k - 1)` always lies in [0, 2^k). |
| Pixels.MaskIsMod | components/GameCanvas.tsx:357-358 | The mask equals `v mod 2^k`, for negative v as well. |
| Pixels.MaskKeepsInRange | components/GameCanvas.tsx:357-358 | The mask leaves a value already in [0, 2^k) unchanged. |
| Pixels.TexelInRange | components/GameCanvas.tsx:364 | For tx, ty in [0, size), the texel index `size * ty + tx` is below size^2. |
| Pixels.RowMajor | components/GameCanvas.tsx:367 | Each write index `y * w + x` lies inside the w * rows buffer, and y and x can be recovered from it. |
| Pixels.RowMajorInjective | components/GameCanvas.tsx:367 | Distinct pixels write distinct buffer cells. |
| FloorCaster.RowDistance | components/GameCanvas.tsx:335-341 | Every floor row's distance is positive. |
| FloorCaster.RowDistanceDecreasing | components/GameCanvas.tsx:341 | Rows further below the horizon show floor strictly closer to the player. |
| FloorCaster.FloorOnLine | components/GameCanvas.tsx:344-361 | The accumulated floor point after x steps is the left-edge point plus x equal steps, so it moves along a straight line. |
| FloorCaster.FloorStepX | components/GameCanvas.tsx:331-344 | w steps of `floorStepX` span the camera plane's x width, 2 * planeX, at the row's distance. |
| FloorCaster.FloorStepY | components/GameCanvas.tsx:331-345 | w steps of `floorStepY` span the camera plane's y width, 2 * planeY, at the row's distance. |
| FloorCaster.FloorOnColumnRay | components/GameCanvas.tsx:344-361 | The accumulated floor point (`FloorX`, `FloorY`) under pixel x is where the column ray `dir + plane * (2x/w - 1)` meets the floor, rowDistance along it. The floor is cast along the same rays as the walls. |
| FloorCaster.FloorRowEnds | components/GameCanvas.tsx:331-349 | After w steps the floor point is where the right-edge ray (dir + plane) meets the floor. |
| FloorCaster.Scaled | components/GameCanvas.tsx:357-358 | The scaled fractional part of a coordinate already lies in [0, TEXTURE_SIZE). |
| FloorCaster.TexCoord | components/GameCanvas.tsx:357-358 | Each masked texture coordinate lies in [0, TEXTURE_SIZE). |
| FloorCaster.TexCoordUnmasked | components/GameCanvas.tsx:357-358 | Over exact reals the mask never changes the coordinate. |
| FloorCaster.FloorSample | components/GameCanvas.tsx:364 | Every floor sample index is below TEXTURE_SIZE^2. |
| FloorCaster.PixelAt | components/GameCanvas.tsx:364-367 | Every floor buffer cell's colour is a texel of the floor texture. |
| FloorCaster.CastFloor | components/GameCanvas.tsx:338-369 | The floor loops write buffer indexes 0, 1, ..., w * (h/2) - 1 in order, so each cell is written exactly once per frame. Each cell then holds the texel sampled for its pixel. |
| FloorCaster.CastRow | components/GameCanvas.tsx:341-368 | One row writes exactly its w cells, left to right, with the texel of each pixel, and leaves the rest of the buffer untouched. |
| FloorCaster.PixelAtCell | components/GameCanvas.tsx:367 | The cell at `y * w + x` is inside the buffer and holds the sample for pixel (x, y). |
| WallCaster.Add | components/GameCanvas.tsx:411-415 | A sum of ray distances is infinite exactly when one of the summands is. |
| WallCaster.DeltaDist | components/GameCanvas.tsx:383-384 | `Math.abs(1 / d)` is Infinity exactly when d = 0, and positive otherwise. |
| WallCaster.Scale | components/GameCanvas.tsx:394-407 | The initial side distance is infinite exactly when the ray never crosses that axis's grid lines. |
| WallCaster.RayOf | components/GameCanvas.tsx:383-407 | Each step is -1 exactly for a negative ray component and 1 otherwise. Each delta distance is infinite exactly for a zero component. |
| WallCaster.Start | components/GameCanvas.tsx:380-407 | The walk starts in the player's cell, in a state consistent with the ray. |
| WallCaster.Advance | components/GameCanvas.tsx:410-418 | Each DDA iteration moves exactly one of mapX and mapY, by its unit step, and `side` names the axis that moved. x is crossed only by a ray that crosses x grid lines. |
| WallCaster.CastFrom | components/GameCanvas.tsx:409-420 | On a walled map the walk ends, with every index in range, on a cell whose value is > 0. It never moves backwards on an axis. The axis it crossed last has moved. Its delta distance is finite for an x crossing, and also for a y crossing unless the ray never crosses x grid lines. |
| WallCaster.TraceRay | components/GameCanvas.tsx:380-420 | The DDA setup and `while (hit === 0)` loop terminate, and their final state equals `CastFrom` from `Start`. |
| WallCaster.PerpNonNegative | components/GameCanvas.tsx:422-423 | The perpendicular distance divides by a non-zero ray component and is never negative. It is 0 only when that component is negative, which makes the distance -0 in IEEE arithmetic. |
| WallCaster.PerpWallDist | components/GameCanvas.tsx:422-423 | `pos + perpWallDist * rayDir` lies on the grid line of the crossed face: `mapX + (1 - stepX) / 2` for an x face, likewise for y. |
| WallCaster.HitPointOnRay | components/GameCanvas.tsx:422-435 | The hit point lies on the column's ray through the player. It is the crossed face's grid line on one axis and `wallX` before its floor is taken (`AlongFace`) on the other. |
| WallCaster.RaysSweepPlane | components/GameCanvas.tsx:376-378 | The leftmost column's ray (`RayDir`) is dir - plane, the same ray the floor caster starts each row from. Each column to the right adds 2/w of the plane. |
| WallCaster.AlongView | components/GameCanvas.tsx:376-378 | `t * rayDir` lies exactly t ahead of the player along dir, for every column. So the perpendicular distance is a distance along the view axis (no fish-eye). |
| WallCaster.LineHeight | components/GameCanvas.tsx:425 | `Math.floor(h / perp)` is a non-negative integer, except for a zero distance, which gives -Infinity. |
| WallCaster.NearerIsTaller | components/GameCanvas.tsx:425 | A nearer wall is never drawn shorter than a farther one. |
| WallCaster.ClipSpan | components/GameCanvas.tsx:426-429 | A finite line gives 0 <= drawStart <= drawEnd < h, and drawEnd <= h - 1 except for a line of height h - 1. A line that fits is centred on the horizon with its full height. A taller line fills the column. -Infinity gives the inverted span. |
| WallCaster.WallX | components/GameCanvas.tsx:433-436 | The hit position on the face lies in [0, 1) and differs from the coordinate by a whole number. |
| WallCaster.WallXPeriodic | components/GameCanvas.tsx:436 | The position on the face is the same in every cell. |
| WallCaster.TexColumn | components/GameCanvas.tsx:438 | `Math.floor(wallX * TEXTURE_SIZE)` lies in [0, TEXTURE_SIZE). |
| WallCaster.Mirror | components/GameCanvas.tsx:439-440 | `TEXTURE_SIZE - texX - 1` keeps a column inside the texture and reflects it about the centre. |
| WallCaster.MirrorInvolution | components/GameCanvas.tsx:439-440 | Mirroring twice gives the column back. |
| WallCaster.TexX | components/GameCanvas.tsx:438-440 | The texture column lies in [0, TEXTURE_SIZE). It is mirrored exactly once for an x face hit going +x or a y face hit going -y, and left unmirrored otherwise. |
| WallCaster.FrameIndex | components/GameCanvas.tsx:446 | `Math.floor(now / 150) % len` lies in [0, len). |
| WallCaster.FramePeriodic | components/GameCanvas.tsx:446 | The animation repeats every 150 * len ms. |
| WallCaster.FrameSteady | components/GameCanvas.tsx:446 | A frame stays for its whole 150 ms window. |
| WallCaster.SelectTexture | components/GameCanvas.tsx:442-448 | A texture is found exactly when the id is in the table and is not an empty animation. A single image is used as is, and an animation yields one of its frames. |
| WallCaster.CameraX | components/GameCanvas.tsx:376 | `2 * x / w - 1` lies in [-1, 1) for every column. |
| WallCaster.PaintOf | components/GameCanvas.tsx:450-464 | A column is filled white exactly when there is no texture. Otherwise it shows that texture's column, darkened exactly for y faces. |
| WallCaster.ColumnFromHit | components/GameCanvas.tsx:422-464 | A finite span lies within the screen, and the texture column lies within the texture. The column shows the hit wall's texture, darkened exactly when the wall was entered through a y face. |
| WallCaster.ColumnOf | components/GameCanvas.tsx:380-464 | For one ray, the column shows the texture of the first wall cell the walk enters, darkened exactly when it entered through a y face. It is filled white when that cell has no texture. |
| WallCaster.ColumnAt | components/GameCanvas.tsx:376-464 | For every framed pose and every camera coordinate, a drawn span lies within the screen and the texture column lies within the texture. |
| WallCaster.DrawHit | components/GameCanvas.tsx:422-464 | The code after the walk (projection, clipping, wallX, texX, texture choice) computes `ColumnFromHit` of the hit. |
| WallCaster.TraceColumn | components/GameCanvas.tsx:376-464 | One iteration of the wall loop computes the column specified by the walk and its hit. |
| WallCaster.RenderWalls | components/GameCanvas.tsx:375-465 | The wall loop yields one column per screen x, left to right. Column x is the one specified for camera coordinate `2x/w - 1` at its own clock reading `times[x]`, so one frame can show two animation frames. |
| GameLoop.Game.constructor | components/GameCanvas.tsx:222-235 | The component starts at the initial pose, with no textures, no floor buffer and nothing drawn, and in a valid state. |
| GameLoop.Game.SetTextures | components/GameCanvas.tsx:237-239 | The mount effect installs the textures and changes nothing else. |
| GameLoop.Game.Render | components/GameCanvas.tsx:310-465 | Without a context or textures nothing changes. Otherwise the floor buffer is created once and then reused, every cell holds its pixel's floor texel, and the wall columns are the specified ones for the current pose, each at its own clock reading. The pose is unchanged. |
| GameLoop.Game.Loop | components/GameCanvas.tsx:241-252 | With a canvas: `update` runs first (the pose becomes `Step` of the old pose), the frame is drawn from the new pose, and a copy of the new pose is published. Without a canvas nothing happens: the pose, the floor buffer (reference and contents) and the wall columns are kept, and nothing is published. With a canvas but no context or textures the pose moves and nothing is drawn. A floor buffer, once created, is reused. The state stays valid. |

## Left out

- `generateTextures` (components/GameCanvas.tsx:15-219) and sprites.ts are out of scope. They do procedural canvas drawing with `Math.random`. Textures are opaque integer handles, and the floor texture is a sequence of packed colours.
- The canvas API is not modelled: `getContext`, `fillRect`, `drawImage`, `createImageData`, `putImageData` and the `rgba` shading overlay.
  - The ceiling fill (components/GameCanvas.tsx:318-320) is not represented.
  - The floor is represented by the pixel buffer.
  - The walls are represented by the recorded `Column`s: span, image handle, texture column and a shading flag.
- `requestAnimationFrame`, `cancelAnimationFrame` and the React hooks (components/GameCanvas.tsx:251-260) are left out; `Game.Loop` is one frame.
- IEEE-754 rounding is not modelled: numbers are exact reals, `Math.floor` is `.Floor`, and `Math.cos` and `Math.sin` of rotSpeed are the reals `c` and `s` with `c*c + s*s == 1`. Infinity and -0 are modelled only where they change what is drawn.
- `useInput` and constants.ts are not part of this model.
  - The input is a record of six booleans. `IntentsOf` maps key names to it.
  - WORLD_MAP, screen size, TEXTURE_SIZE (as `2^k`), moveSpeed and rotSpeed are parameters, with the preconditions listed above.
- App.tsx and components/Minimap.tsx only read the published pose.
- `Date.now()` is read by the wall loop, once per column that shows an animated wall. It is modelled as a parameter `times` with one reading (in milliseconds, non-negative) per screen column, and column x uses `times[x]`. Single-image columns ignore their reading. The readings are not required to be non-decreasing; a real clock's readings are one case of them.
- The packing of colours in the `Uint32Array` view of the image data is not modelled; the buffer holds integers.
- WallCaster.ClipSpan: states drawEnd < h, not drawEnd <= h - 1. A line of height exactly h - 1 ends at h - 1/2, which the `drawEnd >= h` guard lets through. The drawn height is still h - 1, so nothing visible goes wrong.
- WallCaster.TraceRay: the walk is proved to end only on maps whose border cells are all walls. On other maps the source can index past the grid and throw, and the model does not cover that.
