# Hajiki: arena placement and the drag-to-flick state machine

A model of the game logic of the "hajiki" (flicking disks) mini-game in
`src/main.ts`. The arena is bounded by four static rectangles. Seven round
pieces are spawned in it. The player grabs a piece, drags, and lets go: the
piece is flicked with an impulse opposite to the drag, applied at the grabbed
point. Box2D moves the bodies; the game only issues commands to it.

The model has three modules, one file each:

- `vectors.dfy` (`Vectors`): vectors in meters, and the pixel/meter
  conversion. `physics.vec2(x, y)` divides by the scale of 50 pixels per
  meter; positions go back to pixels by multiplying by it. It also holds the
  rotation `b2Mat22.FromAngle(theta)` applied with `b2Vec2.MulM`. The angle is
  kept as the pair (cos theta, sin theta) with c² + s² = 1, so no trigonometry
  is needed.
- `arena.dfy` (`Arena`): pure placement arithmetic.
  - `calcCenter` gives an entity's center in meters.
  - `createWall` gives the center positions of the left and right walls, the
    floor and the ceiling. Each is its top-left corner plus its center offset.
  - `randomPosition` maps two draws in [0, 1) to a spawn point.
- `hajiki.dfy` (`Hajiki`): one piece as a class (`Piece`). Its fields are:
  - the body state the handlers touch: position, rotation, linear and angular
    velocity, damping;
  - the log of `ApplyImpulse` commands;
  - the shared `arrow` and `anchor` slots of `createHajiki`, and a count of
    live arrow sprites;
  - the visibility of the normal and the touched sprite of `createCircle`.

  `PointDown`, `PointMove` and `PointUp` are the pointer handlers.
  `SolverStep` is a solver step as seen by one piece. The arrow sprite is a
  class of its own (`ArrowSprite`), because `PointMove` changes its fields in
  place.

`Piece.Valid()` is the invariant every handler keeps:

- at most one arrow is alive, and it is the one in the slot;
- exactly one of the two piece sprites is visible, the touched one exactly
  while a drag is on;
- a live arrow sits at the anchor, converted to pixels;
- the body's rotation pair is a rotation.

Where the code and the game's stated design differ, the model follows the code:

- `anchor` is not cleared on pointer-up (src/main.ts:302-311). `Piece.PointUp`
  keeps it, and `Flick` shows that it is still set after a gesture.
- Pointer-move and pointer-up read `arrow` without a null check
  (src/main.ts:297, 309). They are not no-ops without a preceding
  pointer-down. The model requires a drag to be on (`Dragging()`).
- The comment at src/main.ts:125 promises a 1 m margin on every side. The
  formula keeps it only at the top and left (see Findings).

## Model

| member | source | states |
|---|---|---|
| Vectors.Vec2 | src/main.ts:119-121 | `physics.vec2` turns pixels into meters: the result times the scale gives back each pixel coordinate |
| Vectors.ToPixels | src/main.ts:281-282 | multiplying a position by `worldProperty.scale` gives pixels that divide back to the meters |
| Vectors.PixelRoundTrip | src/main.ts:270-282 | pixels to meters and back is the identity, and so is meters to pixels and back |
| Vectors.LengthToPixels | src/main.ts:294-298 | the drag length in meters times the scale is the Euclidean length of the pixel drag |
| Vectors.MulMIdentity | src/main.ts:272 | `MulM` with the matrix of angle 0 leaves a vector unchanged |
| Vectors.MulMZero | src/main.ts:272 | `MulM` by any matrix leaves the zero offset at zero |
| Vectors.MulM | src/main.ts:272 | `MulM` by `FromAngle` (c² + s² = 1) preserves the squared length of the vector it turns |
| Vectors.MulMInverse | src/main.ts:272 | turning by the opposite angle undoes `MulM` by `FromAngle`, and the opposite angle is again a rotation |
| Arena.CalcCenter | src/main.ts:119-121 | the center is half the entity's width and height, in meters |
| Arena.WallEntity | src/main.ts:44-46 | a wall entity is 0.3 m wide and as tall as the arena |
| Arena.FloorEntity | src/main.ts:63-65 | a floor or ceiling entity is as wide as the arena and 0.3 m tall |
| Arena.PlaceAt | src/main.ts:209-211 | `vec2(px, py)` plus `calcCenter` puts the body's center so that the rectangle covers exactly [px, px + width] × [py, py + height] in pixels |
| Arena.CreateWall | src/main.ts:206-230 | left wall at (w/2, H/2)/s, right wall at (W − w/2, H/2)/s, floor at (W/2, H − h/2)/s, ceiling at (W/2, h/2)/s; w = h = 0.3·s pixels |
| Arena.BoundaryFlush | src/main.ts:206-230 | each rectangle's outer face is on its arena edge and it spans the whole edge; its inner face is 0.3 m inside |
| Arena.BoundaryMirror | src/main.ts:206-230 | the walls are mirror images about x = W/2 and the floor and ceiling about y = H/2 |
| Arena.RandomPixel | src/main.ts:129-130 | a draw in [0, 1) gives a pixel coordinate in [scale, extent) when the extent exceeds the scale |
| Arena.RandomPixelOnto | src/main.ts:129-130 | every coordinate in [scale, extent) comes from exactly the draw (p − scale)/(extent − scale) in [0, 1) |
| Arena.RandomPixelMonotone | src/main.ts:129-130 | a larger draw gives a strictly larger coordinate |
| Arena.RandomPosition | src/main.ts:127-132 | the spawn point in meters is at least 1 m from the left and top edges and strictly before the right and bottom edges |
| Arena.RandomPixelUpperInsetFails | src/main.ts:123-132 | every draw above (extent − 2·scale)/(extent − scale) lands within the 1 m margin that the comment promises; in a 500-pixel arena the draw 0.99 does |
| Arena.InsetRandomPixel | src/main.ts:123-132 | the corrected coordinate stays in [scale, extent − scale) |
| Arena.InsetRandomPosition | src/main.ts:123-132 | the corrected spawn point is at least 1 m from every edge |
| Hajiki.TouchOffset | src/main.ts:270-271 | the touched point minus the entity's center, converted to meters |
| Hajiki.AnchorFor | src/main.ts:270-273 | the anchor is as far from the body position as the touch is from the entity's center; with angle 0 it is the body position plus the touch's offset from the center |
| Hajiki.AnchorAtCenter | src/main.ts:270-273 | touching the exact center of the piece puts the anchor on the body position, for every rotation |
| Hajiki.AnchorRecoversPoint | src/main.ts:270-273 | undoing position, rotation and recentring on the anchor gives back the touched pixel point |
| Hajiki.LaunchImpulse | src/main.ts:302-306 | the impulse is −power · drag, converted to meters |
| Hajiki.LaunchImpulseOpposesDrag | src/main.ts:302-307 | each impulse component has the sign opposite to the drag's, and the impulse is `power` times as long as the drag |
| Hajiki.ArrowSprite.constructor | src/main.ts:276-289 | a new arrow sits at the given pixel point with scale 0 and the size of the arrow image |
| Hajiki.ArrowSprite.Destroy | src/main.ts:309 | the sprite is destroyed; its position and scale are untouched |
| Hajiki.Piece.constructor | src/main.ts:237-250 | a new piece rests unrotated at the spawn position with damping 0.5, no arrow, no anchor, the normal sprite shown; it remembers the arrow image's size |
| Hajiki.Piece.PointDown | src/main.ts:253-291 | destroys any old arrow; stops the body; sets the anchor to the rotated touch plus the body position; creates one arrow at the anchor with scale 0; shows the touched sprite; keeps the invariant |
| Hajiki.Piece.PointMove | src/main.ts:292-301 | only the arrow changes: its displayed width and height become the drag's pixel length; the anchor, velocities and impulse log stay |
| Hajiki.Piece.PointUp | src/main.ts:302-311 | appends one impulse, the negated drag times power, at the stored anchor; the body takes the velocities the solver gives it after the impulse; destroys the arrow and empties the slot; shows the normal sprite; keeps the anchor |
| Hajiki.Piece.SolverStep | src/main.ts:96-100 | a solver step moves, turns and re-speeds the body but leaves the arrow, anchor, impulse log and sprites as they were |
| Hajiki.RepeatedPointDown | src/main.ts:253-291 | two pointer-downs without a pointer-up destroy the first arrow and leave only the second alive, at the anchor of the second touch |
| Hajiki.Flick | src/main.ts:253-311 | a down-move-up gesture issues exactly one impulse, the negated drag times power, at the touch's anchor, and ends with no live arrow, the normal sprite shown and the anchor kept |

## Findings

| source | as written | input that shows it | evidently intended | confidence | as-written member | corrected member |
|---|---|---|---|---|---|---|
| src/main.ts:125-130 | `r * (extent - scale) + scale` keeps the 1 m margin only on the low side | extent 500, r = 0.99: the coordinate is 495.5, inside the margin that ends at 450 | `r * (extent - 2 * scale) + scale`, a 1 m margin on every side as the comment says | medium, not executed | Arena.RandomPixelUpperInsetFails | Arena.InsetRandomPixel |

`Arena.RandomPosition` models the formula as written, because that is what
spawns the pieces. `Arena.InsetRandomPosition` gives the corrected spawn point
with its proved margin.

## Left out

- Box2D itself. `physics.step` (src/main.ts:99) is modelled only as its effect
  on one piece, with the new position, rotation and velocities as parameters
  of `Piece.SolverStep`. Collisions, integration, damping and sleeping are
  not modelled.
- Hajiki.Piece.PointUp: records the `ApplyImpulse` command. The velocities
  the impulse gives the body are computed by the solver, so they are
  parameters; the model does not say how they follow from the impulse.
- Hajiki.Piece.PointMove: `b2Vec2.Length()` needs a square root, which the
  model does not have. The caller supplies the length in meters, and the
  requires clause pins it to the drag's Euclidean length.
- The arrow's `angle`, set from `Math.atan2` in degrees (src/main.ts:299),
  is floating-point trigonometry and is not modelled.
- The rotation is taken as the pair (cos theta, sin theta). Reading the angle
  from the body and computing `FromAngle` is not modelled.
- Floating point: all arithmetic is on exact reals.
- Scene, asset and rendering work is not modelled: `main`, `createRect`,
  entity and sprite construction, `scene.append` and `modified()`. This is
  user-interface plumbing. Body and fixture construction in
  `createBody`/`createRect` is only modelled through the positions and sizes
  it is given.
- `main`'s loop that spawns seven pieces is not modelled. It only calls
  `randomPosition` and the `Piece` constructor.
- The scene-level capture handlers (src/main.ts:102-109) are not modelled.
  They build a vector and drop it, so they have no visible effect.
- `src/parameters.ts` is configuration only. It repeats the constants of
  `src/main.ts`, which the model takes as constants: scale 50, power 10,
  piece size 1 m, wall thickness 0.3 m, damping 0.5.
- Density, friction and restitution are not modelled. They go straight to
  the solver.
- The arrow sprite's `width` and `height` are not set by the game code
  (src/main.ts:276-289); they are the host's default for the "arrow" image,
  which is not part of this model. The model takes them as positive
  parameters of the `Piece` constructor.
