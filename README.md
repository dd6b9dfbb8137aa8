# Pellet Town walker — a Dafny model of the per-frame game update

The game is a browser tile walker. One player sprite stays fixed at the centre of a
1024×576 canvas. The player "walks" because the world scrolls under it: the background
layer, the foreground layer and every collision boundary move together. This project
models the state changes of the game in `index.js` and proves properties about them:

- **Collision grid** (`Grid`). The flat tile-code array is cut into rows of 70.
  One 48×48 boundary is made per cell holding code 1025, at
  `(col*48 - 735, row*48 - 600)`. A test boundary at (400, 400) is appended after them
  (`App.InitialBoundaries`).
- **Overlap test** (`Geometry.RectangularCollision`). Four inclusive half-plane
  comparisons. The bottom comparison is the game's own foot hit box,
  `y1 + 0.15*y1 <= y2 + h2`.
- **Step and animation rate** from the crouch and sprint flags (`Movement.StepAndRate`).
- **Sprite animator** (`Animation.AdvanceFrames`, `Animation.Sprite.Render`). This is the
  `frames.elapsed` / `frames.current` update at the end of a render.
- **Movement resolver**. `Movement.Resolve` is the reference definition.
  `App.Game.Frame`, `Move`, `GeneralMoves`, `Attempt`, `ProbeBoundaries` and
  `ShiftMovables` are the imperative form. They work on a class whose boundaries live
  in an array that is updated in place.
  - Four sprint-lock branches come first (w, d, s, a). Each one ends the frame.
  - Then four general branches run. They share one `moving` flag.
  - Each branch probes every boundary shifted by the move's offset. Only if no probe
    hits does it shift every movable by `step`.
- **Keyboard state machine** (`Input.Keyboard`). It holds `lastKey`, `sprint`,
  `crouching` and the eight pressed flags, and has the keydown and keyup handlers.

Positions are exact `real`s. The constants 3, 1.5, 7.2, 3.6, 2.4 and 0.15 are exact
decimals.

The sprite sizes come from asynchronously loaded images, so they are constructor
parameters: a sprite's width is the image width divided by its frame count, and its
height is the image height. The tile array from `src/collisions.js` is an input sequence;
`src/collisions.js` is not part of this model. Each call of `Frame` is one
`requestAnimationFrame` callback. Each call of `KeyDown` / `KeyUp` is one keyboard event.

Order inside a frame follows the source. The renders come first, so the player's frame
counter advances according to the `moving` flag and `rate` of the *previous* frame. Then
the new rate is stored, and then movement is resolved.

Two details of the code that are easy to miss:

- The animator's wrap-around test runs even for a one-frame sprite (its counter stays 0,
  so `current` is reset to 0 on every moving render). The effect is the same: a one-frame
  sprite stays on frame 0.
- The vertical probe is not the same as moving the player the other way, because the
  foot offset depends on the player's own y (`Geometry.VerticalProbeIsNotPlayerShift`).
  The horizontal probe is the same (`Geometry.HorizontalProbeIsPlayerShift`).

## Model

| member | source | states |
|---|---|---|
| `Geometry.RectangularCollision` | index.js:222-236 | the body is the modelled computation: the four inclusive comparisons with the 15% foot term; its meaning is stated by `CollisionIsPointOverlap` |
| `Grid.Chunks` | index.js:16-18 | the body is the modelled computation: consecutive slices of 70 tiles; its properties are `ChunksFlatten`, `ChunksShape` and `ChunksIndex` |
| `Grid.BoundaryAt` | index.js:80-85 | the body is the modelled computation: the 48×48 boundary at (c*48 - 735, r*48 - 600) |
| `Grid.RowBoundaries` | index.js:77-87 | the body is the modelled computation: one boundary per cell of a row holding 1025, in column order |
| `Grid.GridBoundaries` | index.js:76-88 | the body is the modelled computation: the rows' boundaries concatenated in row order; its properties are the `GridBoundaries…` lemmas |
| `App.InitialBoundaries` | index.js:212-219 | the body is the modelled computation: the grid's boundaries followed by the test boundary; its property is `InitialBoundariesIff` |
| `Input.KeyNamed` | index.js:500-503 | the body is the modelled computation: the lookup of an event key in the eight-key table, also used at index.js:520-523; its property is `KeyNamedIff` |
| `Movement.Delta` | index.js:278-288 | the body is the modelled computation: the probe offset and scroll of each direction (as at index.js:278/288, 305/316, 334/344, 361/372); stated per direction by `TranslateByStep` |
| `Movement.Blocked` | index.js:268-286 | the body is the modelled computation: some boundary shifted by the probe offset overlaps the player; its meaning is stated by `ProbeIsOverlapAfterMove` and the loop is `ProbeBoundaries` |
| `Movement.Try` | index.js:264-289 | the body is the modelled computation: one direction branch; the imperative form is `Game.Attempt` |
| `Movement.TrySeq` | index.js:377-484 | the body is the modelled computation: the general branches in order, sharing one `moving` flag; its properties are `TrySeqStalled` and `TrySeqPrefix` |
| `Geometry.FootBox` | index.js:229-231 | the rectangle the bottom comparison uses: rectangle1 with its top edge lowered by 15% of its y; it is not inverted exactly when the rectangle's height is at least 0.15·y |
| `Movement.Translate` | index.js:221-221 | the body is the modelled computation: every movable (background, each boundary, foreground) shifted by one offset, as `movables.forEach` does at index.js:288, 316, 344, 372, 402, 429, 456 and 483; its properties are `TranslateByStep`, `TranslateZero` and `TranslateTwice` |
| `Movement.LockKey` | index.js:264-348 | the body is the modelled computation: the letter of each sprint-lock branch (w up, d right, s down, a left) |
| `Movement.Locked` | index.js:264-264 | the body is the modelled computation: the sprint-lock guard "letter pressed and last key is that letter", as at index.js:264, 292, 320 and 348; its property is `SprintLock` |
| `Movement.Fired` | index.js:378-378 | the body is the modelled computation: a general branch's guard "letter or arrow pressed", as at index.js:378, 405, 432 and 459 |
| `Movement.GeneralDirs` | index.js:378-459 | the body is the modelled computation: the fired general directions in source order up, right, down, left; used by `TrySeqFired` and `GeneralFrame` |
| `Movement.Start` | index.js:261-262 | the body is the modelled computation: `moving` set and the player's moving flag cleared before any branch |
| `Animation.InitialFrames` | index.js:118-118 | the body is the modelled computation: frame 0, no ticks counted and rate 4, as the constructor sets them; its contract states the descriptor is valid (frame below max, rate at least 1) for any max ≥ 1 |
| `Input.KeyName` | index.js:200-210 | the body is the modelled computation: the names of the eight entries of the key table; its property is `KeyNamedIff` |
| `Movement.Resolve` | index.js:261-484 | the body is the modelled computation: the four sprint locks in the order w, d, s, a, then the general branches; its properties are `SprintLock`, `GeneralFrame` and `IdleFrame`, and the imperative form is `Game.Move` |
| `Geometry.CollisionIsPointOverlap` | index.js:222-236 | for rectangles of non-negative size whose foot box is not inverted (height ≥ 0.15·y, which holds for the player at y = 254 with a 68-high sheet), the test holds iff rectangle1's foot box (top edge lowered by 15% of its y) and rectangle2 share a point with edges included, so touching rectangles collide |
| `Geometry.HorizontalProbeIsPlayerShift` | index.js:223-226 | probing with a boundary shifted by dx along x gives the same answer as shifting the player by -dx |
| `Geometry.VerticalProbeIsNotPlayerShift` | index.js:229-231 | a concrete case where the two differ: a 10×20 player at y = 100 does not hit a 10×10 boundary at y = 0 shifted down by 104, but the player shifted up by 104 does hit the unshifted boundary |
| `Grid.ChunkRows` | index.js:13-18 | the row loop returns `Chunks(tiles)`; concatenating its rows gives the tile array back; every row but the last has 70 tiles and the last has between 1 and 70 |
| `Grid.ChunksFlatten` | index.js:16-18 | concatenating the rows gives back the original tile array |
| `Grid.ChunksShape` | index.js:16-18 | there are ceil(n/70) rows; all have 70 tiles except the last, which has 1 to 70 |
| `Grid.ChunksIndex` | index.js:16-18 | grid cell (r, c) with c < 70 is tile 70*r + c of the flat array |
| `Grid.BuildBoundaries` | index.js:76-88 | the nested loop over rows and cells returns `GridBoundaries(grid)` |
| `Grid.GridBoundariesSound` | index.js:76-88 | every generated boundary is at (c*48 - 735, r*48 - 600) for a cell (r, c) holding 1025, and is 48×48 |
| `Grid.GridBoundariesComplete` | index.js:76-88 | every cell holding 1025 has its boundary in the list |
| `Grid.GridBoundaryIff` | index.js:76-88 | the boundary of cell (r, c) is in the list iff the cell holds 1025 |
| `Grid.GridBoundariesAreTiles` | index.js:52-61 | every generated boundary has width = height = 48 |
| `Grid.GridBoundariesOrdered` | index.js:76-88 | boundaries appear in strict row-major order of their cells, so no cell appears twice |
| `Grid.TileBoundaryIff` | index.js:16-18 | stated on the flat array: cell (r, c) with c < 70 has a boundary iff tile 70*r + c is 1025 |
| `App.TestBoundaryOffGrid` | index.js:212-219 | the test boundary at (400, 400) is not on any grid cell |
| `App.InitialBoundariesIff` | index.js:212-219 | at start-up, cell boundaries exist exactly for solid tiles, the last boundary is the test boundary, and all are 48×48 |
| `Movement.StepAndRate` | index.js:250-259 | no flag gives step 3 and rate 4; crouch gives 1.5 and 10; sprint gives 7.2 and 2; both give 3.6 and rate 2, because sprint's rate wins |
| `Animation.AdvanceFrames` | index.js:156-163 | the frame descriptor stays valid (0 <= current < max); elapsed grows by 1 exactly when max > 1; current moves to (current+1) mod max exactly when the new elapsed is a multiple of rate, and otherwise stays; with max = 1, current is 0 |
| `Animation.StepsCount` | index.js:156-163 | after k moving renders with max > 1, elapsed has grown by k, and current has advanced once per multiple of rate crossed, modulo max |
| `Animation.FramesFromStart` | index.js:156-163 | from a new descriptor, the frame shown after k moving renders is (k / rate) mod max |
| `Animation.SingleFrameStays` | index.js:156-163 | a one-frame sprite's descriptor never changes, however many renders it gets |
| `Animation.Sprite.Render` | index.js:152-163 | a sprite that is not moving keeps its frames unchanged; a moving one gets `AdvanceFrames` of them |
| `Animation.Sprite.constructor` | index.js:107-126 | a new sprite has current 0, elapsed 0 and rate 4, is not moving, has width = image width / max and height = image height |
| `Input.KeyNamedIff` | index.js:200-210 | an event key finds tracked key k exactly when it equals k's name |
| `Input.Keyboard.constructor` | index.js:197-210 | lastKey is empty, neither modifier is set, and no key is pressed |
| `Input.Keyboard.KeyDown` | index.js:489-507 | `c` sets only crouching; Space (when the key is not `c`) sets only sprint; a tracked key sets its own pressed flag and becomes lastKey; any other key changes nothing |
| `Input.Keyboard.KeyUp` | index.js:509-526 | `c` clears only crouching; Space clears only sprint; a tracked key clears only its own flag; lastKey never changes; any other key changes nothing |
| `App.ProbeBoundaries` | index.js:268-286 | the probe loop with its early break reports a hit iff some boundary, shifted by the probe offset, overlaps the player |
| `Movement.ProbeIsOverlapAfterMove` | index.js:268-288 | a direction is blocked iff the player would overlap some boundary of the world after the move |
| `Movement.TranslateByStep` | index.js:221-221 | a committed move shifts the background, every boundary and the foreground by the direction's offset, and keeps every boundary's width and height and the number of boundaries; the offset is +step in y for up, -step in x for right, -step in y for down and +step in x for left |
| `App.Game.ShiftMovables` | index.js:288-288 | every movable's position moves by the offset; nothing else changes |
| `App.Game.Attempt` | index.js:264-289 | one direction branch: the player is marked moving and given the direction's sprite; the world shifts iff no probe hits and `moving` was still set; `moving` is cleared on a hit; the player's position is unchanged |
| `App.Game.Branch` | index.js:378-403 | a general branch acts as `Attempt` when its keys are held, and does nothing otherwise |
| `Movement.TrySeqFired` | index.js:377-484 | appending a general branch to those tried runs it only when its letter or arrow is held |
| `Movement.TrySeqStalled` | index.js:377-484 | once a branch has cleared `moving`, the later general branches of the frame never scroll the world |
| `Movement.TrySeqPrefix` | index.js:377-484 | the general branches commit a prefix of the fired directions (`CommittedPrefix`): the world moves by the sum of the first k offsets, each of the first k directions was free in the world as it stood when its branch ran, and either all went through (`moving` still set) or direction k was blocked in the world as it then stood (`moving` cleared) |
| `Movement.CommittedPrefixStep` | index.js:377-484 | one more general branch turns a committed prefix of the earlier branches into a committed prefix of all of them |
| `Movement.FreePrefixExtend` | index.js:377-484 | directions that were free before a general branch was appended stay free, with the same worlds |
| `Movement.CommittedPrefixAll` | index.js:377-484 | when every earlier general branch went through and the last one is free too, all of them are committed and the world moves by the sum of all offsets |
| `App.Game.GeneralMoves` | index.js:377-484 | the four general branches, tested for up, right, down and left in that order, give `TrySeq` over the fired directions |
| `Movement.SprintLock` | index.js:264-375 | if direction d's letter is held and was the last key, only d is attempted; the world scrolls by d's offset iff no probe hits, and stays as it was otherwise |
| `Movement.GeneralFrame` | index.js:377-484 | without a sprint lock, the frame runs exactly the general branches that fire, and the player is moving iff at least one fired |
| `Movement.IdleFrame` | index.js:261-262 | with no key held, the resolver changes nothing except clearing the player's moving flag |
| `App.Game.Move` | index.js:261-375 | the resolver clears the player's moving flag, then gives exactly `Resolve`: the sprint-lock branches in the order w, d, s, a, then the general branches |
| `App.Game.Frame` | index.js:237-262 | one `animate` call: the player's frames advance if it was moving, the new rate is stored, the world and the player's moving flag and sprite change as `Resolve` says with the selected step, and the player's position never changes |
| `App.Game.constructor` | index.js:167-221 | the initial boundaries are the grid's followed by the test boundary; both layers start at (-735, -600); the player is at (488, 254) with 4 frames and faces down; no key is pressed |

## Left out

- Drawing: canvas set-up, `fillRect`, `drawImage` and the order of drawing. They produce
  output only and change no state that is modelled.
- Image loading. Sizes are constructor parameters. The model assumes the images have
  loaded: before the first `onload` the source's width is undefined and every comparison
  with it fails, so no probe could hit. `setImage` swaps images asynchronously; the model
  records the chosen sheet at once as the sprite's `facing`.
- `requestAnimationFrame` scheduling and `addEventListener` wiring. One frame or one key
  event is one method call.
- The contents of `src/collisions.js`. The tile array is a parameter.
- IEEE-754 rounding. Reals are exact. In doubles, both sprint steps are inexact:
  3 × 2.4 is 7.199999999999999 and 1.5 × 2.4 rounds too. `0.15 * y` is inexact in
  doubles, and positions pick up rounding error over many frames. The model has none
  of these errors.
- Prototype lookups on the key table. In the source, `keys[key]` also finds inherited
  names such as `toString`. The model's table holds exactly the eight tracked keys.
- Object identity. Boundaries are values in one array; the source shares Boundary objects
  between `boundaries` and `movables`. The `movables` list is not a separate structure:
  shifting it is `ShiftMovables`, which moves the background, each boundary and the
  foreground.
- The background and foreground sprites also carry a `facing` field. It is never read
  for them, because only the player's sheet is ever swapped.
