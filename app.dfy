/** The game itself: start-up (grid, sprites, keyboard state) and the per-frame
    update that renders the sprites' bookkeeping, selects step and rate, and
    resolves movement against the boundaries. */
module App {
  import opened Geometry
  import opened Grid
  import opened Animation
  import opened Input
  import opened Movement

  const CanvasWidth: real := 1024.0
  const CanvasHeight: real := 576.0
  /** Size of the player's four-frame sprite sheet, used to centre the player. */
  const PlayerSpriteWidth: real := 192.0
  const PlayerSpriteHeight: real := 68.0
  /** Number of frames in each player sprite sheet. */
  const PlayerFrames: nat := 4

  /** Where the player is drawn, for good: the centre of the canvas. */
  const PlayerStart: Vec2 :=
    Vec2(CanvasWidth / 2.0 - PlayerSpriteWidth / 4.0 / 2.0, CanvasHeight / 2.0 - PlayerSpriteHeight / 2.0)

  /** The extra boundary placed at (400, 400) after the grid's. */
  const TestBoundary: Rect := Rect(Vec2(400.0, 400.0), TileSize, TileSize)

  /** The boundaries the game starts with: the grid's, in row-major order, then the test boundary. */
  function InitialBoundaries(tiles: seq<int>): seq<Rect>
  {
    GridBoundaries(Chunks(tiles)) + [TestBoundary]
  }

  /** The test boundary is not on any cell of the grid. */
  lemma TestBoundaryOffGrid(r: nat, c: nat)
    ensures BoundaryAt(r, c) != TestBoundary
  {
    if c <= 23 {
      assert c as real * TileSize <= 1104.0;
    } else {
      assert c as real * TileSize >= 1152.0;
    }
  }

  /** At start-up the last boundary is the test boundary, every boundary is a
      48 by 48 tile, and the grid cell (r, c) of the 70-wide map has a boundary
      exactly when tile 70 * r + c of the flat array is solid. */
  lemma InitialBoundariesIff(tiles: seq<int>, r: nat, c: nat)
    requires c < MapTileWidth && MapTileWidth * r + c < |tiles|
    ensures BoundaryAt(r, c) in InitialBoundaries(tiles) <==> tiles[MapTileWidth * r + c] == SolidCode
    ensures InitialBoundaries(tiles)[|InitialBoundaries(tiles)| - 1] == TestBoundary
    ensures forall b :: b in InitialBoundaries(tiles) ==> b.width == TileSize && b.height == TileSize
  {
    TileBoundaryIff(tiles, r, c);
    TestBoundaryOffGrid(r, c);
    GridBoundariesAreTiles(Chunks(tiles));
  }

  /** The probe loop of one direction: every boundary, shifted by `delta`, is
      tested against the player, stopping at the first hit. */
  method ProbeBoundaries(bs: array<Rect>, player: Rect, delta: Vec2) returns (hit: bool)
    ensures hit == Blocked(player, bs[..], delta)
  {
    hit := false;
    var i := 0;
    while i < bs.Length
      invariant 0 <= i <= bs.Length
      invariant forall j :: 0 <= j < i ==> !RectangularCollision(player, bs[j].Shifted(delta))
    {
      if RectangularCollision(player, bs[i].Shifted(delta)) {
        hit := true;
        assert bs[..][i] == bs[i];
        break;
      }
      i := i + 1;
    }
  }

  class Game {
    const boundaries: array<Rect>
    const background: Sprite
    const foreground: Sprite
    const player: Sprite
    const keyboard: Keyboard

    ghost predicate Valid()
      reads this, boundaries, background, foreground, player, keyboard
    {
      background != foreground && background != player && foreground != player &&
      background.Valid() && foreground.Valid() && player.Valid() && keyboard.Valid() &&
      !background.moving && !foreground.moving &&
      forall i :: 0 <= i < boundaries.Length ==> boundaries[i].width == TileSize && boundaries[i].height == TileSize
    }

    /** The positions of the movables. */
    ghost function Scene(): World
      reads this, boundaries, background, foreground
    {
      World(background.position, boundaries[..], foreground.position)
    }

    /** Start-up from the tile array and the loaded images' sizes (width as x,
        height as y for the two layers): rows of 70,
        one boundary per solid cell plus the test boundary, the two layers at the
        map offset, the player centred and facing down, no key pressed. */
    constructor (tiles: seq<int>, backgroundSize: Vec2, foregroundSize: Vec2, playerImageWidth: real, playerImageHeight: real)
      ensures Valid()
      ensures fresh(boundaries) && fresh(background) && fresh(foreground) && fresh(player) && fresh(keyboard)
      ensures boundaries[..] == InitialBoundaries(tiles)
      ensures background.position == Offset && foreground.position == Offset
      ensures background.frames == InitialFrames(1) && foreground.frames == InitialFrames(1)
      ensures player.position == PlayerStart && player.frames == InitialFrames(PlayerFrames)
      ensures player.width == playerImageWidth / PlayerFrames as real && player.height == playerImageHeight
      ensures !player.moving && player.facing == Down
      ensures keyboard.lastKey == "" && !keyboard.sprint && !keyboard.crouching
      ensures forall k: Key :: !Held(keyboard.pressed, k)
    {
      var rows := ChunkRows(tiles);
      var bs := BuildBoundaries(rows);
      bs := bs + [TestBoundary];
      GridBoundariesAreTiles(rows);
      boundaries := new Rect[|bs|](i requires 0 <= i < |bs| => bs[i]);
      background := new Sprite(Offset, backgroundSize.x, backgroundSize.y, 1, Down);
      foreground := new Sprite(Offset, foregroundSize.x, foregroundSize.y, 1, Down);
      player := new Sprite(PlayerStart, playerImageWidth, playerImageHeight, PlayerFrames, Down);
      keyboard := new Keyboard();
      new;
      assert forall i :: 0 <= i < boundaries.Length ==> boundaries[i] in bs;
    }

    /** `movables.forEach(m => m.position += delta)`: the background, every
        boundary and the foreground move by delta. */
    method ShiftMovables(delta: Vec2)
      requires Valid()
      modifies boundaries, background`position, foreground`position
      ensures Valid()
      ensures Scene() == Translate(old(Scene()), delta)
    {
      background.position := background.position.Plus(delta);
      var i := 0;
      while i < boundaries.Length
        invariant 0 <= i <= boundaries.Length
        invariant forall j :: 0 <= j < i ==> boundaries[j] == old(boundaries[j]).Shifted(delta)
        invariant forall j :: i <= j < boundaries.Length ==> boundaries[j] == old(boundaries[j])
        invariant background.position == old(background.position).Plus(delta)
        invariant foreground.position == old(foreground.position)
      {
        boundaries[i] := boundaries[i].Shifted(delta);
        i := i + 1;
      }
      foreground.position := foreground.position.Plus(delta);
      assert boundaries[..] == ShiftAll(old(boundaries[..]), delta);
    }

    /** One direction branch of the frame: the player is marked moving and
        facing d, the boundaries are probed, and the movables shift unless a
        probe hit or `moving` was already cleared. */
    method Attempt(moving: bool, d: Dir, step: real) returns (stillMoving: bool)
      requires Valid()
      modifies boundaries, background`position, foreground`position, player`moving, player`facing
      ensures Valid()
      ensures Motion(Scene(), stillMoving, player.moving, player.facing)
           == Try(Motion(old(Scene()), moving, old(player.moving), old(player.facing)), player.Bounds(), d, step)
    {
      player.moving := true;
      player.facing := d;
      var hit := ProbeBoundaries(boundaries, player.Bounds(), Delta(d, step));
      stillMoving := moving;
      if hit {
        stillMoving := false;
      }
      if stillMoving {
        ShiftMovables(Delta(d, step));
      }
    }

    /** One call of `animate`: render (which advances the player's frame counter
        if it was moving), select step and rate, then resolve movement. The
        player's position never changes; the world moves as `Resolve` says. */
    method Frame()
      requires Valid()
      modifies boundaries, background`frames, background`position, foreground`frames, foreground`position
      modifies player`frames, player`moving, player`facing
      ensures Valid()
      ensures var pace := StepAndRate(keyboard.crouching, keyboard.sprint);
        var m := Resolve(keyboard.pressed, keyboard.lastKey, old(player.Bounds()), pace.step, old(Scene()), old(player.facing));
        Scene() == m.world && player.moving == m.playerMoving && player.facing == m.facing &&
        player.frames == (if old(player.moving) then AdvanceFrames(old(player.frames)) else old(player.frames)).(rate := pace.rate)
      ensures player.position == old(player.position)
      ensures background.frames == old(background.frames) && foreground.frames == old(foreground.frames)
    {
      background.Render();
      player.Render();
      foreground.Render();

      var pace := StepAndRate(keyboard.crouching, keyboard.sprint);
      player.frames := player.frames.(rate := pace.rate);
      Move(pace.step);
    }

    /** The movement resolver of a frame: clear the player's moving flag, then
        the four sprint-lock branches, each of which ends the frame, then the
        general branches. */
    method Move(step: real)
      requires Valid()
      modifies boundaries, background`position, foreground`position, player`moving, player`facing
      ensures Valid()
      ensures var m := Resolve(keyboard.pressed, keyboard.lastKey, player.Bounds(), step, old(Scene()), old(player.facing));
        Scene() == m.world && player.moving == m.playerMoving && player.facing == m.facing
    {
      var moving := true;
      player.moving := false;

      if Held(keyboard.pressed, W) && keyboard.lastKey == "w" {
        moving := Attempt(moving, Up, step);
        return;
      }
      if Held(keyboard.pressed, D) && keyboard.lastKey == "d" {
        moving := Attempt(moving, Right, step);
        return;
      }
      if Held(keyboard.pressed, S) && keyboard.lastKey == "s" {
        moving := Attempt(moving, Down, step);
        return;
      }
      if Held(keyboard.pressed, A) && keyboard.lastKey == "a" {
        moving := Attempt(moving, Left, step);
        return;
      }
      moving := GeneralMoves(moving, step);
    }

    /** The four general branches, each firing when its letter or its arrow is
        held; they share the frame's `moving` flag. */
    method GeneralMoves(moving: bool, step: real) returns (stillMoving: bool)
      requires Valid()
      modifies boundaries, background`position, foreground`position, player`moving, player`facing
      ensures Valid()
      ensures Motion(Scene(), stillMoving, player.moving, player.facing)
           == TrySeq(Motion(old(Scene()), moving, old(player.moving), old(player.facing)), player.Bounds(), GeneralDirs(keyboard.pressed), step)
    {
      ghost var start := Motion(Scene(), moving, player.moving, player.facing);
      ghost var bounds := player.Bounds();
      var pressed := keyboard.pressed;
      stillMoving := moving;
      stillMoving := Branch(Held(pressed, W) || Held(pressed, ArrowUp), stillMoving, Up, step);
      TrySeqFired(start, bounds, [], pressed, W, ArrowUp, Up, step);
      ghost var done := Fired(pressed, W, ArrowUp, Up);
      stillMoving := Branch(Held(pressed, D) || Held(pressed, ArrowRight), stillMoving, Right, step);
      TrySeqFired(start, bounds, done, pressed, D, ArrowRight, Right, step);
      done := done + Fired(pressed, D, ArrowRight, Right);
      stillMoving := Branch(Held(pressed, S) || Held(pressed, ArrowDown), stillMoving, Down, step);
      TrySeqFired(start, bounds, done, pressed, S, ArrowDown, Down, step);
      done := done + Fired(pressed, S, ArrowDown, Down);
      stillMoving := Branch(Held(pressed, A) || Held(pressed, ArrowLeft), stillMoving, Left, step);
      TrySeqFired(start, bounds, done, pressed, A, ArrowLeft, Left, step);
    }

    /** One general branch: when it fires, it is the branch of `Attempt`. */
    method Branch(fire: bool, moving: bool, d: Dir, step: real) returns (stillMoving: bool)
      requires Valid()
      modifies boundaries, background`position, foreground`position, player`moving, player`facing
      ensures Valid()
      ensures var before := Motion(old(Scene()), moving, old(player.moving), old(player.facing));
        Motion(Scene(), stillMoving, player.moving, player.facing)
          == if fire then Try(before, player.Bounds(), d, step) else before
    {
      stillMoving := moving;
      if fire {
        stillMoving := Attempt(moving, d, step);
      }
    }
  }
}
