/** What one animation frame does to the world: the step and animation rate the
    modifiers select, and the movement resolver that probes the boundaries and
    scrolls every movable instead of the player. */
module Movement {
  import opened Geometry
  import opened Animation
  import opened Input

  /** Distance moved per frame and renders per animation frame. */
  datatype Pace = Pace(step: real, rate: nat)

  /** Step and rate as the frame computes them: base step 3 and rate 4; crouching
      halves the step and sets rate 10; sprinting then multiplies the step by 2.4
      and sets rate 2, overriding crouch's rate. */
  function StepAndRate(crouching: bool, sprint: bool): (p: Pace)
    ensures !crouching && !sprint ==> p == Pace(3.0, 4)
    ensures crouching && !sprint ==> p == Pace(1.5, 10)
    ensures !crouching && sprint ==> p == Pace(7.2, 2)
    ensures crouching && sprint ==> p == Pace(3.6, 2)
    ensures 0.0 < p.step && 1 <= p.rate
  {
    var base := Pace(3.0, 4);
    var crouched := if crouching then Pace(base.step / 2.0, 10) else base;
    if sprint then Pace(crouched.step * 2.4, 2) else crouched
  }

  /** How far every movable is shifted when the player goes in direction d.
      The same offset is used to probe the boundaries before the move. */
  function Delta(d: Dir, step: real): Vec2
  {
    match d
    case Up => Vec2(0.0, step)
    case Right => Vec2(-step, 0.0)
    case Down => Vec2(0.0, -step)
    case Left => Vec2(step, 0.0)
  }

  /** Positions of everything that scrolls: the background, the boundaries (in
      their creation order) and the foreground. */
  datatype World = World(background: Vec2, boundaries: seq<Rect>, foreground: Vec2)

  function ShiftAll(bs: seq<Rect>, d: Vec2): seq<Rect>
  {
    seq(|bs|, i requires 0 <= i < |bs| => bs[i].Shifted(d))
  }

  /** Every movable shifted by d. */
  function Translate(w: World, d: Vec2): World
  {
    World(w.background.Plus(d), ShiftAll(w.boundaries, d), w.foreground.Plus(d))
  }

  /** The probe of one direction: some boundary, shifted by the probe offset,
      overlaps the player. */
  predicate Blocked(player: Rect, bs: seq<Rect>, delta: Vec2)
  {
    exists i :: 0 <= i < |bs| && RectangularCollision(player, bs[i].Shifted(delta))
  }

  /** The state the resolver threads through a frame: the world, the frame's
      `moving` flag, and the player's `moving` flag and sprite sheet. */
  datatype Motion = Motion(world: World, moving: bool, playerMoving: bool, facing: Dir)

  /** The state at the start of the resolver. */
  function Start(w: World, facing: Dir): Motion
  {
    Motion(w, true, false, facing)
  }

  /** One direction branch: mark the player moving and facing d, probe the
      boundaries, and scroll the world only if no probe hit and no earlier
      branch of the frame cleared `moving`. */
  function Try(m: Motion, player: Rect, d: Dir, step: real): Motion
  {
    var moving := m.moving && !Blocked(player, m.world.boundaries, Delta(d, step));
    Motion(if moving then Translate(m.world, Delta(d, step)) else m.world, moving, true, d)
  }

  /** The general branches of a frame, tried one after the other. */
  function TrySeq(m: Motion, player: Rect, ds: seq<Dir>, step: real): Motion
  {
    if ds == [] then m
    else Try(TrySeq(m, player, ds[..|ds| - 1], step), player, ds[|ds| - 1], step)
  }

  /** The directions whose general branch fires, in the order the frame tests them:
      up (w or ArrowUp), right (d or ArrowRight), down (s or ArrowDown), left (a or ArrowLeft). */
  function GeneralDirs(pressed: map<Key, bool>): seq<Dir>
  {
    Fired(pressed, W, ArrowUp, Up) + Fired(pressed, D, ArrowRight, Right)
    + Fired(pressed, S, ArrowDown, Down) + Fired(pressed, A, ArrowLeft, Left)
  }

  /** Direction d, when its letter or its arrow is held. */
  function Fired(pressed: map<Key, bool>, letter: Key, arrow: Key, d: Dir): seq<Dir>
  {
    if Held(pressed, letter) || Held(pressed, arrow) then [d] else []
  }

  /** Appending a general branch to those already tried: it runs only if it fires. */
  lemma TrySeqFired(m: Motion, player: Rect, ds: seq<Dir>, pressed: map<Key, bool>, letter: Key, arrow: Key, d: Dir, step: real)
    ensures TrySeq(m, player, ds + Fired(pressed, letter, arrow, d), step)
         == if Held(pressed, letter) || Held(pressed, arrow) then Try(TrySeq(m, player, ds, step), player, d, step)
            else TrySeq(m, player, ds, step)
  {
    if Held(pressed, letter) || Held(pressed, arrow) {
      assert (ds + [d])[..|ds|] == ds;
    } else {
      assert ds + [] == ds;
    }
  }

  /** The letter key whose sprint-lock branch handles direction d. */
  function LockKey(d: Dir): Key
  {
    match d
    case Up => W
    case Right => D
    case Down => S
    case Left => A
  }

  /** The sprint-lock test of direction d: its letter is held and was the last key pressed. */
  predicate Locked(pressed: map<Key, bool>, lastKey: string, d: Dir)
  {
    Held(pressed, LockKey(d)) && lastKey == KeyName(LockKey(d))
  }

  /** The movement resolver of one frame: the four sprint-lock branches in the
      order w, d, s, a, each ending the frame, then the four general branches. */
  function Resolve(pressed: map<Key, bool>, lastKey: string, player: Rect, step: real, w: World, facing: Dir): Motion
  {
    var start := Start(w, facing);
    if Locked(pressed, lastKey, Up) then Try(start, player, Up, step)
    else if Locked(pressed, lastKey, Right) then Try(start, player, Right, step)
    else if Locked(pressed, lastKey, Down) then Try(start, player, Down, step)
    else if Locked(pressed, lastKey, Left) then Try(start, player, Left, step)
    else TrySeq(start, player, GeneralDirs(pressed), step)
  }

  /** Sum of the offsets of a list of directions. */
  function SumDelta(ds: seq<Dir>, step: real): Vec2
  {
    if ds == [] then Vec2(0.0, 0.0) else SumDelta(ds[..|ds| - 1], step).Plus(Delta(ds[|ds| - 1], step))
  }

  /** The probe of a direction is exactly the question whether the player would
      overlap some boundary once the world had moved. */
  lemma ProbeIsOverlapAfterMove(player: Rect, w: World, d: Dir, step: real)
    ensures Blocked(player, w.boundaries, Delta(d, step)) <==>
      exists i :: 0 <= i < |w.boundaries| && RectangularCollision(player, Translate(w, Delta(d, step)).boundaries[i])
  {
    var moved := Translate(w, Delta(d, step)).boundaries;
    if Blocked(player, w.boundaries, Delta(d, step)) {
      var i :| 0 <= i < |w.boundaries| && RectangularCollision(player, w.boundaries[i].Shifted(Delta(d, step)));
      assert moved[i] == w.boundaries[i].Shifted(Delta(d, step));
    }
    if exists i :: 0 <= i < |w.boundaries| && RectangularCollision(player, moved[i]) {
      var i :| 0 <= i < |w.boundaries| && RectangularCollision(player, moved[i]);
      assert moved[i] == w.boundaries[i].Shifted(Delta(d, step));
    }
  }

  /** A committed move shifts every movable by exactly `step` along the axis of
      its direction and leaves the number and size of the boundaries unchanged. */
  lemma TranslateByStep(w: World, d: Dir, step: real)
    ensures var w' := Translate(w, Delta(d, step));
      |w'.boundaries| == |w.boundaries| &&
      (forall i :: 0 <= i < |w.boundaries| ==>
        w'.boundaries[i].width == w.boundaries[i].width &&
        w'.boundaries[i].height == w.boundaries[i].height &&
        w'.boundaries[i].position == w.boundaries[i].position.Plus(Delta(d, step))) &&
      w'.background == w.background.Plus(Delta(d, step)) &&
      w'.foreground == w.foreground.Plus(Delta(d, step))
    ensures d == Up ==> Delta(d, step) == Vec2(0.0, step)
    ensures d == Right ==> Delta(d, step) == Vec2(-step, 0.0)
    ensures d == Down ==> Delta(d, step) == Vec2(0.0, -step)
    ensures d == Left ==> Delta(d, step) == Vec2(step, 0.0)
  {
  }

  lemma TranslateZero(w: World)
    ensures Translate(w, Vec2(0.0, 0.0)) == w
  {
    assert ShiftAll(w.boundaries, Vec2(0.0, 0.0)) == w.boundaries;
  }

  lemma TranslateTwice(w: World, a: Vec2, b: Vec2)
    ensures Translate(Translate(w, a), b) == Translate(w, a.Plus(b))
  {
    assert ShiftAll(ShiftAll(w.boundaries, a), b) == ShiftAll(w.boundaries, a.Plus(b));
  }

  /** Once a branch has cleared `moving`, the remaining general branches of the
      frame still mark the player moving but never scroll the world. */
  lemma {:induction false} TrySeqStalled(m: Motion, player: Rect, ds: seq<Dir>, step: real)
    requires !m.moving
    ensures TrySeq(m, player, ds, step).world == m.world
    ensures !TrySeq(m, player, ds, step).moving
  {
    if ds != [] {
      TrySeqStalled(m, player, ds[..|ds| - 1], step);
    }
  }

  /** Each of the first k directions of `ds` was free in the world as it stood
      when its branch ran, the world having moved by the offsets before it. */
  ghost predicate FreePrefix(m: Motion, player: Rect, ds: seq<Dir>, step: real, k: nat)
    requires k <= |ds|
  {
    forall j :: 0 <= j < k ==> !Blocked(player, Translate(m.world, SumDelta(ds[..j], step)).boundaries, Delta(ds[j], step))
  }

  /** After the general branches `ds`, starting from a set `moving` flag, the
      world has moved by the sum of the first k offsets, each of which was free in
      the world as it then stood; either all of them went through, or direction k
      was blocked in the world as it then stood and `moving` is cleared. */
  ghost predicate CommittedPrefix(m: Motion, player: Rect, ds: seq<Dir>, step: real, k: nat)
  {
    k <= |ds| &&
    TrySeq(m, player, ds, step).world == Translate(m.world, SumDelta(ds[..k], step)) &&
    (k == |ds| <==> TrySeq(m, player, ds, step).moving) &&
    FreePrefix(m, player, ds, step, k) &&
    (k < |ds| ==> Blocked(player, Translate(m.world, SumDelta(ds[..k], step)).boundaries, Delta(ds[k], step)))
  }

  /** The general branches of a frame commit a prefix of the fired directions
      and stop at the first one that is blocked. */
  lemma {:induction false} TrySeqPrefix(m: Motion, player: Rect, ds: seq<Dir>, step: real)
    requires m.moving
    ensures exists k: nat :: CommittedPrefix(m, player, ds, step, k)
  {
    if ds == [] {
      assert ds[..0] == [];
      TranslateZero(m.world);
      assert CommittedPrefix(m, player, ds, step, 0);
    } else {
      var n := |ds| - 1;
      var init := ds[..n];
      TrySeqPrefix(m, player, init, step);
      var k: nat :| CommittedPrefix(m, player, init, step, k);
      CommittedPrefixStep(m, player, ds, step, k);
    }
  }

  /** Free directions of a prefix stay free when a branch is appended. */
  lemma FreePrefixExtend(m: Motion, player: Rect, ds: seq<Dir>, step: real, k: nat)
    requires ds != [] && k <= |ds| - 1 && FreePrefix(m, player, ds[..|ds| - 1], step, k)
    ensures FreePrefix(m, player, ds, step, k)
  {
    var init := ds[..|ds| - 1];
    forall j | 0 <= j < k
      ensures !Blocked(player, Translate(m.world, SumDelta(ds[..j], step)).boundaries, Delta(ds[j], step))
    {
      assert ds[..j] == init[..j] && ds[j] == init[j];
    }
  }

  /** One more general branch extends a committed prefix. */
  lemma CommittedPrefixStep(m: Motion, player: Rect, ds: seq<Dir>, step: real, k: nat)
    requires m.moving && ds != [] && CommittedPrefix(m, player, ds[..|ds| - 1], step, k)
    ensures exists k': nat :: CommittedPrefix(m, player, ds, step, k')
  {
    var n := |ds| - 1;
    var init := ds[..n];
    var r := TrySeq(m, player, init, step);
    assert init[..k] == ds[..k];
    FreePrefixExtend(m, player, ds, step, k);
    if k < |init| {
      assert init[k] == ds[k];
      assert CommittedPrefix(m, player, ds, step, k);
    } else if Blocked(player, r.world.boundaries, Delta(ds[n], step)) {
      assert CommittedPrefix(m, player, ds, step, k);
    } else {
      CommittedPrefixAll(m, player, ds, step);
    }
  }

  /** When every earlier branch went through and the last one is free too, all
      of `ds` is committed. */
  lemma CommittedPrefixAll(m: Motion, player: Rect, ds: seq<Dir>, step: real)
    requires ds != [] && CommittedPrefix(m, player, ds[..|ds| - 1], step, |ds| - 1)
    requires FreePrefix(m, player, ds, step, |ds| - 1)
    requires !Blocked(player, TrySeq(m, player, ds[..|ds| - 1], step).world.boundaries, Delta(ds[|ds| - 1], step))
    ensures CommittedPrefix(m, player, ds, step, |ds|)
  {
    var n := |ds| - 1;
    var init := ds[..n];
    assert ds[..|ds|][..n] == init;
    assert init[..|init|] == init;
    TranslateTwice(m.world, SumDelta(init, step), Delta(ds[n], step));
    assert ds[..|ds|] == ds;
    assert FreePrefix(m, player, ds, step, |ds|) by {
      forall j | 0 <= j < |ds|
        ensures !Blocked(player, Translate(m.world, SumDelta(ds[..j], step)).boundaries, Delta(ds[j], step))
      {
        if j == n {
          assert ds[..j] == init;
        }
      }
    }
  }

  /** Sprint lock: when direction d's letter is held and was the last key, only
      d is attempted; the world scrolls by d's offset exactly when no probe hits. */
  lemma SprintLock(pressed: map<Key, bool>, lastKey: string, player: Rect, step: real, w: World, facing: Dir, d: Dir)
    requires Locked(pressed, lastKey, d)
    ensures var r := Resolve(pressed, lastKey, player, step, w, facing);
      r.playerMoving && r.facing == d &&
      (r.moving <==> !Blocked(player, w.boundaries, Delta(d, step))) &&
      r.world == if r.moving then Translate(w, Delta(d, step)) else w
  {
    assert forall e: Dir :: Locked(pressed, lastKey, e) ==> e == d;
  }

  /** Without a sprint lock, the frame runs the general branches that fire, in order. */
  lemma GeneralFrame(pressed: map<Key, bool>, lastKey: string, player: Rect, step: real, w: World, facing: Dir)
    requires forall d: Dir :: !Locked(pressed, lastKey, d)
    ensures Resolve(pressed, lastKey, player, step, w, facing) == TrySeq(Start(w, facing), player, GeneralDirs(pressed), step)
    ensures var r := Resolve(pressed, lastKey, player, step, w, facing);
      r.playerMoving <==> GeneralDirs(pressed) != []
  {
    var ds := GeneralDirs(pressed);
    if ds != [] {
      assert TrySeq(Start(w, facing), player, ds, step).playerMoving;
    }
  }

  /** A frame with no direction key held changes nothing but the player's
      moving flag, which it clears. */
  lemma IdleFrame(pressed: map<Key, bool>, lastKey: string, player: Rect, step: real, w: World, facing: Dir)
    requires forall k: Key :: !Held(pressed, k)
    ensures Resolve(pressed, lastKey, player, step, w, facing) == Motion(w, true, false, facing)
  {
    assert GeneralDirs(pressed) == [];
  }
}
