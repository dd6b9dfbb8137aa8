/** Sprites and the frame counter that `Sprite.render` advances. */
module Animation {
  import opened Geometry

  /** Which of the four player sprite sheets is shown. */
  datatype Dir = Up | Right | Down | Left

  /** The animation descriptor of a sprite: number of frames in the sheet, the
      frame shown, the renders counted so far and the renders per frame. */
  datatype Frames = Frames(max: nat, current: nat, elapsed: nat, rate: nat) {
    ghost predicate Valid() { 1 <= max && current < max && 1 <= rate }
  }

  /** The descriptor a new sprite starts with. */
  function InitialFrames(max: nat): (f: Frames)
    requires 1 <= max
    ensures f.Valid()
  {
    Frames(max, 0, 0, 4)
  }

  /** The state change at the end of a render of a moving sprite. */
  function AdvanceFrames(f: Frames): (g: Frames)
    requires f.Valid()
    ensures g.Valid() && g.max == f.max && g.rate == f.rate
    ensures g.elapsed == if f.max > 1 then f.elapsed + 1 else f.elapsed
    ensures g.current == if g.elapsed % g.rate == 0 then (f.current + 1) % f.max else f.current
    ensures f.max == 1 ==> g.current == 0
  {
    var elapsed := if f.max > 1 then f.elapsed + 1 else f.elapsed;
    var current :=
      if elapsed % f.rate == 0 then (if f.current < f.max - 1 then f.current + 1 else 0)
      else f.current;
    Frames(f.max, current, elapsed, f.rate)
  }

  /** k consecutive renders of a moving sprite at a fixed rate. */
  function Steps(f: Frames, k: nat): (g: Frames)
    requires f.Valid()
    ensures g.Valid() && g.max == f.max && g.rate == f.rate
  {
    if k == 0 then f else AdvanceFrames(Steps(f, k - 1))
  }

  /** Arithmetic helpers for Euclidean division by a positive divisor. */
  lemma MulNonneg(a: int, b: int)
    requires 0 <= a && 0 <= b
    ensures 0 <= a * b
  {
  }

  lemma DivModUnique(a: int, r: int, q: int, s: int)
    requires 0 < r && a == q * r + s && 0 <= s < r
    ensures a / r == q && a % r == s
  {
    var q0, s0 := a / r, a % r;
    assert a == q0 * r + s0;
    if q0 < q {
      var d := q - q0;
      MulNonneg(d - 1, r);
      assert false;
    } else if q < q0 {
      var d := q0 - q;
      MulNonneg(d - 1, r);
      assert false;
    }
  }

  lemma DivStep(e: nat, r: nat)
    requires 1 <= r
    ensures (e + 1) / r == e / r + (if (e + 1) % r == 0 then 1 else 0)
  {
    var q, s := e / r, e % r;
    assert e == q * r + s && 0 <= s < r;
    if s + 1 < r {
      DivModUnique(e + 1, r, q, s + 1);
    } else {
      assert e + 1 == (q + 1) * r;
      DivModUnique(e + 1, r, q + 1, 0);
    }
  }

  lemma ModSucc(a: int, m: nat)
    requires 1 <= m
    ensures (a % m + 1) % m == (a + 1) % m
  {
    var q, s := a / m, a % m;
    assert a == q * m + s;
    if s + 1 < m {
      DivModUnique(a + 1, m, q, s + 1);
      DivModUnique(s + 1, m, 0, s + 1);
    } else {
      assert a + 1 == (q + 1) * m;
      DivModUnique(a + 1, m, q + 1, 0);
      DivModUnique(s + 1, m, 1, 0);
    }
  }

  /** One render of a moving multi-frame sprite, with the frame shown written as a residue. */
  lemma AdvanceCount(g: Frames, a: int)
    requires g.Valid() && g.max > 1 && g.current == a % g.max
    ensures AdvanceFrames(g).elapsed == g.elapsed + 1
    ensures AdvanceFrames(g).current == (a + (g.elapsed + 1) / g.rate - g.elapsed / g.rate) % g.max
  {
    DivStep(g.elapsed, g.rate);
    ModSucc(a, g.max);
  }

  /** With more than one frame, render k of a moving sprite has counted k more
      ticks and moved on one frame per `rate` ticks, wrapping around after the last. */
  lemma {:induction false} StepsCount(f: Frames, k: nat)
    requires f.Valid() && f.max > 1
    ensures Steps(f, k).elapsed == f.elapsed + k
    ensures Steps(f, k).current == (f.current + (f.elapsed + k) / f.rate - f.elapsed / f.rate) % f.max
  {
    if k == 0 {
      DivModUnique(f.current, f.max, 0, f.current);
      assert Steps(f, k).current == (f.current + f.elapsed / f.rate - f.elapsed / f.rate) % f.max;
    } else {
      StepsCount(f, k - 1);
      var g := Steps(f, k - 1);
      var q0, q, q' := f.elapsed / f.rate, g.elapsed / f.rate, (g.elapsed + 1) / f.rate;
      assert Steps(f, k).current == (f.current + q' - q0) % f.max by {
        AdvanceCount(g, f.current + q - q0);
      }
      assert g.elapsed + 1 == f.elapsed + k;
      var rhs := f.current + (f.elapsed + k) / f.rate - f.elapsed / f.rate;
      assert f.current + q' - q0 == rhs;
    }
  }

  /** From a new descriptor, the frame shown after k moving renders is (k / rate) mod max. */
  lemma FramesFromStart(max: nat, rate: nat, k: nat)
    requires 1 < max && 1 <= rate
    ensures Steps(Frames(max, 0, 0, rate), k).current == (k / rate) % max
  {
    StepsCount(Frames(max, 0, 0, rate), k);
  }

  /** A single-frame sprite never leaves frame 0 and never counts ticks. */
  lemma {:induction false} SingleFrameStays(f: Frames, k: nat)
    requires f.Valid() && f.max == 1
    ensures Steps(f, k) == f
  {
    if k > 0 {
      SingleFrameStays(f, k - 1);
    }
  }

  /** A drawable, movable picture: the background, the foreground and the player. */
  class Sprite {
    var position: Vec2
    const width: real
    const height: real
    var frames: Frames
    var moving: bool
    var facing: Dir

    ghost predicate Valid()
      reads this
    {
      frames.Valid()
    }

    /** The rectangle the sprite covers, as the overlap test sees it. */
    function Bounds(): Rect
      reads this
    {
      Rect(position, width, height)
    }

    /** A sprite at `position` whose sheet has `max` frames side by side; its
        width is one frame of the image and its height the image's. */
    constructor (position: Vec2, imageWidth: real, imageHeight: real, max: nat, facing: Dir)
      requires 1 <= max
      ensures Valid()
      ensures this.position == position && frames == InitialFrames(max) && !moving
      ensures width == imageWidth / max as real && height == imageHeight
      ensures this.facing == facing
    {
      this.position := position;
      this.width := imageWidth / max as real;
      this.height := imageHeight;
      this.frames := InitialFrames(max);
      this.moving := false;
      this.facing := facing;
    }

    /** The bookkeeping of a render: a moving sprite advances its frame counter. */
    method Render()
      requires Valid()
      modifies this`frames
      ensures Valid()
      ensures frames == if moving then AdvanceFrames(old(frames)) else old(frames)
    {
      if !moving {
        return;
      }
      if frames.max > 1 {
        frames := frames.(elapsed := frames.elapsed + 1);
      }
      if frames.elapsed % frames.rate == 0 {
        if frames.current < frames.max - 1 {
          frames := frames.(current := frames.current + 1);
        } else {
          frames := frames.(current := 0);
        }
      }
    }
  }
}
