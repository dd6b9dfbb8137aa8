/** Points, axis-aligned rectangles and the game's rectangle overlap test. */
module Geometry {

  /** A position on the canvas (or a displacement). */
  datatype Vec2 = Vec2(x: real, y: real) {
    function Plus(d: Vec2): Vec2 { Vec2(x + d.x, y + d.y) }
  }

  /** An axis-aligned rectangle: top-left corner, width and height. */
  datatype Rect = Rect(position: Vec2, width: real, height: real) {
    function Shifted(d: Vec2): Rect { Rect(position.Plus(d), width, height) }
  }

  /** The fraction of its own y coordinate by which the bottom test moves the
      first rectangle's top edge down (a hit box that starts at the feet). */
  const FootFraction: real := 0.15

  /** The overlap test of the game: four inclusive half-plane comparisons.
      The bottom comparison uses `y1 + 0.15 * y1` instead of an edge of rectangle1. */
  function RectangularCollision(r1: Rect, r2: Rect): bool
  {
    var hitLeftSide := r1.position.x + r1.width >= r2.position.x;
    var hitRightSide := r1.position.x <= r2.position.x + r2.width;
    var hitBottom := r1.position.y + r1.position.y * FootFraction <= r2.position.y + r2.height;
    var hitTop := r1.position.y + r1.height >= r2.position.y;
    hitLeftSide && hitRightSide && hitBottom && hitTop
  }

  /** Closed containment: points on an edge are inside. */
  ghost predicate Contains(r: Rect, p: Vec2)
  {
    r.position.x <= p.x <= r.position.x + r.width &&
    r.position.y <= p.y <= r.position.y + r.height
  }

  /** The part of rectangle1 that the overlap test actually uses: its top edge is
      lowered by 15% of its y coordinate, its bottom edge stays where it is. The box
      is not inverted exactly when the rectangle is at least 15% of its y tall. */
  function FootBox(r: Rect): (f: Rect)
    ensures f.height >= 0.0 <==> r.height >= FootFraction * r.position.y
  {
    var top := r.position.y + r.position.y * FootFraction;
    Rect(Vec2(r.position.x, top), r.width, r.position.y + r.height - top)
  }

  function Max(a: real, b: real): real { if a < b then b else a }

  /** Reference meaning of the overlap test: for rectangles of non-negative extent,
      it holds exactly when the foot box of rectangle1 and rectangle2 share a point,
      edges included (so rectangles that only touch collide). */
  lemma CollisionIsPointOverlap(r1: Rect, r2: Rect)
    requires r1.width >= 0.0 && r2.width >= 0.0 && r2.height >= 0.0
    requires FootBox(r1).height >= 0.0
    ensures RectangularCollision(r1, r2) <==> exists p :: Contains(FootBox(r1), p) && Contains(r2, p)
  {
    var f := FootBox(r1);
    if RectangularCollision(r1, r2) {
      var p := Vec2(Max(f.position.x, r2.position.x), Max(f.position.y, r2.position.y));
      assert Contains(f, p) && Contains(r2, p);
    }
  }

  /** Probing with a boundary moved sideways is the same as moving the player the
      other way: the horizontal comparisons depend only on differences of x. */
  lemma HorizontalProbeIsPlayerShift(r1: Rect, r2: Rect, dx: real)
    ensures RectangularCollision(r1, r2.Shifted(Vec2(dx, 0.0)))
        == RectangularCollision(r1.Shifted(Vec2(-dx, 0.0)), r2)
  {
  }

  /** The same is false vertically: the foot offset depends on the player's own y,
      so moving the world down is not the same as moving the player up. A player
      at y = 100 and a boundary at y = 0 moved down by 104 do not collide, while
      the player moved up by 104 does collide with the unmoved boundary. */
  lemma VerticalProbeIsNotPlayerShift(r1: Rect, r2: Rect, dy: real)
    requires r1 == Rect(Vec2(0.0, 100.0), 10.0, 20.0) && r2 == Rect(Vec2(0.0, 0.0), 10.0, 10.0)
    requires dy == 104.0
    ensures !RectangularCollision(r1, r2.Shifted(Vec2(0.0, dy)))
    ensures RectangularCollision(r1.Shifted(Vec2(0.0, -dy)), r2)
  {
  }
}
