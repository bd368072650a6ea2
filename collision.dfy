/**
 * The geometric predicates of src/game/CollisionDetector.ts. The class has no
 * state, so its three methods are functions here.
 */
module CollisionDetector {

  /** `Rectangle`: `x, y` is the top-left corner. */
  datatype Rect = Rect(x: real, y: real, width: real, height: real)

  datatype Point = Point(x: real, y: real)

  datatype Circle = Circle(x: real, y: real, radius: real)

  /** `checkCollision`: the rectangles overlap; all four comparisons are strict. */
  predicate CheckCollision(a: Rect, b: Rect)
  {
    && a.x < b.x + b.width
    && a.x + a.width > b.x
    && a.y < b.y + b.height
    && a.y + a.height > b.y
  }

  /** `checkPointInRectangle`: containment with `>=` and `<=`, edges included. */
  predicate CheckPointInRectangle(p: Point, r: Rect)
  {
    && p.x >= r.x
    && p.x <= r.x + r.width
    && p.y >= r.y
    && p.y <= r.y + r.height
  }

  /**
   * `checkCircleCollision`: `Math.sqrt(dx * dx + dy * dy) < r1 + r2`. A square
   * root is never negative, so this holds exactly when the sum of the radii
   * is positive and exceeds the distance squared, which is how it is written
   * here; `CircleCollisionBySqrt` connects the two forms.
   */
  predicate CheckCircleCollision(c1: Circle, c2: Circle)
  {
    var dx := c1.x - c2.x;
    var dy := c1.y - c2.y;
    var sum := c1.radius + c2.radius;
    0.0 < sum && dx * dx + dy * dy < sum * sum
  }

  /** A point strictly inside the rectangle. */
  predicate Interior(p: Point, r: Rect)
  {
    r.x < p.x < r.x + r.width && r.y < p.y < r.y + r.height
  }

  function Translate(r: Rect, dx: real, dy: real): (t: Rect)
    ensures t.width == r.width && t.height == r.height
    ensures t.x - r.x == dx && t.y - r.y == dy
  {
    r.(x := r.x + dx, y := r.y + dy)
  }

  lemma CollisionSymmetric(a: Rect, b: Rect)
    ensures CheckCollision(a, b) <==> CheckCollision(b, a)
  {
  }

  /** Rectangles that only share a vertical or a horizontal edge do not collide. */
  lemma TouchingEdgesDoNotCollide(a: Rect, b: Rect)
    requires a.x + a.width == b.x || b.x + b.width == a.x
          || a.y + a.height == b.y || b.y + b.height == a.y
    ensures !CheckCollision(a, b)
  {
  }

  /** A rectangle collides with itself exactly when it has positive width and height. */
  lemma SelfCollision(a: Rect)
    ensures CheckCollision(a, a) <==> a.width > 0.0 && a.height > 0.0
  {
  }

  /** Moving both rectangles by the same offset does not change the outcome. */
  lemma CollisionTranslationInvariant(a: Rect, b: Rect, dx: real, dy: real)
    ensures CheckCollision(Translate(a, dx, dy), Translate(b, dx, dy)) <==> CheckCollision(a, b)
  {
  }

  /**
   * For rectangles of positive size, the test holds exactly when some point
   * lies strictly inside both.
   */
  lemma CollisionIffCommonInterior(a: Rect, b: Rect)
    requires a.width > 0.0 && a.height > 0.0 && b.width > 0.0 && b.height > 0.0
    ensures CheckCollision(a, b) <==> exists p :: Interior(p, a) && Interior(p, b)
  {
    if CheckCollision(a, b) {
      var lx := if a.x < b.x then b.x else a.x;
      var hx := if a.x + a.width < b.x + b.width then a.x + a.width else b.x + b.width;
      var ly := if a.y < b.y then b.y else a.y;
      var hy := if a.y + a.height < b.y + b.height then a.y + a.height else b.y + b.height;
      var p := Point((lx + hx) / 2.0, (ly + hy) / 2.0);
      assert Interior(p, a) && Interior(p, b);
    }
  }

  /** The four corners of a rectangle of non-negative size are inside it. */
  lemma CornersInside(r: Rect)
    requires r.width >= 0.0 && r.height >= 0.0
    ensures CheckPointInRectangle(Point(r.x, r.y), r)
    ensures CheckPointInRectangle(Point(r.x + r.width, r.y), r)
    ensures CheckPointInRectangle(Point(r.x, r.y + r.height), r)
    ensures CheckPointInRectangle(Point(r.x + r.width, r.y + r.height), r)
  {
  }

  /** Every point on an edge of a rectangle counts as inside. */
  lemma EdgePointsInside(r: Rect, t: real)
    requires r.width >= 0.0 && r.height >= 0.0 && 0.0 <= t <= 1.0
    ensures CheckPointInRectangle(Point(r.x + t * r.width, r.y), r)
    ensures CheckPointInRectangle(Point(r.x + t * r.width, r.y + r.height), r)
    ensures CheckPointInRectangle(Point(r.x, r.y + t * r.height), r)
    ensures CheckPointInRectangle(Point(r.x + r.width, r.y + t * r.height), r)
  {
    assert 0.0 <= t * r.width <= r.width;
    assert 0.0 <= t * r.height <= r.height;
  }

  /**
   * The point test is the closed counterpart of the overlap test: the interior
   * of a rectangle is inside it, and a point on its edge is inside it although
   * a zero-size rectangle there does not collide with it.
   */
  lemma PointTestIsClosed(p: Point, r: Rect)
    ensures Interior(p, r) ==> CheckPointInRectangle(p, r)
    ensures CheckCollision(Rect(p.x, p.y, 0.0, 0.0), r) <==> Interior(p, r)
    ensures p.x == r.x && r.y <= p.y <= r.y + r.height && r.width >= 0.0 ==>
      CheckPointInRectangle(p, r) && !CheckCollision(Rect(p.x, p.y, 0.0, 0.0), r)
  {
  }

  /**
   * For any non-negative `d` with `d * d == dx * dx + dy * dy` (the value
   * `Math.sqrt` returns), `d < r1 + r2` holds exactly when the test does.
   */
  lemma CircleCollisionBySqrt(c1: Circle, c2: Circle, d: real)
    requires d >= 0.0
    requires d * d == (c1.x - c2.x) * (c1.x - c2.x) + (c1.y - c2.y) * (c1.y - c2.y)
    ensures CheckCircleCollision(c1, c2) <==> d < c1.radius + c2.radius
  {
    var sum := c1.radius + c2.radius;
    if d < sum {
      SquareStrict(d, sum);
    } else if 0.0 < sum {
      SquareStrict(sum, d);
    }
  }

  /** Squaring is monotone on non-negative reals. */
  lemma SquareStrict(x: real, y: real)
    requires 0.0 <= x <= y
    ensures x * x <= y * y && (x < y ==> x * x < y * y)
  {
    var a, b, c := x * x, x * y, y * y;
    assert a <= b by { assert x * (y - x) >= 0.0; }
    assert b <= c by { assert (y - x) * y >= 0.0; }
    if x < y {
      assert b < c by { assert (y - x) * y > 0.0; }
    }
  }

  lemma CircleCollisionSymmetric(c1: Circle, c2: Circle)
    ensures CheckCircleCollision(c1, c2) <==> CheckCircleCollision(c2, c1)
  {
    assert (c1.x - c2.x) * (c1.x - c2.x) == (c2.x - c1.x) * (c2.x - c1.x);
    assert (c1.y - c2.y) * (c1.y - c2.y) == (c2.y - c1.y) * (c2.y - c1.y);
  }

  /** Circles whose centres are exactly `r1 + r2` apart (tangent) do not collide. */
  lemma TangentCirclesDoNotCollide(c1: Circle, c2: Circle)
    requires (c1.x - c2.x) * (c1.x - c2.x) + (c1.y - c2.y) * (c1.y - c2.y)
             == (c1.radius + c2.radius) * (c1.radius + c2.radius)
    ensures !CheckCircleCollision(c1, c2)
  {
  }
}
