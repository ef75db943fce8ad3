/**
 * Plane geometry used by the drag-knife post-processor: points, distances,
 * the cross product that tells left turns from right turns, and the point
 * found a given length along a segment.
 *
 * Coordinates are exact reals. The Euclidean distance needs a square root,
 * which Dafny's reals do not provide, so it enters as an oracle `dist`
 * characterised by `IsDistance`; the angle between two segments (computed
 * with `atan` in the program) enters the same way, characterised by `IsAngle`.
 */
module Geometry {

  datatype Point = Point(x: real, y: real)

  /** The only failure the core can raise: shifting along a segment of length zero. */
  datatype Result<+T> = Ok(value: T) | NotALine

  /** Square of the Euclidean distance between `p` and `q`. */
  function SqDist(p: Point, q: Point): real {
    (p.x - q.x) * (p.x - q.x) + (p.y - q.y) * (p.y - q.y)
  }

  /** `dist` is the Euclidean distance: non-negative, and its square is `SqDist`. */
  ghost predicate IsDistance(dist: (Point, Point) -> real) {
    forall p, q :: 0.0 <= dist(p, q) && dist(p, q) * dist(p, q) == SqDist(p, q)
  }

  /** `angle` yields unsigned degrees between two consecutive segments, in [0, 180]. */
  ghost predicate IsAngle(angle: (Point, Point, Point) -> real) {
    forall a, b, c :: 0.0 <= angle(a, b, c) <= 180.0
  }

  /** Cross product of the segment vectors `p1 - p0` and `p2 - p1`. */
  function Cross(p0: Point, p1: Point, p2: Point): real {
    (p1.x - p0.x) * (p2.y - p1.y) - (p1.y - p0.y) * (p2.x - p1.x)
  }

  /** Squaring is strictly monotone on the non-negative reals. */
  lemma SquareMono(a: real, b: real)
    requires 0.0 <= a && 0.0 <= b
    ensures a <= b ==> a * a <= b * b
    ensures a < b ==> a * a < b * b
  {
    if a <= b {
      var aa, ab, bb := a * a, a * b, b * b;
      assert aa <= ab;
      assert ab <= bb;
      if a < b {
        assert ab < bb;
      }
    }
  }

  lemma SqDistZero(p: Point, q: Point)
    ensures SqDist(p, q) >= 0.0
    ensures SqDist(p, q) == 0.0 <==> p == q
  {
    var dx, dy := p.x - q.x, p.y - q.y;
    SquareMono(0.0, if dx < 0.0 then -dx else dx);
    SquareMono(0.0, if dy < 0.0 then -dy else dy);
    assert dx * dx == (if dx < 0.0 then -dx else dx) * (if dx < 0.0 then -dx else dx);
    assert dy * dy == (if dy < 0.0 then -dy else dy) * (if dy < 0.0 then -dy else dy);
  }

  /** Two non-negative reals with equal squares are equal. */
  lemma SquareInjective(a: real, b: real)
    requires 0.0 <= a && 0.0 <= b
    ensures a * a == b * b ==> a == b
  {
    SquareMono(a, b);
    SquareMono(b, a);
  }

  /** A distance is zero exactly between equal points. */
  lemma DistanceZero(dist: (Point, Point) -> real, p: Point, q: Point)
    requires IsDistance(dist)
    ensures dist(p, q) == 0.0 <==> p == q
  {
    SqDistZero(p, q);
    var d := dist(p, q);
    assert 0.0 <= d && d * d == SqDist(p, q);
    SquareInjective(d, 0.0);
  }

  /**
   * The comparison `distance(p, q) <= r` of the program, stated on squared
   * distances, where no square root is needed.
   */
  lemma DistanceAtMost(dist: (Point, Point) -> real, p: Point, q: Point, r: real)
    requires IsDistance(dist)
    ensures dist(p, q) <= r <==> 0.0 <= r && SqDist(p, q) <= r * r
  {
    var d := dist(p, q);
    assert 0.0 <= d && d * d == SqDist(p, q);
    if 0.0 <= r {
      SquareMono(d, r);
      SquareMono(r, d);
    }
  }

  /** The comparison `distance(p, q) < r` of the program, on squared distances. */
  lemma DistanceBelow(dist: (Point, Point) -> real, p: Point, q: Point, r: real)
    requires IsDistance(dist)
    ensures dist(p, q) < r <==> 0.0 < r && SqDist(p, q) < r * r
  {
    var d := dist(p, q);
    assert 0.0 <= d && d * d == SqDist(p, q);
    if 0.0 <= r {
      SquareMono(d, r);
      SquareMono(r, d);
    }
  }

  /**
   * `q` lies `length` along the direction of the segment from `p0` to `p1`,
   * measured from `anchor`: exactly `|length|` away from the anchor, on the
   * line through the anchor parallel to the segment, and ahead of the anchor
   * (in the segment's direction) by `length` times the segment's length.
   * Those three facts determine `q` when the segment is not degenerate.
   */
  ghost predicate Offset(dist: (Point, Point) -> real, anchor: Point, p0: Point, p1: Point, length: real, q: Point) {
    SqDist(anchor, q) == length * length &&
    (q.x - anchor.x) * (p1.y - p0.y) == (q.y - anchor.y) * (p1.x - p0.x) &&
    (q.x - anchor.x) * (p1.x - p0.x) + (q.y - anchor.y) * (p1.y - p0.y) == length * dist(p0, p1)
  }

  /**
   * The point at `length` along the direction from `p0` to `p1`, measured from
   * `p0` when `fromStart` holds and from `p1` otherwise. A segment of length
   * zero has no direction: that is the failure `NotALine`, which happens
   * exactly for equal points when `dist` is the Euclidean distance.
   */
  function Shift(dist: (Point, Point) -> real, fromStart: bool, p0: Point, p1: Point, length: real): (r: Result<Point>)
    ensures IsDistance(dist) ==> (r.NotALine? <==> p0 == p1)
  {
    var a := if fromStart then p0 else p1;
    var d := dist(p0, p1);
    if d == 0.0 then
      ShiftFails(dist, p0, p1);
      NotALine
    else
      ShiftSucceeds(dist, p0, p1);
      Ok(Point(a.x + (length * (p1.x - p0.x)) / d, a.y + (length * (p1.y - p0.y)) / d))
  }

  lemma ShiftFails(dist: (Point, Point) -> real, p0: Point, p1: Point)
    requires dist(p0, p1) == 0.0
    ensures IsDistance(dist) ==> p0 == p1
  {
    if IsDistance(dist) {
      DistanceZero(dist, p0, p1);
    }
  }

  lemma ShiftSucceeds(dist: (Point, Point) -> real, p0: Point, p1: Point)
    requires dist(p0, p1) != 0.0
    ensures IsDistance(dist) ==> p0 != p1
  {
    if IsDistance(dist) {
      DistanceZero(dist, p0, p1);
    }
  }

  /** A successful shift lands `length` along the segment from its anchor. */
  lemma ShiftGeometry(dist: (Point, Point) -> real, fromStart: bool, p0: Point, p1: Point, length: real)
    requires IsDistance(dist) && p0 != p1
    ensures var r := Shift(dist, fromStart, p0, p1, length);
      r.Ok? && Offset(dist, if fromStart then p0 else p1, p0, p1, length, r.value)
  {
    var a := if fromStart then p0 else p1;
    var d := dist(p0, p1);
    assert 0.0 <= d && d * d == SqDist(p0, p1);
    DistanceZero(dist, p0, p1);
    var q := Point(a.x + (length * (p1.x - p0.x)) / d, a.y + (length * (p1.y - p0.y)) / d);
    assert Shift(dist, fromStart, p0, p1, length) == Ok(q);
    ShiftOffsets(a, q, p0, p1, length, d);
  }

  /**
   * `Offset` pins its point: two points at the same offset along a segment
   * that is not degenerate are equal. Their difference is both parallel and
   * orthogonal to the segment.
   */
  lemma OffsetUnique(dist: (Point, Point) -> real, anchor: Point, p0: Point, p1: Point, length: real, q1: Point, q2: Point)
    requires p0 != p1
    requires Offset(dist, anchor, p0, p1, length, q1) && Offset(dist, anchor, p0, p1, length, q2)
    ensures q1 == q2
  {
    var vx, vy := p1.x - p0.x, p1.y - p0.y;
    SqDistZero(p0, p1);
    assert vx * vx + vy * vy > 0.0;
    SameProjections(q1.x - anchor.x, q1.y - anchor.y, q2.x - anchor.x, q2.y - anchor.y, vx, vy);
  }

  /** Two vectors `u` and `t` with the same cross and dot products with a non-zero vector `v` are equal. */
  lemma SameProjections(ux: real, uy: real, tx: real, ty: real, vx: real, vy: real)
    requires vx * vx + vy * vy > 0.0
    requires ux * vy == uy * vx && tx * vy == ty * vx
    requires ux * vx + uy * vy == tx * vx + ty * vy
    ensures ux == tx && uy == ty
  {
    var wx, wy := ux - tx, uy - ty;
    assert wx * vy - wy * vx == 0.0 by {
      assert wx * vy == ux * vy - tx * vy;
      assert wy * vx == uy * vx - ty * vx;
    }
    assert wx * vx + wy * vy == 0.0 by {
      assert wx * vx == ux * vx - tx * vx;
      assert wy * vy == uy * vy - ty * vy;
    }
    OrthogonalAndParallel(wx, wy, vx, vy);
  }

  /** A vector both parallel and orthogonal to a non-zero vector is zero. */
  lemma OrthogonalAndParallel(wx: real, wy: real, vx: real, vy: real)
    requires vx * vx + vy * vy > 0.0
    requires wx * vy - wy * vx == 0.0 && wx * vx + wy * vy == 0.0
    ensures wx == 0.0 && wy == 0.0
  {
    var cross, dot := wx * vy - wy * vx, wx * vx + wy * vy;
    assert cross * cross + dot * dot == (wx * wx + wy * wy) * (vx * vx + vy * vy);
    assert (wx * wx + wy * wy) * (vx * vx + vy * vy) == 0.0;
    assert wx * wx + wy * wy == 0.0;
    assert wx * wx >= 0.0 && wy * wy >= 0.0;
  }

  /** The algebra behind `Shift`'s contract, for an offset `length / d` times the segment. */
  lemma ShiftOffsets(a: Point, q: Point, p0: Point, p1: Point, length: real, d: real)
    requires d > 0.0 && d * d == SqDist(p0, p1)
    requires q.x == a.x + (length * (p1.x - p0.x)) / d && q.y == a.y + (length * (p1.y - p0.y)) / d
    ensures SqDist(a, q) == length * length
    ensures (q.x - a.x) * (p1.y - p0.y) == (q.y - a.y) * (p1.x - p0.x)
    ensures (q.x - a.x) * (p1.x - p0.x) + (q.y - a.y) * (p1.y - p0.y) == length * d
  {
    var dx, dy := p1.x - p0.x, p1.y - p0.y;
    var u := length / d;
    assert q.x - a.x == u * dx && q.y - a.y == u * dy;
    assert u * d == length;
    assert SqDist(p0, p1) == dx * dx + dy * dy;
    calc {
      SqDist(a, q);
      (u * dx) * (u * dx) + (u * dy) * (u * dy);
      (u * u) * (dx * dx + dy * dy);
      (u * u) * (d * d);
      (u * d) * (u * d);
      length * length;
    }
    calc {
      (q.x - a.x) * dx + (q.y - a.y) * dy;
      u * (dx * dx + dy * dy);
      u * (d * d);
      (u * d) * d;
      length * d;
    }
  }

  /** `shift_start`: measured from the start of the segment. */
  function ShiftStart(dist: (Point, Point) -> real, p0: Point, p1: Point, length: real): (r: Result<Point>)
    ensures IsDistance(dist) ==> (r.NotALine? <==> p0 == p1)
  {
    Shift(dist, true, p0, p1, length)
  }

  /** `shift_end`: measured from the end of the segment, so the result lies beyond `p1`. */
  function ShiftEnd(dist: (Point, Point) -> real, p0: Point, p1: Point, length: real): (r: Result<Point>)
    ensures IsDistance(dist) ==> (r.NotALine? <==> p0 == p1)
  {
    Shift(dist, false, p0, p1, length)
  }

  /** `shift_start` lands `length` along the segment from `p0`. */
  lemma ShiftStartGeometry(dist: (Point, Point) -> real, p0: Point, p1: Point, length: real)
    requires IsDistance(dist) && p0 != p1
    ensures var r := ShiftStart(dist, p0, p1, length);
      r.Ok? && Offset(dist, p0, p0, p1, length, r.value)
  {
    ShiftGeometry(dist, true, p0, p1, length);
  }

  /** `shift_end` lands `length` along the segment from `p1`, so beyond `p1` for a positive `length`. */
  lemma ShiftEndGeometry(dist: (Point, Point) -> real, p0: Point, p1: Point, length: real)
    requires IsDistance(dist) && p0 != p1
    ensures var r := ShiftEnd(dist, p0, p1, length);
      r.Ok? && Offset(dist, p1, p0, p1, length, r.value)
  {
    ShiftGeometry(dist, false, p0, p1, length);
  }
}
