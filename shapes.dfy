/** The two drawable regions of a trial (shapes.py): a circle with separate
    x and y radii, and an obstacle rectangle that can move vertically and
    bounce off the top and bottom of the window. */
module Shapes {
  import opened Common

  /** A circular region with centre (x, y) and radii rx, ry in pixels.
      The pixel-space tuples built in models.py and the Circle objects of
      shapes.py have the same four fields; the objects hold truncated values
      (see NewCircle). */
  datatype Circle = Circle(x: real, y: real, rx: real, ry: real)

  /** t is what int() makes of v: an integer no farther from zero than v,
      and less than one away from it. */
  predicate TruncationOf(t: real, v: real)
  {
    && t == t.Floor as real
    && (v >= 0.0 ==> 0.0 <= t <= v < t + 1.0)
    && (v < 0.0 ==> t - 1.0 < v <= t <= 0.0)
  }

  /** Circle.__init__: every coordinate and radius goes through int(). */
  function NewCircle(x: real, y: real, rx: real, ry: real): (c: Circle)
    ensures TruncationOf(c.x, x) && TruncationOf(c.y, y)
    ensures TruncationOf(c.rx, rx) && TruncationOf(c.ry, ry)
  {
    Circle(Trunc(x) as real, Trunc(y) as real, Trunc(rx) as real, Trunc(ry) as real)
  }

  /** Squared Euclidean distance from the centre to (px, py). */
  function DistSq(c: Circle, px: real, py: real): real
  {
    (c.x - px) * (c.x - px) + (c.y - py) * (c.y - py)
  }

  /** Circle.check_hit: the distance to the centre is at most max(rx, ry).
      The square root is avoided: a non-negative distance is at most m
      exactly when m is non-negative and its square is at most m * m. */
  function CheckHit(c: Circle, px: real, py: real): bool
  {
    var m := MaxR(c.rx, c.ry);
    m >= 0.0 && DistSq(c, px, py) <= m * m
  }

  /** CheckHit agrees with `sqrt(d2) <= max(rx, ry)` for the true root d of
      the squared distance. */
  lemma CheckHitIsDistanceTest(c: Circle, px: real, py: real, d: real)
    requires d >= 0.0 && d * d == DistSq(c, px, py)
    ensures CheckHit(c, px, py) <==> d <= MaxR(c.rx, c.ry)
  {
    var m := MaxR(c.rx, c.ry);
    if d <= m {
      SquareMonotone(d, m);
    } else if m >= 0.0 {
      SquareMonotone(m, d);
      assert m * m != d * d;
    }
  }

  /** Squaring is monotone on the non-negative reals, strictly so on
      distinct arguments. */
  lemma SquareMonotone(a: real, b: real)
    requires 0.0 <= a <= b
    ensures a * a <= b * b
    ensures a < b ==> a * a < b * b
  {
    assert b * b - a * a == (b - a) * (b + a);
    if a < b {
      ProductPositive(b - a, b + a);
    }
  }

  lemma ProductPositive(x: real, y: real)
    requires x > 0.0 && y > 0.0
    ensures x * y > 0.0
  {
  }

  /** The centre itself is a hit whenever some radius is non-negative. */
  lemma CheckHitAtCentre(c: Circle)
    requires c.rx >= 0.0 || c.ry >= 0.0
    ensures CheckHit(c, c.x, c.y)
  {
  }

  /** Reflecting the query point through the centre does not change the
      verdict. */
  lemma CheckHitReflection(c: Circle, px: real, py: real)
    ensures CheckHit(c, px, py) == CheckHit(c, 2.0 * c.x - px, 2.0 * c.y - py)
  {
    assert DistSq(c, px, py) == DistSq(c, 2.0 * c.x - px, 2.0 * c.y - py);
  }

  /** The vertical part of Rectangle.update_pos, as a value: the new y and
      the new dy, for window height wh. */
  function VerticalStep(y: real, dy: int, h: real, wh: real): (r: (real, int))
    ensures 0.0 <= h <= wh ==> 0.0 <= r.0 <= wh - h
    ensures y + dy as real + h >= wh || y + dy as real <= 0.0 ==> r.1 == -dy
    ensures wh > y + dy as real + h && y + dy as real > 0.0 ==> r == (y + dy as real, dy)
  {
    var ny := y + dy as real;
    if ny + h >= wh then (wh - h, -dy)
    else if ny <= 0.0 then (0.0, -dy)
    else (ny, dy)
  }

  /** An obstacle rectangle; only its velocity goes through int(). */
  class Rectangle {
    var x: real
    var y: real
    var w: real
    var h: real
    var dx: int
    var dy: int

    constructor (x: real, y: real, w: real, h: real, dx: real, dy: real)
      ensures this.x == x && this.y == y && this.w == w && this.h == h
      ensures this.dx == Trunc(dx) && this.dy == Trunc(dy)
    {
      this.x, this.y, this.w, this.h := x, y, w, h;
      this.dx, this.dy := Trunc(dx), Trunc(dy);
    }

    /** Rectangle.update_pos: move by (dx, dy), then clamp to the window
        vertically and reverse dy on reaching the top or the bottom. */
    method UpdatePos(windowHeightPixels: real)
      modifies this
      ensures x == old(x) + old(dx) as real
      ensures (y, dy) == VerticalStep(old(y), old(dy), old(h), windowHeightPixels)
      ensures dx == old(dx) && w == old(w) && h == old(h)
      ensures dy == old(dy) || dy == -old(dy)
      ensures 0.0 <= h <= windowHeightPixels ==> 0.0 <= y <= windowHeightPixels - h
    {
      x := x + dx as real;
      y := y + dy as real;
      if y + h >= windowHeightPixels {
        dy := -dy;
        y := windowHeightPixels - h;
      } else if y <= 0.0 {
        dy := -dy;
        y := 0.0;
      }
    }
  }
}
