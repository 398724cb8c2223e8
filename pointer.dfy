/** Pointer positions and the click test the canvas elements share: a
    press and release less than 5 pixels apart is a click, not a drag. */
module Pointer {
  datatype Point = Point(x: real, y: real)

  /** `Math.sqrt(dx² + dy²) < 5`, compared squared (both sides are
      non-negative, so the comparison is the same). */
  predicate IsClick(start: Point, end: Point) {
    var dx, dy := end.x - start.x, end.y - start.y;
    dx * dx + dy * dy < 25.0
  }

  /** A release within 3 pixels on each axis is a click; one 5 or more
      pixels away on either axis is a drag. */
  lemma ClickThreshold(start: Point, end: Point)
    ensures -3.0 <= end.x - start.x <= 3.0 && -3.0 <= end.y - start.y <= 3.0 ==> IsClick(start, end)
    ensures (end.x - start.x >= 5.0 || start.x - end.x >= 5.0 || end.y - start.y >= 5.0 || start.y - end.y >= 5.0) ==>
      !IsClick(start, end)
  {
    var dx, dy := end.x - start.x, end.y - start.y;
    SquareAtMost(dx, 3.0);
    SquareAtMost(dy, 3.0);
    SquareAtLeast(dx, 5.0);
    SquareAtLeast(dy, 5.0);
    SquareNonNegative(dx);
    SquareNonNegative(dy);
  }

  lemma SquareNonNegative(d: real)
    ensures d * d >= 0.0
  {
    if d < 0.0 {
      assert d * d == (-d) * (-d);
    }
  }

  lemma SquareAtMost(d: real, m: real)
    requires m >= 0.0
    ensures -m <= d <= m ==> d * d <= m * m
  {
    if -m <= d <= m {
      if d >= 0.0 {
        assert d * d <= d * m <= m * m;
      } else {
        assert d * d <= (-d) * m <= m * m;
      }
    }
  }

  lemma SquareAtLeast(d: real, m: real)
    requires m >= 0.0
    ensures d >= m || -d >= m ==> d * d >= m * m
  {
    if d >= m {
      assert d * d >= d * m >= m * m;
    } else if -d >= m {
      assert d * d == (-d) * (-d) >= (-d) * m >= m * m;
    }
  }
}
