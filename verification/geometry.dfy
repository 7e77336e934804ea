/**
  Axis-aligned integer rectangles, as java.awt.Rectangle is used by the game:
  a top-left corner (x, y), with y growing downwards, and a width and height.
 */
module Geometry {

  datatype Rect = Rect(x: int, y: int, width: int, height: int)

  /** The unit cell whose top-left corner is (px, py) lies inside r. */
  predicate Covers(r: Rect, px: int, py: int)
  {
    r.x <= px < r.x + r.width && r.y <= py < r.y + r.height
  }

  /**
    java.awt.Rectangle.intersects: false as soon as either rectangle has a
    width or height that is not positive; otherwise the two interiors overlap
    on both axes (strictly, so rectangles that only share an edge do not
    intersect). Java's extra disjuncts that guard against 32-bit overflow of
    `x + width` are vacuous on unbounded integers and are not written here.
   */
  predicate Intersects(a: Rect, b: Rect)
  {
    a.width > 0 && a.height > 0 && b.width > 0 && b.height > 0 &&
    b.x + b.width > a.x && b.y + b.height > a.y &&
    a.x + a.width > b.x && a.y + a.height > b.y
  }

  /** Two rectangles intersect exactly when some unit cell lies inside both. */
  lemma IntersectsIffSharedCell(a: Rect, b: Rect)
    ensures Intersects(a, b) <==> exists px, py :: Covers(a, px, py) && Covers(b, px, py)
  {
    if Intersects(a, b) {
      var px := if a.x < b.x then b.x else a.x;
      var py := if a.y < b.y then b.y else a.y;
      assert Covers(a, px, py) && Covers(b, px, py);
    }
  }
}
