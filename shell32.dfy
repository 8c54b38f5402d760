/** The rectangle type of the shell interop and its point test. */
module Shell32 {

  /** `RECT`: edges in screen coordinates. */
  datatype Rect = Rect(left: int, top: int, right: int, bottom: int)

  /** `System.Drawing.Point`. */
  datatype Point = Point(x: int, y: int)

  /** `RECT.Contains`: inside or on any of the four edges. */
  predicate Contains(r: Rect, p: Point) {
    p.x >= r.left && p.x <= r.right && p.y >= r.top && p.y <= r.bottom
  }

  /** Every point of the closed rectangle, the reference definition of containment. */
  function Points(r: Rect): (s: set<Point>)
    ensures forall p :: p in s ==> r.left <= p.x <= r.right && r.top <= p.y <= r.bottom
  {
    set x, y | r.left <= x <= r.right && r.top <= y <= r.bottom :: Point(x, y)
  }

  /** `Contains` holds exactly for the points of the closed rectangle. */
  lemma ContainsIsMembership(r: Rect, p: Point)
    ensures Contains(r, p) <==> p in Points(r)
  {
    if Contains(r, p) {
      assert Point(p.x, p.y) in Points(r);
    }
  }

  /** The four corners of a non-empty rectangle are inside it: the edges are inclusive. */
  lemma CornersContained(r: Rect)
    requires r.left <= r.right && r.top <= r.bottom
    ensures Contains(r, Point(r.left, r.top)) && Contains(r, Point(r.right, r.top))
    ensures Contains(r, Point(r.left, r.bottom)) && Contains(r, Point(r.right, r.bottom))
  {
  }

  /** An inverted rectangle contains nothing. */
  lemma InvertedContainsNothing(r: Rect, p: Point)
    requires r.left > r.right || r.top > r.bottom
    ensures !Contains(r, p)
    ensures Points(r) == {}
  {
  }

  /** A point left of, right of, above or below the rectangle is outside it. */
  lemma OutsideExcluded(r: Rect, p: Point)
    requires p.x < r.left || p.x > r.right || p.y < r.top || p.y > r.bottom
    ensures !Contains(r, p)
    ensures p !in Points(r)
  {
  }
}
