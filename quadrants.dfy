/**
 * The quadrant classifier and the centroid of a bounding box (main.py).
 * Python compares the integer centroid with `width / 2`, a true (floating)
 * division; here that is real division, so the comparisons are exact.
 */
module Quadrants {

  import opened Wrappers

  /** A bounding rectangle: top-left corner, width and height in pixels. */
  datatype Box = Box(x: int, y: int, w: int, h: int)

  /** A value the classifier may return that names one of the four quadrants. */
  predicate IsQuadrant(q: Option<int>)
  {
    q.Some? && 1 <= q.value <= 4
  }

  /**
   * check_quadrant: four guarded cases split by the frame's midpoints, then a
   * fall-through `None`. The contract shows the fall-through cannot be taken
   * and characterises each quadrant number in integer terms.
   */
  function CheckQuadrant(x: int, y: int, width: int, height: int): (r: Option<int>)
    ensures IsQuadrant(r)
    ensures r == Some(1) <==> 2 * x < width && 2 * y < height
    ensures r == Some(2) <==> 2 * x >= width && 2 * y < height
    ensures r == Some(3) <==> 2 * x < width && 2 * y >= height
    ensures r == Some(4) <==> 2 * x >= width && 2 * y >= height
  {
    var midX := width as real / 2.0;
    var midY := height as real / 2.0;
    if x as real < midX && y as real < midY then Some(1)
    else if x as real >= midX && y as real < midY then Some(2)
    else if x as real < midX && y as real >= midY then Some(3)
    else if x as real >= midX && y as real >= midY then Some(4)
    else None
  }

  /**
   * The point the tracker classifies: `x + w // 2, y + h // 2`. Python's `//`
   * floors; with the positive divisor 2 Dafny's `/` gives the same result.
   */
  function Centroid(b: Box): (c: (int, int))
    ensures 2 * (c.0 - b.x) <= b.w < 2 * (c.0 - b.x) + 2
    ensures 2 * (c.1 - b.y) <= b.h < 2 * (c.1 - b.y) + 2
    ensures 0 <= b.w ==> b.x <= c.0 <= b.x + b.w
    ensures 0 <= b.h ==> b.y <= c.1 <= b.y + b.h
  {
    (b.x + b.w / 2, b.y + b.h / 2)
  }
}
