/** Core Graphics points, sizes and rectangles over exact reals, with the standardised
    accessors (`minX`, `maxX`, `width`, ...) that normalise a negative size. */
module Geometry {

  datatype Point = Point(x: real, y: real)

  datatype Size = Size(width: real, height: real)

  datatype Rect = Rect(origin: Point, size: Size)

  function Max(a: real, b: real): (m: real)
    ensures m >= a && m >= b && (m == a || m == b)
  {
    if a >= b then a else b
  }

  function Min(a: real, b: real): (m: real)
    ensures m <= a && m <= b && (m == a || m == b)
  {
    if a <= b then a else b
  }

  /** `CGRect.minX`: the smaller of the two x edges. */
  function MinX(r: Rect): (m: real)
    ensures m == Min(r.origin.x, r.origin.x + r.size.width)
  {
    if r.size.width >= 0.0 then r.origin.x else r.origin.x + r.size.width
  }

  /** `CGRect.maxX`: the larger of the two x edges. */
  function MaxX(r: Rect): (m: real)
    ensures m == Max(r.origin.x, r.origin.x + r.size.width)
  {
    if r.size.width >= 0.0 then r.origin.x + r.size.width else r.origin.x
  }

  /** `CGRect.minY`: the smaller of the two y edges. */
  function MinY(r: Rect): (m: real)
    ensures m == Min(r.origin.y, r.origin.y + r.size.height)
  {
    if r.size.height >= 0.0 then r.origin.y else r.origin.y + r.size.height
  }

  /** `CGRect.maxY`: the larger of the two y edges. */
  function MaxY(r: Rect): (m: real)
    ensures m == Max(r.origin.y, r.origin.y + r.size.height)
  {
    if r.size.height >= 0.0 then r.origin.y + r.size.height else r.origin.y
  }

  /** `CGRect.width`: never negative, and the distance between the x edges. */
  function Width(r: Rect): (w: real)
    ensures w >= 0.0 && w == MaxX(r) - MinX(r)
  {
    if r.size.width >= 0.0 then r.size.width else -r.size.width
  }

  /** `CGRect.height`: never negative, and the distance between the y edges. */
  function Height(r: Rect): (h: real)
    ensures h >= 0.0 && h == MaxY(r) - MinY(r)
  {
    if r.size.height >= 0.0 then r.size.height else -r.size.height
  }

  /** Whether `inner` lies within `outer` (edges may touch). */
  predicate Inside(inner: Rect, outer: Rect)
  {
    MinX(outer) <= MinX(inner) && MaxX(inner) <= MaxX(outer)
    && MinY(outer) <= MinY(inner) && MaxY(inner) <= MaxY(outer)
  }
}
