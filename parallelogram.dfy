/** `Parallelogram`: four corners in the unit square, the top edge shifted right by
    `edgeOffset` and the bottom edge shifted left by the same amount, stretched over the
    rectangle's width and height (measured from (0, 0)). */
module Parallelograms {
  import opened Geometry
  import opened Paths

  /** `points`: bottom left, top left, top right, bottom right, in unit coordinates. */
  function UnitPoints(edgeOffset: real): (p: seq<Point>)
    ensures |p| == 4
    ensures p[0].y == p[3].y == 1.0 && p[1].y == p[2].y == 0.0
    ensures p[0].x == 0.0 && p[2].x == 1.0
    ensures p[1].x == edgeOffset && p[3].x == 1.0 - edgeOffset
  {
    [Point(0.0, 1.0), Point(edgeOffset, 0.0), Point(1.0, 0.0), Point(1.0 - edgeOffset, 1.0)]
  }

  /** A unit point stretched over the rectangle. */
  function Stretch(p: Point, rect: Rect): (q: Point)
  {
    Point(p.x * Width(rect), p.y * Height(rect))
  }

  function StretchAll(points: seq<Point>, rect: Rect): (qs: seq<Point>)
    ensures |qs| == |points|
    ensures forall i :: 0 <= i < |points| ==> qs[i] == Stretch(points[i], rect)
  {
    seq(|points|, i requires 0 <= i < |points| => Stretch(points[i], rect))
  }

  /** The commands `path(in:)` issues: a move to the last corner, then a line to each corner. */
  function Commands(edgeOffset: real, rect: Rect): (cmds: seq<PathCommand>)
  {
    var corners := StretchAll(UnitPoints(edgeOffset), rect);
    [MoveTo(corners[3])] + Lines(corners)
  }

  /** `Parallelogram.path(in:)`. */
  method ParallelogramPath(edgeOffset: real, rect: Rect) returns (path: Path)
    ensures fresh(path)
    ensures path.commands == Commands(edgeOffset, rect)
  {
    var points := UnitPoints(edgeOffset);
    path := new Path();
    path.Move(Point(points[3].x * Width(rect), points[3].y * Height(rect)));
    assert path.commands == [MoveTo(Point(points[3].x * Width(rect), points[3].y * Height(rect)))];
    assert Stretch(points[3], rect) == Point(points[3].x * Width(rect), points[3].y * Height(rect));
    assert Lines(StretchAll(points[..0], rect)) == [];
    for i := 0 to |points|
      invariant path.commands == [MoveTo(Stretch(points[3], rect))] + Lines(StretchAll(points[..i], rect))
    {
      var pt := points[i];
      ghost var done := StretchAll(points[..i], rect);
      assert points[..i + 1] == points[..i] + [pt];
      assert StretchAll(points[..i + 1], rect) == done + [Stretch(pt, rect)];
      LinesAppend(done, Stretch(pt, rect));
      ghost var before := path.commands;
      var next := Point(pt.x * Width(rect), pt.y * Height(rect));
      assert next == Stretch(pt, rect);
      path.AddLine(next);
      assert path.commands == before + [LineTo(Stretch(pt, rect))];
      assert path.commands == [MoveTo(Stretch(points[3], rect))] + (Lines(done) + [LineTo(Stretch(pt, rect))]);
    }
    assert points[..|points|] == points;
  }

  /** The path is one closed subpath of four lines, whatever the offset. */
  lemma PathIsClosed(edgeOffset: real, rect: Rect)
    ensures Closed(Commands(edgeOffset, rect)) && |Commands(edgeOffset, rect)| == 5
  {
  }

  lemma MulSplit(e: real, w: real)
    ensures e * w + (1.0 - e) * w == w
  {
  }

  lemma MulWithin(e: real, w: real)
    requires 0.0 <= e <= 1.0 && 0.0 <= w
    ensures 0.0 <= e * w <= w
  {
  }

  /** It is a parallelogram: both pairs of opposite corners have the same midpoint, the
      rectangle's centre. */
  lemma DiagonalsBisect(edgeOffset: real, rect: Rect)
    ensures var c := StretchAll(UnitPoints(edgeOffset), rect);
            && c[0].x + c[2].x == Width(rect) && c[0].y + c[2].y == Height(rect)
            && c[1].x + c[3].x == Width(rect) && c[1].y + c[3].y == Height(rect)
  {
    MulSplit(edgeOffset, Width(rect));
  }

  /** Without an offset the corners are the rectangle's, and with an offset between zero and
      one every corner stays within the box from (0, 0) to the width and height. */
  lemma CornersInBox(edgeOffset: real, rect: Rect)
    ensures edgeOffset == 0.0 ==>
              StretchAll(UnitPoints(edgeOffset), rect)
              == [Point(0.0, Height(rect)), Point(0.0, 0.0), Point(Width(rect), 0.0), Point(Width(rect), Height(rect))]
    ensures 0.0 <= edgeOffset <= 1.0 ==>
              forall p :: p in StretchAll(UnitPoints(edgeOffset), rect) ==>
                0.0 <= p.x <= Width(rect) && 0.0 <= p.y <= Height(rect)
  {
    if 0.0 <= edgeOffset <= 1.0 {
      MulWithin(edgeOffset, Width(rect));
      MulWithin(1.0 - edgeOffset, Width(rect));
    }
  }
}
