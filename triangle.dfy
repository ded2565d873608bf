/** `Triangle`, a triangle pointing up, down, left or right inside its rectangle, drawn either
    whole or as an open arrowhead. Its vertices are measured from (0, 0), not from the
    rectangle's origin. */
module Triangles {
  import opened Geometry
  import opened Paths

  datatype Direction = Up | Down | Left | Right

  datatype BorderMode = All | Arrow

  /** The three vertices in the order the path visits them: the apex the triangle points to,
      then the two ends of the opposite side. */
  function Vertices(direction: Direction, rect: Rect): (v: seq<Point>)
    ensures |v| == 3
    ensures direction == Up ==> v[0] == Point(Width(rect) * 0.5, 0.0) && v[1].y == v[2].y == Height(rect)
    ensures direction == Down ==> v[0] == Point(Width(rect) * 0.5, Height(rect)) && v[1].y == v[2].y == 0.0
    ensures direction == Left ==> v[0] == Point(0.0, Height(rect) * 0.5) && v[1].x == v[2].x == Width(rect)
    ensures direction == Right ==> v[0] == Point(Width(rect), Height(rect) * 0.5) && v[1].x == v[2].x == 0.0
  {
    var w, h := Width(rect), Height(rect);
    match direction
    case Up => [Point(w * 0.5, 0.0), Point(w, h), Point(0.0, h)]
    case Down => [Point(w * 0.5, h), Point(w, 0.0), Point(0.0, 0.0)]
    case Left => [Point(0.0, h * 0.5), Point(w, 0.0), Point(w, h)]
    case Right => [Point(w, h * 0.5), Point(0.0, 0.0), Point(0.0, h)]
  }

  /** The commands `path(in:)` issues: a move to the last vertex, then a line to each vertex
      that is kept (all three, or the first two for an arrowhead). */
  function Commands(direction: Direction, mode: BorderMode, rect: Rect): (cmds: seq<PathCommand>)
  {
    var v := Vertices(direction, rect);
    var kept := if mode == Arrow then v[..2] else v;
    [MoveTo(v[2])] + Lines(kept)
  }

  /** `Triangle.path(in:)`. */
  method TrianglePath(direction: Direction, mode: BorderMode, rect: Rect) returns (path: Path)
    ensures fresh(path)
    ensures path.commands == Commands(direction, mode, rect)
  {
    var w, h := Width(rect), Height(rect);
    var points: seq<Point> := [];
    match direction {
      case Up =>
        points := points + [Point(w * 0.5, 0.0)];
        points := points + [Point(w, h)];
        points := points + [Point(0.0, h)];
      case Down =>
        points := points + [Point(w * 0.5, h)];
        points := points + [Point(w, 0.0)];
        points := points + [Point(0.0, 0.0)];
      case Left =>
        points := points + [Point(0.0, h * 0.5)];
        points := points + [Point(w, 0.0)];
        points := points + [Point(w, h)];
      case Right =>
        points := points + [Point(w, h * 0.5)];
        points := points + [Point(0.0, 0.0)];
        points := points + [Point(0.0, h)];
    }
    assert points == Vertices(direction, rect);
    path := new Path();
    path.Move(points[|points| - 1]);
    if mode == Arrow {
      points := points[..|points| - 1];
    }
    for i := 0 to |points|
      invariant path.commands == [MoveTo(Vertices(direction, rect)[2])] + Lines(points[..i])
    {
      LinesAppend(points[..i], points[i]);
      assert points[..i + 1] == points[..i] + [points[i]];
      path.AddLine(points[i]);
    }
    assert points[..|points|] == points;
  }

  /** Drawn whole, the triangle is one closed subpath of three lines through the apex and the
      two base corners. */
  lemma WholeTriangleIsClosed(direction: Direction, rect: Rect)
    ensures var cmds := Commands(direction, All, rect);
            var v := Vertices(direction, rect);
            && Closed(cmds) && |cmds| == 4
            && cmds[1..] == [LineTo(v[0]), LineTo(v[1]), LineTo(v[2])]
  {
  }

  /** As an arrowhead the last side is dropped: two lines that meet at the apex, ending at
      the second base corner, so the path is not closed for a non-degenerate rectangle. */
  lemma ArrowheadIsOpen(direction: Direction, rect: Rect)
    ensures var cmds := Commands(direction, Arrow, rect);
            var v := Vertices(direction, rect);
            && |cmds| == 3
            && cmds == Commands(direction, All, rect)[..3]
            && cmds[1] == LineTo(v[0]) && cmds[2] == LineTo(v[1])
    ensures Width(rect) > 0.0 && Height(rect) > 0.0 ==> !Closed(Commands(direction, Arrow, rect))
  {
  }

  /** Every vertex lies in the box from (0, 0) to the rectangle's width and height. */
  lemma VerticesInBox(direction: Direction, rect: Rect)
    ensures forall p :: p in Vertices(direction, rect) ==>
              0.0 <= p.x <= Width(rect) && 0.0 <= p.y <= Height(rect)
  {
  }
}
