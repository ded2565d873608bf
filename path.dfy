/** SwiftUI's `Path`, reduced to the commands the modelled shapes issue: start a subpath at a
    point, draw a straight line to a point, and add a rectangle. */
module Paths {
  import opened Geometry

  datatype PathCommand = MoveTo(to: Point) | LineTo(to: Point) | AddRect(rect: Rect)

  /** One `addLine(to:)` per point, in order. */
  function Lines(points: seq<Point>): (cmds: seq<PathCommand>)
    ensures |cmds| == |points|
    ensures forall i :: 0 <= i < |points| ==> cmds[i] == LineTo(points[i])
  {
    seq(|points|, i requires 0 <= i < |points| => LineTo(points[i]))
  }

  lemma LinesAppend(points: seq<Point>, p: Point)
    ensures Lines(points + [p]) == Lines(points) + [LineTo(p)]
  {
  }

  lemma LinesConcat(a: seq<Point>, b: seq<Point>)
    ensures Lines(a + b) == Lines(a) + Lines(b)
  {
  }

  /** A single subpath that starts with a move and whose last line returns to the start. */
  predicate Closed(cmds: seq<PathCommand>)
  {
    && |cmds| >= 2
    && cmds[0].MoveTo?
    && (forall i :: 1 <= i < |cmds| ==> cmds[i].LineTo?)
    && cmds[|cmds| - 1] == LineTo(cmds[0].to)
  }

  /** A `Path` being built: its commands so far. */
  class Path {
    var commands: seq<PathCommand>

    /** `Path()`: no commands. */
    constructor()
      ensures commands == []
    {
      commands := [];
    }

    /** `move(to:)`. */
    method Move(to: Point)
      modifies this
      ensures commands == old(commands) + [MoveTo(to)]
    {
      commands := commands + [MoveTo(to)];
    }

    /** `addLine(to:)`. */
    method AddLine(to: Point)
      modifies this
      ensures commands == old(commands) + [LineTo(to)]
    {
      commands := commands + [LineTo(to)];
    }

    /** `addPath(Path(rect))`: the rectangle as one closed subpath. */
    method AddRectangle(r: Rect)
      modifies this
      ensures commands == old(commands) + [AddRect(r)]
    {
      commands := commands + [AddRect(r)];
    }
  }
}
