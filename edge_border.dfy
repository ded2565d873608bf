/** `EdgeBorder`: a band of the given width along each chosen edge of a rectangle, one
    rectangle per edge, in the order the edges are listed. */
module EdgeBorders {
  import opened Geometry
  import opened Paths

  /** SwiftUI's `Edge`. */
  datatype Edge = Top | Leading | Bottom | Trailing

  /** The band drawn for one edge: the full length of that side, `width` deep, lying against
      the side on the inside. */
  function Band(edge: Edge, width: real, rect: Rect): (band: Rect)
    ensures band.size.width == (if edge == Top || edge == Bottom then Width(rect) else width)
    ensures band.size.height == (if edge == Top || edge == Bottom then width else Height(rect))
  {
    var x := if edge == Trailing then MaxX(rect) - width else MinX(rect);
    var y := if edge == Bottom then MaxY(rect) - width else MinY(rect);
    var w := if edge == Top || edge == Bottom then Width(rect) else width;
    var h := if edge == Top || edge == Bottom then width else Height(rect);
    Rect(Point(x, y), Size(w, h))
  }

  /** The commands `path(in:)` issues: one rectangle per listed edge. */
  function Commands(edges: seq<Edge>, width: real, rect: Rect): (cmds: seq<PathCommand>)
    ensures |cmds| == |edges|
    ensures forall i :: 0 <= i < |edges| ==> cmds[i] == AddRect(Band(edges[i], width, rect))
  {
    seq(|edges|, i requires 0 <= i < |edges| => AddRect(Band(edges[i], width, rect)))
  }

  /** `EdgeBorder.path(in:)`. */
  method EdgeBorderPath(edges: seq<Edge>, width: real, rect: Rect) returns (path: Path)
    ensures fresh(path)
    ensures path.commands == Commands(edges, width, rect)
  {
    path := new Path();
    for i := 0 to |edges|
      invariant path.commands == Commands(edges[..i], width, rect)
    {
      var edge := edges[i];
      var x := if edge == Trailing then MaxX(rect) - width else MinX(rect);
      var y := if edge == Bottom then MaxY(rect) - width else MinY(rect);
      var w := if edge == Top || edge == Bottom then Width(rect) else width;
      var h := if edge == Top || edge == Bottom then width else Height(rect);
      path.AddRectangle(Rect(Point(x, y), Size(w, h)));
      assert Commands(edges[..i + 1], width, rect) == Commands(edges[..i], width, rect) + [AddRect(Band(edge, width, rect))];
    }
    assert edges[..|edges|] == edges;
  }

  /** A band no deeper than the rectangle lies inside the rectangle, flush with its own side:
      the top band shares the top edge and both x edges, and so on round the rectangle. */
  lemma BandOnItsSide(edge: Edge, width: real, rect: Rect)
    requires 0.0 <= width <= Min(Width(rect), Height(rect))
    ensures Inside(Band(edge, width, rect), rect)
    ensures edge == Top ==> var b := Band(edge, width, rect);
              MinY(b) == MinY(rect) && MaxY(b) == MinY(rect) + width && MinX(b) == MinX(rect) && MaxX(b) == MaxX(rect)
    ensures edge == Bottom ==> var b := Band(edge, width, rect);
              MaxY(b) == MaxY(rect) && MinY(b) == MaxY(rect) - width && MinX(b) == MinX(rect) && MaxX(b) == MaxX(rect)
    ensures edge == Leading ==> var b := Band(edge, width, rect);
              MinX(b) == MinX(rect) && MaxX(b) == MinX(rect) + width && MinY(b) == MinY(rect) && MaxY(b) == MaxY(rect)
    ensures edge == Trailing ==> var b := Band(edge, width, rect);
              MaxX(b) == MaxX(rect) && MinX(b) == MaxX(rect) - width && MinY(b) == MinY(rect) && MaxY(b) == MaxY(rect)
  {
  }

  /** Every listed edge gets its band, and nothing else is drawn: the path holds exactly the
      bands of the listed edges, repeats included. */
  lemma DrawsExactlyTheListedEdges(edges: seq<Edge>, width: real, rect: Rect, edge: Edge)
    ensures AddRect(Band(edge, width, rect)) in Commands(edges, width, rect) <==>
            exists e :: e in edges && Band(e, width, rect) == Band(edge, width, rect)
  {
    var cmds := Commands(edges, width, rect);
    if AddRect(Band(edge, width, rect)) in cmds {
      var i :| 0 <= i < |cmds| && cmds[i] == AddRect(Band(edge, width, rect));
      assert edges[i] in edges;
    }
    if exists e :: e in edges && Band(e, width, rect) == Band(edge, width, rect) {
      var e :| e in edges && Band(e, width, rect) == Band(edge, width, rect);
      var i :| 0 <= i < |edges| && edges[i] == e;
      assert cmds[i] == AddRect(Band(edge, width, rect));
    }
  }
}
