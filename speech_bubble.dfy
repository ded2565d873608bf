/** `SpeechBubble`: the rectangle's outline, walked clockwise from the top-left corner, with a
    triangular arrow pushed out of the middle of one side. Coordinates are measured from
    (0, 0). The top and bottom arrows are `arrowSize.width` wide and stick out by
    `arrowSize.height`; the left and right arrows are `arrowSize.height` wide and stick out by
    `arrowSize.width`. */
module SpeechBubbles {
  import opened Geometry
  import opened Paths

  datatype ArrowPosition = Top | Bottom | Left | Right

  /** The points visited along the top side, ending at the top-right corner. */
  function TopSide(position: ArrowPosition, w: real, arrow: Size): (ps: seq<Point>)
  {
    if position == Top then
      [Point(w * 0.5 - arrow.width * 0.5, 0.0), Point(w * 0.5, -arrow.height),
       Point(w * 0.5 + arrow.width * 0.5, 0.0), Point(w, 0.0)]
    else [Point(w, 0.0)]
  }

  /** Along the right side, ending at the bottom-right corner. */
  function RightSide(position: ArrowPosition, w: real, h: real, arrow: Size): (ps: seq<Point>)
  {
    if position == Right then
      [Point(w, h * 0.5 - arrow.height * 0.5), Point(w + arrow.width, h * 0.5),
       Point(w, h * 0.5 + arrow.height * 0.5), Point(w, h)]
    else [Point(w, h)]
  }

  /** Along the bottom side, right to left, ending at the bottom-left corner. */
  function BottomSide(position: ArrowPosition, w: real, h: real, arrow: Size): (ps: seq<Point>)
  {
    if position == Bottom then
      [Point(w * 0.5 + arrow.width * 0.5, h), Point(w * 0.5, h + arrow.height),
       Point(w * 0.5 - arrow.width * 0.5, h), Point(0.0, h)]
    else [Point(0.0, h)]
  }

  /** Along the left side, bottom to top, ending at `end`. */
  function LeftSide(position: ArrowPosition, h: real, arrow: Size, end: Point): (ps: seq<Point>)
  {
    if position == Left then
      [Point(0.0, h * 0.5 + arrow.height * 0.5), Point(0.0 - arrow.width, h * 0.5),
       Point(0.0, h * 0.5 - arrow.height * 0.5), end]
    else [end]
  }

  /** The line targets of the whole walk, with the left side ending at `end`. */
  function Walk(position: ArrowPosition, arrow: Size, rect: Rect, end: Point): (ps: seq<Point>)
    ensures |ps| == 7
  {
    var w, h := Width(rect), Height(rect);
    TopSide(position, w, arrow) + RightSide(position, w, h, arrow)
    + BottomSide(position, w, h, arrow) + LeftSide(position, h, arrow, end)
  }

  /** The commands `path(in:)` issues as written: the left side ends at the bottom-left corner
      (0, height), where the bottom side already ended. */
  function AsWritten(position: ArrowPosition, arrow: Size, rect: Rect): (cmds: seq<PathCommand>)
  {
    [MoveTo(Point(0.0, 0.0))] + Lines(Walk(position, arrow, rect, Point(0.0, Height(rect))))
  }

  /** The outline as evidently intended: the left side climbs back to the top-left corner. */
  function Outline(position: ArrowPosition, arrow: Size, rect: Rect): (cmds: seq<PathCommand>)
  {
    [MoveTo(Point(0.0, 0.0))] + Lines(Walk(position, arrow, rect, Point(0.0, 0.0)))
  }

  /** `SpeechBubble.path(in:)`, as written, one side at a time. */
  method SpeechBubblePath(position: ArrowPosition, arrowSize: Size, rect: Rect) returns (path: Path)
    ensures fresh(path)
    ensures path.commands == AsWritten(position, arrowSize, rect)
  {
    var w, h := Width(rect), Height(rect);
    path := new Path();
    path.Move(Point(0.0, 0.0));
    DrawTop(path, position, w, arrowSize);
    DrawRight(path, position, w, h, arrowSize);
    DrawBottom(path, position, w, h, arrowSize);
    DrawLeft(path, position, h, arrowSize);
    ghost var top, right := TopSide(position, w, arrowSize), RightSide(position, w, h, arrowSize);
    ghost var bottom, left := BottomSide(position, w, h, arrowSize), LeftSide(position, h, arrowSize, Point(0.0, h));
    assert path.commands == [MoveTo(Point(0.0, 0.0))] + (Lines(top) + Lines(right) + Lines(bottom) + Lines(left));
    LinesConcat(top, right);
    LinesConcat(top + right, bottom);
    LinesConcat(top + right + bottom, left);
    assert Walk(position, arrowSize, rect, Point(0.0, h)) == top + right + bottom + left;
  }

  /** The top border: around the arrow if it is on top, otherwise straight to the corner. */
  method DrawTop(path: Path, position: ArrowPosition, w: real, arrowSize: Size)
    modifies path
    ensures path.commands == old(path.commands) + Lines(TopSide(position, w, arrowSize))
  {
    var arrowHalfWidth := arrowSize.width * 0.5;
    if position == Top {
      path.AddLine(Point(w * 0.5 - arrowHalfWidth, 0.0));
      path.AddLine(Point(w * 0.5, -arrowSize.height));
      path.AddLine(Point(w * 0.5 + arrowHalfWidth, 0.0));
      path.AddLine(Point(w, 0.0));
    } else {
      path.AddLine(Point(w, 0.0));
    }
  }

  /** The right border. */
  method DrawRight(path: Path, position: ArrowPosition, w: real, h: real, arrowSize: Size)
    modifies path
    ensures path.commands == old(path.commands) + Lines(RightSide(position, w, h, arrowSize))
  {
    var arrowHalfHeight := arrowSize.height * 0.5;
    if position == Right {
      path.AddLine(Point(w, h * 0.5 - arrowHalfHeight));
      path.AddLine(Point(w + arrowSize.width, h * 0.5));
      path.AddLine(Point(w, h * 0.5 + arrowHalfHeight));
      path.AddLine(Point(w, h));
    } else {
      path.AddLine(Point(w, h));
    }
  }

  /** The bottom border. */
  method DrawBottom(path: Path, position: ArrowPosition, w: real, h: real, arrowSize: Size)
    modifies path
    ensures path.commands == old(path.commands) + Lines(BottomSide(position, w, h, arrowSize))
  {
    var arrowHalfWidth := arrowSize.width * 0.5;
    if position == Bottom {
      path.AddLine(Point(w * 0.5 + arrowHalfWidth, h));
      path.AddLine(Point(w * 0.5, h + arrowSize.height));
      path.AddLine(Point(w * 0.5 - arrowHalfWidth, h));
      path.AddLine(Point(0.0, h));
    } else {
      path.AddLine(Point(0.0, h));
    }
  }

  /** The left border, as written: both branches end at the bottom-left corner. */
  method DrawLeft(path: Path, position: ArrowPosition, h: real, arrowSize: Size)
    modifies path
    ensures path.commands == old(path.commands) + Lines(LeftSide(position, h, arrowSize, Point(0.0, h)))
  {
    var arrowHalfHeight := arrowSize.height * 0.5;
    if position == Left {
      path.AddLine(Point(0.0, h * 0.5 + arrowHalfHeight));
      path.AddLine(Point(0.0 - arrowSize.width, h * 0.5));
      path.AddLine(Point(0.0, h * 0.5 - arrowHalfHeight));
      path.AddLine(Point(0.0, h));
    } else {
      path.AddLine(Point(0.0, h));
    }
  }

  /** As written, the outline never returns to its start on a rectangle of non-zero height:
      its last line goes to the bottom-left corner, and without a left arrow that line has
      zero length, so the left side is never drawn. */
  lemma AsWrittenNeverCloses(position: ArrowPosition, arrow: Size, rect: Rect)
    ensures var cmds := AsWritten(position, arrow, rect);
            && |cmds| == 8
            && cmds[0] == MoveTo(Point(0.0, 0.0))
            && (forall i :: 1 <= i < |cmds| ==> cmds[i].LineTo?)
            && cmds[7] == LineTo(Point(0.0, Height(rect)))
            && (position != Left ==> cmds[6] == cmds[7])
    ensures Height(rect) != 0.0 ==> !Closed(AsWritten(position, arrow, rect))
  {
  }

  /** The intended outline is one closed subpath of seven lines, and it differs from the
      outline as written in its last line only. */
  lemma OutlineIsClosed(position: ArrowPosition, arrow: Size, rect: Rect)
    ensures Closed(Outline(position, arrow, rect))
    ensures |Outline(position, arrow, rect)| == 8
    ensures Outline(position, arrow, rect)[..7] == AsWritten(position, arrow, rect)[..7]
  {
    var w, h := Width(rect), Height(rect);
    var closing := Walk(position, arrow, rect, Point(0.0, 0.0));
    var open := Walk(position, arrow, rect, Point(0.0, h));
    assert closing[..6] == open[..6];
  }

  /** Where the arrow's tip is: in the middle of its side, pushed outwards, at the same place
      in the intended outline and the one as written. */
  function Tip(position: ArrowPosition, arrow: Size, rect: Rect): (tip: Point)
  {
    var w, h := Width(rect), Height(rect);
    match position
    case Top => Point(w * 0.5, -arrow.height)
    case Right => Point(w + arrow.width, h * 0.5)
    case Bottom => Point(w * 0.5, h + arrow.height)
    case Left => Point(-arrow.width, h * 0.5)
  }

  /** The index of the line to the tip, after the move and the lines of the sides before it. */
  function TipIndex(position: ArrowPosition): (k: nat)
    ensures 2 <= k <= 5
  {
    match position
    case Top => 2
    case Right => 3
    case Bottom => 4
    case Left => 5
  }

  /** The outline draws the tip between two base points on the rectangle's side, symmetric
      about the side's midpoint and one arrow width apart; for a positive arrow size the tip
      lies outside the rectangle. */
  lemma ArrowShape(position: ArrowPosition, arrow: Size, rect: Rect)
    ensures var cmds := Outline(position, arrow, rect);
            var k := TipIndex(position);
            var before, after := cmds[k - 1].to, cmds[k + 1].to;
            var w, h := Width(rect), Height(rect);
            && cmds[k] == LineTo(Tip(position, arrow, rect))
            && (position == Top ==>
                  before.y == after.y == 0.0 && before.x + after.x == w && after.x - before.x == arrow.width)
            && (position == Bottom ==>
                  before.y == after.y == h && before.x + after.x == w && before.x - after.x == arrow.width)
            && (position == Right ==>
                  before.x == after.x == w && before.y + after.y == h && after.y - before.y == arrow.height)
            && (position == Left ==>
                  before.x == after.x == 0.0 && before.y + after.y == h && before.y - after.y == arrow.height)
    ensures arrow.width > 0.0 && arrow.height > 0.0 ==>
              var tip := Tip(position, arrow, rect);
              tip.x < 0.0 || tip.x > Width(rect) || tip.y < 0.0 || tip.y > Height(rect)
    ensures AsWritten(position, arrow, rect)[TipIndex(position)] == Outline(position, arrow, rect)[TipIndex(position)]
  {
    OutlineIsClosed(position, arrow, rect);
  }

  /** The intended outline passes through all four corners of the box, clockwise. */
  lemma VisitsCorners(position: ArrowPosition, arrow: Size, rect: Rect)
    ensures var cmds := Outline(position, arrow, rect);
            var w, h := Width(rect), Height(rect);
            exists i, j, k :: 0 < i < j < k < |cmds| - 1
              && cmds[i] == LineTo(Point(w, 0.0)) && cmds[j] == LineTo(Point(w, h))
              && cmds[k] == LineTo(Point(0.0, h)) && cmds[|cmds| - 1] == LineTo(Point(0.0, 0.0))
  {
    var cmds := Outline(position, arrow, rect);
    var w, h := Width(rect), Height(rect);
    match position
    case Top =>
      assert cmds[4] == LineTo(Point(w, 0.0)) && cmds[5] == LineTo(Point(w, h)) && cmds[6] == LineTo(Point(0.0, h));
    case Right =>
      assert cmds[1] == LineTo(Point(w, 0.0)) && cmds[5] == LineTo(Point(w, h)) && cmds[6] == LineTo(Point(0.0, h));
    case Bottom =>
      assert cmds[1] == LineTo(Point(w, 0.0)) && cmds[2] == LineTo(Point(w, h)) && cmds[6] == LineTo(Point(0.0, h));
    case Left =>
      assert cmds[1] == LineTo(Point(w, 0.0)) && cmds[2] == LineTo(Point(w, h)) && cmds[3] == LineTo(Point(0.0, h));
  }
}
