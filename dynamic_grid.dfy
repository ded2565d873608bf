/** `DynamicGrid`, a row-first layout: subviews are placed left to right and wrap to a new
    row when the next one would pass the proposed width. The row cache is a class whose fields
    `sizeThatFits` fills in place; `placeSubviews` reads it back and reports where each subview
    goes. */
module DynamicGridLayout {
  import opened Outcomes
  import opened Geometry

  /** The horizontal alignment of each row; `Custom` stands for every other alignment, which
      the layout treats like `Center`. */
  datatype Alignment = Leading | Center | Trailing | Custom

  datatype DynamicGrid = DynamicGrid(alignment: Alignment, horizontalSpacing: real, verticalSpacing: real)

  /** The grid `DynamicGrid()` builds with its default arguments. */
  const DefaultGrid := DynamicGrid(Center, 10.0, 10.0)

  /** A subview in a row: its index and how far the next subview's x lies beyond its own. */
  datatype Entry = Entry(index: nat, advance: real)

  /** `_DynamicGridLayoutCache.Row`. */
  datatype Row = Row(subviewIndices: seq<Entry>, size: Size)

  /** `_DynamicGridLayoutCache`: the rows of the last layout and their total height. */
  class GridCache {
    var rows: seq<Row>
    var totalHeight: real

    /** `makeCache`: an empty cache. */
    constructor()
      ensures rows == [] && totalHeight == 0.0
    {
      rows := [];
      totalHeight := 0.0;
    }

    /** Adds a finished row and its height, as `sizeThatFits` does at every row break. */
    method AppendRow(row: Row)
      modifies this
      ensures rows == old(rows) + [row]
      ensures totalHeight == old(totalHeight) + row.size.height
    {
      rows := rows + [row];
      totalHeight := totalHeight + row.size.height;
    }

    /** `updateCache`: back to an empty cache. */
    method Reset()
      modifies this
      ensures rows == [] && totalHeight == 0.0
    {
      rows := [];
      totalHeight := 0.0;
    }
  }

  // ----- The greedy wrapping, as a specification -----

  /** The row being filled: its entries, width and height so far. */
  datatype Pending = Pending(entries: seq<Entry>, width: real, height: real)

  /** The state of the loop in `sizeThatFits`: the finished rows and the row being filled. */
  datatype Wrapping = Wrapping(rows: seq<Row>, current: Pending)

  /** Whether subview size `s` fits on the row being filled; spacing is counted only when
      the row already has some width. */
  predicate FitsOnRow(g: DynamicGrid, proposalWidth: real, current: Pending, s: Size)
  {
    var spaced := if current.width > 0.0 then s.width + g.horizontalSpacing else s.width;
    current.width + spaced <= proposalWidth
  }

  /** One pass of the loop, for subview `i` of size `s`. A subview that does not fit closes the
      current row, even an empty one, and starts a new row with itself. */
  function PlaceNext(g: DynamicGrid, proposalWidth: real, w: Wrapping, i: nat, s: Size): (next: Wrapping)
    ensures FitsOnRow(g, proposalWidth, w.current, s) ==>
              next.rows == w.rows && next.current.entries == w.current.entries + [Entry(i, s.width + g.horizontalSpacing)]
    ensures !FitsOnRow(g, proposalWidth, w.current, s) ==>
              && next.rows == w.rows + [Row(w.current.entries, Size(w.current.width, w.current.height))]
              && next.current == Pending([Entry(i, s.width + g.horizontalSpacing)], s.width, s.height)
  {
    var spaced := if w.current.width > 0.0 then s.width + g.horizontalSpacing else s.width;
    var entry := Entry(i, s.width + g.horizontalSpacing);
    if FitsOnRow(g, proposalWidth, w.current, s) then
      Wrapping(w.rows, Pending(w.current.entries + [entry], w.current.width + spaced, Max(w.current.height, s.height)))
    else
      Wrapping(w.rows + [Row(w.current.entries, Size(w.current.width, w.current.height))],
               Pending([entry], s.width, s.height))
  }

  /** The loop state after the first `n` subviews. */
  function WrapAll(g: DynamicGrid, proposalWidth: real, sizes: seq<Size>, n: nat): (w: Wrapping)
    requires n <= |sizes|
  {
    if n == 0 then Wrapping([], Pending([], 0.0, 0.0))
    else PlaceNext(g, proposalWidth, WrapAll(g, proposalWidth, sizes, n - 1), n - 1, sizes[n - 1])
  }

  /** The rows `sizeThatFits` stores for a finite proposed width: the finished rows, and the
      last row when it holds anything. */
  function Rows(g: DynamicGrid, proposalWidth: real, sizes: seq<Size>): (rows: seq<Row>)
  {
    var w := WrapAll(g, proposalWidth, sizes, |sizes|);
    w.rows + LastRow(w.current)
  }

  /** The row being filled when the loop ends, stored only if it holds anything. */
  function LastRow(current: Pending): (rows: seq<Row>)
  {
    if |current.entries| == 0 then [] else [Row(current.entries, Size(current.width, current.height))]
  }

  function SumHeights(rows: seq<Row>): (h: real)
  {
    if |rows| == 0 then 0.0 else SumHeights(rows[..|rows| - 1]) + rows[|rows| - 1].size.height
  }

  lemma SumHeightsAppend(rows: seq<Row>, r: Row)
    ensures SumHeights(rows + [r]) == SumHeights(rows) + r.size.height
  {
    assert (rows + [r])[..|rows|] == rows;
  }

  /** The height of the rows stacked with `verticalSpacing` between neighbours. */
  function TotalHeight(rows: seq<Row>, verticalSpacing: real): (h: real)
    ensures |rows| == 0 ==> h == 0.0
    ensures |rows| > 0 ==> h == SumHeights(rows) + (|rows| - 1) as real * verticalSpacing
  {
    if |rows| == 0 then 0.0 else SumHeights(rows) + (|rows| - 1) as real * verticalSpacing
  }

  function SumWidths(sizes: seq<Size>): (w: real)
  {
    if |sizes| == 0 then 0.0 else SumWidths(sizes[..|sizes| - 1]) + sizes[|sizes| - 1].width
  }

  /** The greatest height among `sizes`, or 0 when there are none. */
  function MaxHeight(sizes: seq<Size>): (h: real)
    ensures forall i :: 0 <= i < |sizes| ==> sizes[i].height <= h
    ensures |sizes| > 0 ==> exists i :: 0 <= i < |sizes| && sizes[i].height == h
    ensures |sizes| == 0 ==> h == 0.0
  {
    if |sizes| == 0 then 0.0
    else if |sizes| == 1 then sizes[0].height
    else Max(MaxHeight(sizes[..|sizes| - 1]), sizes[|sizes| - 1].height)
  }

  // ----- sizeThatFits -----

  /** `DynamicGrid.sizeThatFits`, given the sizes the subviews report for the proposal and the
      proposed width (`None` for a missing or infinite one). Without a finite width the cache is
      left alone and the answer is one row of all subviews without spacing; otherwise the cache
      is rebuilt with the wrapped rows and their stacked height, which is the answer's height. */
  method SizeThatFits(g: DynamicGrid, proposalWidth: Option<real>, sizes: seq<Size>, cache: GridCache)
    returns (size: Size)
    modifies cache
    ensures proposalWidth.None? ==>
              size == Size(SumWidths(sizes), MaxHeight(sizes)) && unchanged(cache)
    ensures proposalWidth.Some? ==>
              && cache.rows == Rows(g, proposalWidth.value, sizes)
              && cache.totalHeight == TotalHeight(cache.rows, g.verticalSpacing)
              && size == Size(proposalWidth.value, cache.totalHeight)
  {
    if proposalWidth.None? {
      return Size(SumWidths(sizes), MaxHeight(sizes));
    }
    var pw := proposalWidth.value;
    cache.rows := [];
    cache.totalHeight := 0.0;
    var currentRowWidth: real := 0.0;
    var currentRowHeight: real := 0.0;
    var currentRow: seq<Entry> := [];
    for i := 0 to |sizes|
      invariant WrapAll(g, pw, sizes, i) == Wrapping(cache.rows, Pending(currentRow, currentRowWidth, currentRowHeight))
      invariant cache.totalHeight == SumHeights(cache.rows)
    {
      var subviewWidth := sizes[i].width;
      var subviewWidthWithSpacing: real;
      if currentRowWidth > 0.0 {
        subviewWidthWithSpacing := subviewWidth + g.horizontalSpacing;
      } else {
        subviewWidthWithSpacing := subviewWidth;
      }
      var subviewHeight := sizes[i].height;
      ghost var before := Wrapping(cache.rows, Pending(currentRow, currentRowWidth, currentRowHeight));
      assert WrapAll(g, pw, sizes, i + 1) == PlaceNext(g, pw, before, i, sizes[i]);
      if currentRowWidth + subviewWidthWithSpacing <= pw {
        currentRow := currentRow + [Entry(i, subviewWidth + g.horizontalSpacing)];
        currentRowWidth := currentRowWidth + subviewWidthWithSpacing;
        currentRowHeight := Max(currentRowHeight, subviewHeight);
      } else {
        var finished := cache.rows;
        var closed := Row(currentRow, Size(currentRowWidth, currentRowHeight));
        cache.AppendRow(closed);
        SumHeightsAppend(finished, closed);
        currentRow := [Entry(i, subviewWidth + g.horizontalSpacing)];
        currentRowWidth := subviewWidth;
        currentRowHeight := subviewHeight;
      }
      assert WrapAll(g, pw, sizes, i + 1) == Wrapping(cache.rows, Pending(currentRow, currentRowWidth, currentRowHeight));
    }
    FinishRows(g.verticalSpacing, cache, Pending(currentRow, currentRowWidth, currentRowHeight));
    return Size(pw, cache.totalHeight);
  }

  /** The end of `sizeThatFits`: stores the last row if it holds anything, then adds the
      spacing between the rows to the cached height. */
  method FinishRows(verticalSpacing: real, cache: GridCache, current: Pending)
    modifies cache
    requires cache.totalHeight == SumHeights(cache.rows)
    ensures cache.rows == old(cache.rows) + LastRow(current)
    ensures cache.totalHeight == TotalHeight(cache.rows, verticalSpacing)
  {
    if |current.entries| != 0 {
      var finished := cache.rows;
      var last := Row(current.entries, Size(current.width, current.height));
      cache.AppendRow(last);
      SumHeightsAppend(finished, last);
    }
    if |cache.rows| != 0 {
      var spacing := (|cache.rows| - 1) as real * verticalSpacing;
      cache.totalHeight := cache.totalHeight + spacing;
    }
  }

  // ----- Properties of the wrapping -----

  /** The subview indices of some entries, in order. */
  function Indices(entries: seq<Entry>): (ix: seq<nat>)
    ensures |ix| == |entries|
  {
    if |entries| == 0 then [] else Indices(entries[..|entries| - 1]) + [entries[|entries| - 1].index]
  }

  /** The subview indices of all rows, row after row. */
  function Flatten(rows: seq<Row>): (ix: seq<nat>)
  {
    if |rows| == 0 then [] else Flatten(rows[..|rows| - 1]) + Indices(rows[|rows| - 1].subviewIndices)
  }

  /** The indices 0, 1, ..., n - 1. */
  function Range(n: nat): (r: seq<nat>)
    ensures |r| == n
  {
    if n == 0 then [] else Range(n - 1) + [n - 1]
  }

  lemma IndicesAppend(entries: seq<Entry>, e: Entry)
    ensures Indices(entries + [e]) == Indices(entries) + [e.index]
  {
    assert (entries + [e])[..|entries|] == entries;
  }

  lemma FlattenAppend(rows: seq<Row>, r: Row)
    ensures Flatten(rows + [r]) == Flatten(rows) + Indices(r.subviewIndices)
  {
    assert (rows + [r])[..|rows|] == rows;
  }

  /** One pass of the loop adds subview `i` after the indices already listed. */
  lemma PlaceNextIndices(g: DynamicGrid, pw: real, w: Wrapping, i: nat, s: Size)
    ensures var next := PlaceNext(g, pw, w, i, s);
            Flatten(next.rows) + Indices(next.current.entries) == Flatten(w.rows) + Indices(w.current.entries) + [i]
  {
    var next := PlaceNext(g, pw, w, i, s);
    var e := Entry(i, s.width + g.horizontalSpacing);
    if FitsOnRow(g, pw, w.current, s) {
      IndicesAppend(w.current.entries, e);
    } else {
      FlattenAppend(w.rows, Row(w.current.entries, Size(w.current.width, w.current.height)));
      IndicesAppend([], e);
      assert [] + [e] == [e];
    }
  }

  lemma {:induction false} WrapAllCoversIndices(g: DynamicGrid, pw: real, sizes: seq<Size>, n: nat)
    requires n <= |sizes|
    ensures var w := WrapAll(g, pw, sizes, n); Flatten(w.rows) + Indices(w.current.entries) == Range(n)
  {
    if n == 0 {
      assert WrapAll(g, pw, sizes, n).rows == [];
      assert WrapAll(g, pw, sizes, n).current.entries == [];
    } else {
      WrapAllCoversIndices(g, pw, sizes, n - 1);
      PlaceNextIndices(g, pw, WrapAll(g, pw, sizes, n - 1), n - 1, sizes[n - 1]);
    }
  }

  /** Reading the rows in order lists every subview exactly once, in index order. */
  lemma RowsCoverIndices(g: DynamicGrid, pw: real, sizes: seq<Size>)
    ensures Flatten(Rows(g, pw, sizes)) == Range(|sizes|)
  {
    WrapAllCoversIndices(g, pw, sizes, |sizes|);
    var w := WrapAll(g, pw, sizes, |sizes|);
    assert Rows(g, pw, sizes) == w.rows + LastRow(w.current);
    if |w.current.entries| == 0 {
      assert Indices(w.current.entries) == [];
      assert w.rows + LastRow(w.current) == w.rows;
    } else {
      FlattenAppend(w.rows, Row(w.current.entries, Size(w.current.width, w.current.height)));
    }
  }

  /** A row is within the proposed width unless it holds exactly one subview. */
  predicate Fits(pw: real, entries: seq<Entry>, width: real)
  {
    width <= pw || |entries| == 1
  }

  lemma {:induction false} WrapAllFits(g: DynamicGrid, pw: real, sizes: seq<Size>, n: nat)
    requires n <= |sizes| && pw >= 0.0
    ensures var w := WrapAll(g, pw, sizes, n);
            && (forall k :: 0 <= k < |w.rows| ==> Fits(pw, w.rows[k].subviewIndices, w.rows[k].size.width))
            && Fits(pw, w.current.entries, w.current.width)
  {
    if n > 0 {
      WrapAllFits(g, pw, sizes, n - 1);
    }
  }

  /** With a non-negative proposed width, a row wider than the proposal holds exactly one
      subview; every row of several subviews fits the proposal. */
  lemma WideRowIsSingle(g: DynamicGrid, pw: real, sizes: seq<Size>, k: nat)
    requires pw >= 0.0 && k < |Rows(g, pw, sizes)|
    ensures Rows(g, pw, sizes)[k].size.width > pw ==> |Rows(g, pw, sizes)[k].subviewIndices| == 1
  {
    WrapAllFits(g, pw, sizes, |sizes|);
  }

  /** Entries that name subviews before `n` and carry the subview's width plus the spacing. */
  predicate EntriesOf(g: DynamicGrid, sizes: seq<Size>, n: nat, entries: seq<Entry>)
  {
    n <= |sizes| &&
    forall j :: 0 <= j < |entries| ==>
      entries[j].index < n && entries[j].advance == sizes[entries[j].index].width + g.horizontalSpacing
  }

  /** The greatest height among the subviews of some entries, and 0 for none. */
  function EntriesMaxHeight(sizes: seq<Size>, entries: seq<Entry>): (h: real)
    requires forall j :: 0 <= j < |entries| ==> entries[j].index < |sizes|
  {
    if |entries| == 0 then 0.0
    else Max(EntriesMaxHeight(sizes, entries[..|entries| - 1]), sizes[entries[|entries| - 1].index].height)
  }

  predicate NonNegativeHeights(sizes: seq<Size>)
  {
    forall i :: 0 <= i < |sizes| ==> sizes[i].height >= 0.0
  }

  /** A (finished or pending) row whose entries are well formed and whose height is the
      tallest of its subviews. */
  predicate RowShaped(g: DynamicGrid, sizes: seq<Size>, n: nat, entries: seq<Entry>, height: real)
  {
    EntriesOf(g, sizes, n, entries) && height == EntriesMaxHeight(sizes, entries)
  }

  /** A shaped row stays shaped once more subviews have been seen. */
  lemma ShapedLater(g: DynamicGrid, sizes: seq<Size>, n: nat, entries: seq<Entry>, height: real)
    requires n < |sizes| && RowShaped(g, sizes, n, entries, height)
    ensures RowShaped(g, sizes, n + 1, entries, height)
  {
  }

  /** Adding subview `n` to a shaped row keeps it shaped, its height growing to fit. */
  lemma ShapedAppend(g: DynamicGrid, sizes: seq<Size>, n: nat, entries: seq<Entry>, height: real)
    requires n < |sizes| && RowShaped(g, sizes, n, entries, height)
    ensures RowShaped(g, sizes, n + 1, entries + [Entry(n, sizes[n].width + g.horizontalSpacing)],
                      Max(height, sizes[n].height))
  {
    assert (entries + [Entry(n, sizes[n].width + g.horizontalSpacing)])[..|entries|] == entries;
  }

  /** One pass of the loop keeps the row being filled shaped. */
  lemma PendingShapedStep(g: DynamicGrid, pw: real, sizes: seq<Size>, n: nat, w: Wrapping)
    requires n < |sizes| && NonNegativeHeights(sizes)
    requires RowShaped(g, sizes, n, w.current.entries, w.current.height)
    ensures var next := PlaceNext(g, pw, w, n, sizes[n]);
            RowShaped(g, sizes, n + 1, next.current.entries, next.current.height)
  {
    var s := sizes[n];
    var next := PlaceNext(g, pw, w, n, s);
    if FitsOnRow(g, pw, w.current, s) {
      ShapedAppend(g, sizes, n, w.current.entries, w.current.height);
      assert next.current.entries == w.current.entries + [Entry(n, s.width + g.horizontalSpacing)];
      assert next.current.height == Max(w.current.height, s.height);
    } else {
      ShapedAppend(g, sizes, n, [], 0.0);
      assert Max(0.0, s.height) == s.height;
      assert next.current.entries == [] + [Entry(n, s.width + g.horizontalSpacing)];
      assert next.current.height == s.height;
    }
  }

  /** One pass of the loop keeps the finished rows shaped, including a row it closes. */
  lemma RowsShapedStep(g: DynamicGrid, pw: real, sizes: seq<Size>, n: nat, w: Wrapping)
    requires n < |sizes|
    requires forall k :: 0 <= k < |w.rows| ==> RowShaped(g, sizes, n, w.rows[k].subviewIndices, w.rows[k].size.height)
    requires RowShaped(g, sizes, n, w.current.entries, w.current.height)
    ensures var next := PlaceNext(g, pw, w, n, sizes[n]);
            forall k :: 0 <= k < |next.rows| ==>
              RowShaped(g, sizes, n + 1, next.rows[k].subviewIndices, next.rows[k].size.height)
  {
    var next := PlaceNext(g, pw, w, n, sizes[n]);
    forall k | 0 <= k < |next.rows|
      ensures RowShaped(g, sizes, n + 1, next.rows[k].subviewIndices, next.rows[k].size.height)
    {
      if k < |w.rows| {
        assert next.rows[k] == w.rows[k];
        ShapedLater(g, sizes, n, w.rows[k].subviewIndices, w.rows[k].size.height);
      } else {
        assert next.rows[k] == Row(w.current.entries, Size(w.current.width, w.current.height));
        ShapedLater(g, sizes, n, w.current.entries, w.current.height);
      }
    }
  }

  lemma {:induction false} WrapAllShaped(g: DynamicGrid, pw: real, sizes: seq<Size>, n: nat)
    requires n <= |sizes| && NonNegativeHeights(sizes)
    ensures var w := WrapAll(g, pw, sizes, n);
            && (forall k :: 0 <= k < |w.rows| ==>
                  RowShaped(g, sizes, n, w.rows[k].subviewIndices, w.rows[k].size.height))
            && RowShaped(g, sizes, n, w.current.entries, w.current.height)
  {
    if n > 0 {
      WrapAllShaped(g, pw, sizes, n - 1);
      var w := WrapAll(g, pw, sizes, n - 1);
      assert WrapAll(g, pw, sizes, n) == PlaceNext(g, pw, w, n - 1, sizes[n - 1]);
      RowsShapedStep(g, pw, sizes, n - 1, w);
      PendingShapedStep(g, pw, sizes, n - 1, w);
    }
  }

  /** With non-negative subview heights, every row's height is the tallest of its subviews
      and every stored advance is the subview's width plus the horizontal spacing. */
  lemma RowHeightIsMax(g: DynamicGrid, pw: real, sizes: seq<Size>, k: nat)
    requires NonNegativeHeights(sizes) && k < |Rows(g, pw, sizes)|
    ensures var row := Rows(g, pw, sizes)[k];
            && EntriesOf(g, sizes, |sizes|, row.subviewIndices)
            && row.size.height == EntriesMaxHeight(sizes, row.subviewIndices)
  {
    WrapAllShaped(g, pw, sizes, |sizes|);
  }

  /** Only the first row can be empty, and it is exactly when the first subview is wider than
      the proposal; such a row has size zero. */
  predicate EmptyRowsShaped(pw: real, sizes: seq<Size>, rows: seq<Row>)
    requires |sizes| > 0
  {
    && (forall k :: 1 <= k < |rows| ==> |rows[k].subviewIndices| >= 1)
    && ((|rows| >= 1 && |rows[0].subviewIndices| == 0) <==> sizes[0].width > pw)
    && (|rows| >= 1 && |rows[0].subviewIndices| == 0 ==> rows[0].size == Size(0.0, 0.0))
  }

  lemma {:induction false} WrapAllEmptyRows(g: DynamicGrid, pw: real, sizes: seq<Size>, n: nat)
    requires 1 <= n <= |sizes|
    ensures EmptyRowsShaped(pw, sizes, WrapAll(g, pw, sizes, n).rows)
  {
    if n > 1 {
      WrapAllEmptyRows(g, pw, sizes, n - 1);
      var w := WrapAll(g, pw, sizes, n - 1);
      assert |w.current.entries| >= 1;
    }
  }

  lemma LeadingEmptyRow(g: DynamicGrid, pw: real, sizes: seq<Size>)
    ensures var rows := Rows(g, pw, sizes);
            && (forall k :: 1 <= k < |rows| ==> |rows[k].subviewIndices| >= 1)
            && ((|rows| >= 1 && |rows[0].subviewIndices| == 0) <==> (|sizes| >= 1 && sizes[0].width > pw))
            && (|rows| >= 1 && |rows[0].subviewIndices| == 0 ==> rows[0].size == Size(0.0, 0.0))
  {
    if |sizes| >= 1 {
      WrapAllEmptyRows(g, pw, sizes, |sizes|);
      var w := WrapAll(g, pw, sizes, |sizes|);
      assert |w.current.entries| >= 1;
      var rows := Rows(g, pw, sizes);
      assert rows[..|w.rows|] == w.rows;
    }
  }

  // ----- placeSubviews -----

  /** Where `placeSubviews` puts a subview. */
  datatype Placement = Placement(index: nat, x: real, y: real)

  /** The x at which a row's first subview goes. */
  function RowStartX(g: DynamicGrid, bounds: Rect, row: Row): (x: real)
    ensures g.alignment == Leading ==> x == MinX(bounds)
    ensures g.alignment == Trailing ==> x + row.size.width == MinX(bounds) + Width(bounds)
    ensures (g.alignment == Center || g.alignment == Custom) ==>
              x - MinX(bounds) == (MinX(bounds) + Width(bounds)) - (x + row.size.width)
  {
    match g.alignment
    case Leading => MinX(bounds) + 0.0
    case Trailing => MinX(bounds) + (Width(bounds) - row.size.width)
    case _ => MinX(bounds) + (Width(bounds) - row.size.width) * 0.5
  }

  function SumAdvances(entries: seq<Entry>): (a: real)
  {
    if |entries| == 0 then 0.0 else SumAdvances(entries[..|entries| - 1]) + entries[|entries| - 1].advance
  }

  /** The subviews of one row placed from `x` on at height `y`. */
  function PlaceRow(entries: seq<Entry>, x: real, y: real): (ps: seq<Placement>)
    ensures |ps| == |entries|
  {
    if |entries| == 0 then []
    else
      var prefix := entries[..|entries| - 1];
      PlaceRow(prefix, x, y) + [Placement(entries[|entries| - 1].index, x + SumAdvances(prefix), y)]
  }

  /** The y of the row after `rows`: the bounds' origin plus each row's height and spacing. */
  function RowsOffsetY(bounds: Rect, verticalSpacing: real, rows: seq<Row>): (y: real)
  {
    if |rows| == 0 then bounds.origin.y
    else RowsOffsetY(bounds, verticalSpacing, rows[..|rows| - 1]) + rows[|rows| - 1].size.height + verticalSpacing
  }

  /** Every subview of every row placed. */
  function PlaceRows(g: DynamicGrid, bounds: Rect, rows: seq<Row>): (ps: seq<Placement>)
  {
    if |rows| == 0 then []
    else
      var prefix := rows[..|rows| - 1];
      var row := rows[|rows| - 1];
      PlaceRows(g, bounds, prefix) + PlaceRow(row.subviewIndices, RowStartX(g, bounds, row), RowsOffsetY(bounds, g.verticalSpacing, prefix))
  }

  /** `DynamicGrid.placeSubviews`: the placements of the cached rows, row by row; the cache
      is only read. */
  method PlaceSubviews(g: DynamicGrid, bounds: Rect, cache: GridCache) returns (placements: seq<Placement>)
    ensures placements == PlaceRows(g, bounds, cache.rows)
  {
    placements := [];
    var currentVerticalOffset := bounds.origin.y;
    var rows := cache.rows;
    for r := 0 to |rows|
      invariant placements == PlaceRows(g, bounds, rows[..r])
      invariant currentVerticalOffset == RowsOffsetY(bounds, g.verticalSpacing, rows[..r])
    {
      var row := rows[r];
      var currentHorizontalOffset := RowStartX(g, bounds, row);
      var before := placements;
      var entries := row.subviewIndices;
      for j := 0 to |entries|
        invariant placements == before + PlaceRow(entries[..j], RowStartX(g, bounds, row), currentVerticalOffset)
        invariant currentHorizontalOffset == RowStartX(g, bounds, row) + SumAdvances(entries[..j])
      {
        assert entries[..j + 1][..j] == entries[..j];
        placements := placements + [Placement(entries[j].index, currentHorizontalOffset, currentVerticalOffset)];
        currentHorizontalOffset := currentHorizontalOffset + entries[j].advance;
      }
      assert entries[..|entries|] == entries;
      assert rows[..r + 1][..r] == rows[..r];
      currentVerticalOffset := currentVerticalOffset + row.size.height + g.verticalSpacing;
    }
    assert rows[..|rows|] == rows;
  }

  /** Within a row, subview `j` sits at the row's start plus the advances of the subviews
      before it. */
  lemma {:induction false} PlaceRowAt(entries: seq<Entry>, x: real, y: real, j: nat)
    requires j < |entries|
    ensures PlaceRow(entries, x, y)[j] == Placement(entries[j].index, x + SumAdvances(entries[..j]), y)
    decreases |entries|
  {
    var prefix := entries[..|entries| - 1];
    if j < |entries| - 1 {
      PlaceRowAt(prefix, x, y, j);
      assert prefix[..j] == entries[..j];
    } else {
      assert prefix == entries[..j];
    }
  }

  /** The subview indices of some placements, in order. */
  function PlacedIndices(ps: seq<Placement>): (ix: seq<nat>)
    ensures |ix| == |ps|
  {
    if |ps| == 0 then [] else PlacedIndices(ps[..|ps| - 1]) + [ps[|ps| - 1].index]
  }

  lemma {:induction false} PlacedIndicesAppend(a: seq<Placement>, b: seq<Placement>)
    ensures PlacedIndices(a + b) == PlacedIndices(a) + PlacedIndices(b)
    decreases |b|
  {
    if |b| == 0 {
      assert a + b == a;
    } else {
      var b' := b[..|b| - 1];
      assert (a + b)[..|a + b| - 1] == a + b';
      PlacedIndicesAppend(a, b');
      calc {
        PlacedIndices(a + b);
        PlacedIndices(a + b') + [b[|b| - 1].index];
        PlacedIndices(a) + PlacedIndices(b') + [b[|b| - 1].index];
        PlacedIndices(a) + PlacedIndices(b);
      }
    }
  }

  lemma {:induction false} PlaceRowIndices(entries: seq<Entry>, x: real, y: real)
    ensures PlacedIndices(PlaceRow(entries, x, y)) == Indices(entries)
    decreases |entries|
  {
    if |entries| > 0 {
      var prefix := entries[..|entries| - 1];
      PlaceRowIndices(prefix, x, y);
      PlacedIndicesAppend(PlaceRow(prefix, x, y), [Placement(entries[|entries| - 1].index, x + SumAdvances(prefix), y)]);
    }
  }

  /** The placements visit the rows' subviews in the rows' order. */
  lemma {:induction false} PlaceRowsIndices(g: DynamicGrid, bounds: Rect, rows: seq<Row>)
    ensures PlacedIndices(PlaceRows(g, bounds, rows)) == Flatten(rows)
    decreases |rows|
  {
    if |rows| > 0 {
      var prefix := rows[..|rows| - 1];
      var row := rows[|rows| - 1];
      var ps := PlaceRow(row.subviewIndices, RowStartX(g, bounds, row), RowsOffsetY(bounds, g.verticalSpacing, prefix));
      PlaceRowsIndices(g, bounds, prefix);
      PlacedIndicesAppend(PlaceRows(g, bounds, prefix), ps);
      PlaceRowIndices(row.subviewIndices, RowStartX(g, bounds, row), RowsOffsetY(bounds, g.verticalSpacing, prefix));
    }
  }

  /** Laying out the rows `sizeThatFits` stores places every subview exactly once, in index
      order. */
  lemma LayoutPlacesEverySubviewOnce(g: DynamicGrid, pw: real, sizes: seq<Size>, bounds: Rect)
    ensures PlacedIndices(PlaceRows(g, bounds, Rows(g, pw, sizes))) == Range(|sizes|)
  {
    PlaceRowsIndices(g, bounds, Rows(g, pw, sizes));
    RowsCoverIndices(g, pw, sizes);
  }
}
