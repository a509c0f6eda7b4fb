/** The map's teams: first arrangement, seating and growth, one build at a time. */
module MapTeams {
  import opened Common
  import opened MapGeography

  datatype Bucket = Bucket(id: Id, members: seq<Id>)

  type Groups = map<Id, Box>
  type Seats = map<Id, map<Id, nat>>

  // ---------------------------------------------------------------- first arrangement

  /** The largest value that falls in each of `n` cells. */
  function Maxima(values: seq<int>, cells: seq<nat>, n: nat): (m: seq<int>)
    requires |cells| == |values| && forall i :: 0 <= i < |cells| ==> cells[i] < n
    ensures |m| == n && forall c :: 0 <= c < n ==> m[c] >= 0
    ensures forall i :: 0 <= i < |values| ==> m[cells[i]] >= values[i]
  {
    if values == [] then seq(n, _ => 0)
    else
      var k := |values| - 1;
      var m := Maxima(values[..k], cells[..k], n);
      m[cells[k] := Max(m[cells[k]], values[k])]
  }

  /** The largest is one of the values in the cell, or zero. */
  lemma {:induction false} MaximaAttained(values: seq<int>, cells: seq<nat>, n: nat, c: nat) returns (i: nat)
    requires |cells| == |values| && c < n && forall i :: 0 <= i < |cells| ==> cells[i] < n
    ensures Maxima(values, cells, n)[c] == 0
            || (i < |values| && cells[i] == c && values[i] == Maxima(values, cells, n)[c])
  {
    if values == [] {
      i := 0;
    } else {
      var k := |values| - 1;
      i := MaximaAttained(values[..k], cells[..k], n, c);
      if cells[k] == c && Maxima(values, cells, n)[c] == values[k] {
        i := k;
      }
    }
  }

  function Sum(s: seq<int>): int {
    if s == [] then 0 else Sum(s[..|s| - 1]) + s[|s| - 1]
  }

  /** Row and column of each bucket when they fill `count` columns row by row. */
  function RowsOf(n: nat, count: nat): (rows: seq<nat>)
    requires count > 0
    ensures |rows| == n && forall i :: 0 <= i < n ==> rows[i] < CeilDiv(n, count)
  {
    RowsReach(n, count);
    seq(n, i requires 0 <= i < n => i / count)
  }

  function ColumnsOf(n: nat, count: nat): (cols: seq<nat>)
    requires count > 0
    ensures |cols| == n && forall i :: 0 <= i < n ==> cols[i] < count
    ensures forall i :: 0 <= i < n && i < count ==> cols[i] == i
  {
    seq(n, i requires 0 <= i < n => ColumnAt(i, count))
  }

  function ColumnAt(i: nat, count: nat): (c: nat)
    requires count > 0
    ensures c < count && (i < count ==> c == i)
  {
    i % count
  }

  lemma {:induction false} RowsReach(n: nat, count: nat)
    requires count > 0
    ensures forall i :: 0 <= i < n ==> i / count < CeilDiv(n, count)
  {
    forall i | 0 <= i < n
      ensures i / count < CeilDiv(n, count)
    {
      RowBound(i, n, count);
    }
  }

  lemma {:induction false} SameRemainder(i: nat, j: nat, c: nat)
    requires c > 0 && i < j && i % c == j % c
    ensures i / c < j / c
  {
    assert i == i / c * c + i % c && j == j / c * c + j % c;
    if j / c <= i / c {
      Scale(j / c, i / c, c);
    }
  }

  lemma {:induction false} LaterRow(n: nat, count: nat, i: nat, j: nat)
    requires count > 0 && i < j < n && ColumnsOf(n, count)[i] == ColumnsOf(n, count)[j]
    ensures RowsOf(n, count)[i] < RowsOf(n, count)[j]
  {
    SameRemainder(i, j, count);
  }

  function WidthsOf(sizes: seq<Size>): (w: seq<int>)
    ensures |w| == |sizes| && forall i :: 0 <= i < |sizes| ==> w[i] == sizes[i].width
  {
    seq(|sizes|, i requires 0 <= i < |sizes| => sizes[i].width)
  }

  function HeightsOf(sizes: seq<Size>): (h: seq<int>)
    ensures |h| == |sizes| && forall i :: 0 <= i < |sizes| ==> h[i] == sizes[i].height
  {
    seq(|sizes|, i requires 0 <= i < |sizes| => sizes[i].height)
  }

  function ColumnWidths(sizes: seq<Size>, count: nat): seq<int>
    requires count > 0
  {
    Maxima(WidthsOf(sizes), ColumnsOf(|sizes|, count), count)
  }

  function RowHeights(sizes: seq<Size>, count: nat): seq<int>
    requires count > 0
  {
    Maxima(HeightsOf(sizes), RowsOf(|sizes|, count), CeilDiv(|sizes|, count))
  }

  /** How far an arrangement in `count` columns is from the viewport's shape; smaller is better. */
  function Score(sizes: seq<Size>, count: nat, aspect: real): real
    requires count > 0
  {
    var width := Sum(ColumnWidths(sizes, count)) + GAP_X * (count - 1);
    var height := Sum(RowHeights(sizes, count)) + GAP_Y * (|RowHeights(sizes, count)| - 1);
    var shape := if aspect > 3.0 then 3.0 else if aspect < 0.6 then 0.6 else aspect;
    var across := width as real / shape;
    if across < height as real then height as real else across
  }

  /** The best-scoring column count of at most six, the smallest of equals. */
  ghost predicate IsBest(sizes: seq<Size>, best: nat, aspect: real) {
    && 1 <= best <= 6 && best <= |sizes|
    && (forall c :: 1 <= c <= 6 && c <= |sizes| ==> Score(sizes, best, aspect) <= Score(sizes, c, aspect))
    && (forall c :: 1 <= c < best ==> Score(sizes, best, aspect) < Score(sizes, c, aspect))
  }

  /** The first of the best-scoring column counts, at most six. */
  method BestCount(sizes: seq<Size>, aspect: real) returns (best: nat)
    requires sizes != []
    ensures IsBest(sizes, best, aspect)
  {
    hide Score;
    best := 1;
    var most := if |sizes| < 6 then |sizes| else 6;
    for count := 2 to most + 1
      invariant 1 <= best < count
      invariant forall c :: 1 <= c < count ==> Score(sizes, best, aspect) <= Score(sizes, c, aspect)
      invariant forall c :: 1 <= c < best ==> Score(sizes, best, aspect) < Score(sizes, c, aspect)
    {
      if Score(sizes, count, aspect) < Score(sizes, best, aspect) {
        best := count;
      }
    }
  }

  /** Columns side by side from the left margin. */
  method SpreadColumns(widths: seq<int>) returns (columns: seq<Column>)
    requires forall i :: 0 <= i < |widths| ==> widths[i] >= 2 * STEP + MARGIN
    ensures |columns| == |widths| && ColumnsApart(columns)
    ensures forall i :: 0 <= i < |widths| ==> columns[i].width == widths[i]
    ensures SideBySide(columns)
  {
    hide ColumnsApart, SideBySide;
    var x := LEFT;
    columns := [];
    NoColumns();
    for i := 0 to |widths|
      invariant |columns| == i && ColumnsApart(columns) && SideBySide(columns)
      invariant x == if i == 0 then LEFT else columns[i - 1].x + columns[i - 1].width + GAP_X
      invariant forall k :: 0 <= k < i ==> columns[k].width == widths[k] && columns[k].x + columns[k].width + GAP_X <= x
    {
      NextColumn(columns, Column(x, widths[i]));
      columns := columns + [Column(x, widths[i])];
      x := x + widths[i] + GAP_X;
    }
  }

  lemma {:induction false} NoColumns()
    ensures ColumnsApart([]) && SideBySide([])
  {
  }

  lemma {:induction false} NextColumn(columns: seq<Column>, c: Column)
    requires ColumnsApart(columns) && SideBySide(columns) && c.width >= 2 * STEP + MARGIN
    requires c.x == if columns == [] then LEFT else columns[|columns| - 1].x + columns[|columns| - 1].width + GAP_X
    requires forall k :: 0 <= k < |columns| ==> columns[k].x + columns[k].width + GAP_X <= c.x
    ensures ColumnsApart(columns + [c]) && SideBySide(columns + [c])
  {
    var more := columns + [c];
    forall k | 0 <= k < |more|
      ensures IsBeside(more, k)
    {
      assert k < |columns| ==> IsBeside(columns, k);
    }
  }

  /** Columns stand side by side from 120 on, 280 between them. */
  ghost predicate SideBySide(columns: seq<Column>) {
    forall k :: 0 <= k < |columns| ==> IsBeside(columns, k)
  }

  ghost predicate IsBeside(columns: seq<Column>, k: nat) {
    k < |columns| && columns[k].x == if k == 0 then 120 else columns[k - 1].x + columns[k - 1].width + 280
  }

  function RowTop(heights: seq<int>, row: nat): int
    requires row <= |heights|
  {
    if row == 0 then TOP else RowTop(heights, row - 1) + heights[row - 1] + GAP_Y
  }

  lemma {:induction false} RowsDown(heights: seq<int>, r: nat, s: nat)
    requires r < s <= |heights| && forall k :: 0 <= k < |heights| ==> heights[k] >= 0
    ensures RowTop(heights, r) + heights[r] + GAP_Y <= RowTop(heights, s)
    decreases s
  {
    if r < s - 1 {
      RowsDown(heights, r, s - 1);
    }
  }

  lemma {:induction false} RowTopAtLeast(heights: seq<int>, r: nat)
    requires r <= |heights| && forall k :: 0 <= k < |heights| ==> heights[k] >= 0
    ensures RowTop(heights, r) >= TOP
  {
    if r > 0 {
      RowTopAtLeast(heights, r - 1);
    }
  }

  /** The grid an arrangement settles on: cells by column and row. */
  datatype Plan = Plan(columns: seq<Column>, heights: seq<int>, sizes: seq<Size>, cols: seq<nat>, rows: seq<nat>)

  ghost predicate ProperPlan(p: Plan) {
    && ColumnsApart(p.columns) && |p.cols| == |p.rows| == |p.sizes|
    && (forall k :: 0 <= k < |p.heights| ==> p.heights[k] >= 0)
    && (forall i :: 0 <= i < |p.sizes| ==> Fits(p, i))
    && (forall i, j :: 0 <= i < j < |p.sizes| && p.cols[i] == p.cols[j] ==> p.rows[i] < p.rows[j])
  }

  /** The plan has a cell for this bucket, wide and tall enough for it. */
  predicate Fits(p: Plan, i: nat) {
    && i < |p.sizes| == |p.cols| == |p.rows| && p.cols[i] < |p.columns| && p.rows[i] < |p.heights|
    && p.sizes[i].width <= p.columns[p.cols[i]].width && p.sizes[i].height <= p.heights[p.rows[i]]
  }

  function CellBox(p: Plan, i: nat): Box
    requires Fits(p, i)
  {
    Box(p.columns[p.cols[i]].x, RowTop(p.heights, p.rows[i]), p.sizes[i].width, p.sizes[i].height, p.sizes[i].columns)
  }

  /** Cells of the arrangement are pairwise clear. */
  lemma {:induction false} CellsClear(p: Plan, i: nat, j: nat)
    requires ProperPlan(p) && i < j < |p.sizes|
    ensures Clear(CellBox(p, i), CellBox(p, j))
  {
    assert Fits(p, i) && Fits(p, j);
    if p.cols[i] == p.cols[j] {
      RowsDown(p.heights, p.rows[i], p.rows[j]);
    } else if p.cols[i] < p.cols[j] {
      assert p.columns[p.cols[i]].x + p.columns[p.cols[i]].width + GAP_X <= p.columns[p.cols[j]].x;
    } else {
      assert p.columns[p.cols[j]].x + p.columns[p.cols[j]].width + GAP_X <= p.columns[p.cols[i]].x;
    }
  }

  // ---------------------------------------------------------------- the standing invariant

  function SeatsOf(slots: Seats, id: Id): map<Id, nat> {
    if id in slots then slots[id] else map[]
  }

  /** One team's box stands in a column, below the top margin, with room for its numbered seats. */
  ghost predicate Housed(columns: seq<Column>, groups: Groups, slots: Seats, id: Id)
    requires id in groups
  {
    && InColumn(columns, groups[id]) && groups[id].y >= TOP
    && Roomy(groups[id], |SeatsOf(slots, id)|) && Numbered(SeatsOf(slots, id))
  }

  ghost predicate Laid(columns: seq<Column>, groups: Groups, slots: Seats) {
    && ColumnsApart(columns) && slots.Keys <= groups.Keys
    && forall id :: id in groups ==> Housed(columns, groups, slots, id)
  }

  lemma {:induction false} RoomyUpright(box: Box, seats: nat)
    requires Roomy(box, seats)
    ensures box.height > 0
  {
    assert CeilDiv(seats, box.columns) * STEP >= 0;
  }

  lemma {:induction false} LaidUpright(columns: seq<Column>, groups: Groups, slots: Seats)
    requires Laid(columns, groups, slots)
    ensures Upright(groups)
  {
    forall id | id in groups
      ensures groups[id].height > 0 && groups[id].y >= TOP
    {
      assert Housed(columns, groups, slots, id);
      RoomyUpright(groups[id], |SeatsOf(slots, id)|);
    }
  }

  /** Bucket ids are distinct, buckets are not empty, and nobody sits in two places. */
  ghost predicate WellBucketed(ordered: seq<Bucket>) {
    && (forall i, j :: 0 <= i < j < |ordered| ==> ordered[i].id != ordered[j].id)
    && (forall i :: 0 <= i < |ordered| ==> ordered[i].members != [] && Distinct(ordered[i].members))
    && (forall i, j, a :: 0 <= i < j < |ordered| && a in ordered[i].members ==> a !in ordered[j].members)
  }

  function BucketIds(ordered: seq<Bucket>): set<Id> {
    if ordered == [] then {} else BucketIds(ordered[..|ordered| - 1]) + {ordered[|ordered| - 1].id}
  }

  lemma {:induction false} BucketHasId(ordered: seq<Bucket>, k: nat)
    requires k < |ordered|
    ensures ordered[k].id in BucketIds(ordered)
  {
    if k < |ordered| - 1 {
      BucketHasId(ordered[..|ordered| - 1], k);
    }
  }

  lemma {:induction false} BucketOf(ordered: seq<Bucket>, id: Id) returns (k: nat)
    requires id in BucketIds(ordered)
    ensures k < |ordered| && ordered[k].id == id
  {
    if ordered[|ordered| - 1].id == id {
      k := |ordered| - 1;
    } else {
      k := BucketOf(ordered[..|ordered| - 1], id);
    }
  }

  function SizesOf(ordered: seq<Bucket>): (sizes: seq<Size>)
    ensures |sizes| == |ordered| && forall i :: 0 <= i < |ordered| ==> sizes[i] == Dimensions(|ordered[i].members|, 4)
  {
    seq(|ordered|, i requires 0 <= i < |ordered| => Dimensions(|ordered[i].members|, 4))
  }

  /** Choose the geography once: one box per bucket in the best-scoring grid. */
  method Arrange(ordered: seq<Bucket>, aspect: real) returns (columns: seq<Column>, groups: Groups)
    requires WellBucketed(ordered) && ordered != []
    ensures columns != [] && Laid(columns, groups, map[]) && AllClear(groups, groups.Keys)
    ensures groups.Keys == BucketIds(ordered)
    ensures AllSized(ordered, groups)
    ensures SideBySide(columns) && Gridded(ordered, columns, groups) && IsBest(SizesOf(ordered), |columns|, aspect)
  {
    hide IsBest, Gridded, SideBySide, GridPlan;
    hide WellBucketed, BucketIds, Laid, AllClear, ProperPlan, RowsHeight, Follows, IsSize, SizesOf, Dimensions;
    var p := MakePlan(SizesOf(ordered), aspect);
    columns := p.columns;
    groups := PlaceCells(ordered, p);
    ArrangedLaid(ordered, p, groups);
    ArrangedAllClear(ordered, p, groups);
    assert groups.Keys == BucketIds(ordered) by { FollowsKeys(groups, ordered, p); }
    assert AllSized(ordered, groups) by {
      forall i | 0 <= i < |ordered|
        ensures ordered[i].id in groups && IsSize(groups[ordered[i].id], |ordered[i].members|, 4)
      {
        ArrangedSize(ordered, p, groups, i);
      }
    }
    assert forall i :: 0 <= i < |p.sizes| ==> p.sizes[i].height > 0 by { SizesUpright(ordered); }
    PlanIsGrid(ordered, p, groups, |columns|);
  }

  lemma {:induction false} SizesUpright(ordered: seq<Bucket>)
    ensures forall i :: 0 <= i < |ordered| ==> SizesOf(ordered)[i].height > 0
  {
  }

  /**
   The buckets fill the columns row by row: each stands at the left of its column, the first row at 180 and every other
   260 below the tallest box of the row before; a column is as wide as its widest box.
   */
  ghost predicate Gridded(ordered: seq<Bucket>, columns: seq<Column>, groups: Groups) {
    && columns != [] && HasBoxes(ordered, groups)
    && (forall i :: 0 <= i < |ordered| ==> Across(ordered, columns, groups, i) && Down(ordered, columns, groups, i))
    && (forall c :: 0 <= c < |columns| && c < |ordered| ==> WidestIn(ordered, columns, groups, c))
  }

  ghost predicate HasBoxes(ordered: seq<Bucket>, groups: Groups) {
    forall i :: 0 <= i < |ordered| ==> ordered[i].id in groups
  }

  ghost predicate Across(ordered: seq<Bucket>, columns: seq<Column>, groups: Groups, i: nat)
    requires columns != [] && i < |ordered| && HasBoxes(ordered, groups)
  {
    var box, column := groups[ordered[i].id], columns[i % |columns|];
    box.x == column.x && box.width <= column.width
  }

  ghost predicate WidestIn(ordered: seq<Bucket>, columns: seq<Column>, groups: Groups, c: nat)
    requires c < |columns| && HasBoxes(ordered, groups)
  {
    exists i :: 0 <= i < |ordered| && i % |columns| == c && groups[ordered[i].id].width == columns[c].width
  }

  ghost predicate Down(ordered: seq<Bucket>, columns: seq<Column>, groups: Groups, i: nat)
    requires columns != [] && i < |ordered| && HasBoxes(ordered, groups)
  {
    var y, n := groups[ordered[i].id].y, |columns|;
    if i < n then y == 180 else TallestOf(ordered, n, groups, i / n - 1, y - groups[ordered[i - n].id].y - 260)
  }

  /** The tallest box of a row of `n`. */
  ghost predicate TallestOf(ordered: seq<Bucket>, n: nat, groups: Groups, row: int, height: int)
    requires n > 0 && HasBoxes(ordered, groups)
  {
    && (forall i :: 0 <= i < |ordered| && i / n == row ==> groups[ordered[i].id].height <= height)
    && (exists i :: 0 <= i < |ordered| && i / n == row && groups[ordered[i].id].height == height)
  }

  /** The plan is the grid of its sizes in that many columns. */
  ghost predicate GridPlan(p: Plan, count: nat) {
    && 0 < count == |p.columns| && ColumnsApart(p.columns)
    && p.heights == RowHeights(p.sizes, count) && p.cols == ColumnsOf(|p.sizes|, count)
    && p.rows == RowsOf(|p.sizes|, count)
    && forall i :: 0 <= i < count ==> p.columns[i].width == ColumnWidths(p.sizes, count)[i]
  }

  lemma {:induction false} PlanIsGrid(ordered: seq<Bucket>, p: Plan, groups: Groups, count: nat)
    requires Follows(groups, ordered, p) && GridPlan(p, count)
             && forall i :: 0 <= i < |p.sizes| ==> p.sizes[i].height > 0
    ensures Gridded(ordered, p.columns, groups)
  {
    hide GridPlan, Across, Down, WidestIn, ProperPlan, BucketIds;
    assert count == |p.columns| > 0 by { GridCount(p, count); }
    assert HasBoxes(ordered, groups) by { FollowsBoxes(groups, ordered, p); }
    forall i | 0 <= i < |ordered|
      ensures Across(ordered, p.columns, groups, i) && Down(ordered, p.columns, groups, i)
    {
      PlanAcross(ordered, p, groups, count, i);
      PlanDown(ordered, p, groups, count, i);
    }
    forall c | 0 <= c < |p.columns| && c < |ordered|
      ensures WidestIn(ordered, p.columns, groups, c)
    {
      PlanWidest(ordered, p, groups, count, c);
    }
  }

  lemma {:induction false} GridCount(p: Plan, count: nat)
    requires GridPlan(p, count)
    ensures count == |p.columns| > 0
  {
  }

  lemma {:induction false} FollowsBoxes(groups: Groups, ordered: seq<Bucket>, p: Plan)
    requires Follows(groups, ordered, p)
    ensures HasBoxes(ordered, groups)
  {
    hide ProperPlan, BucketIds;
    forall i | 0 <= i < |ordered|
      ensures ordered[i].id in groups
    {
      assert IsCell(groups, ordered[i].id, p, i);
    }
  }

  /** Each box of the grid, in the plan's terms. */
  lemma {:induction false} PlanBox(ordered: seq<Bucket>, p: Plan, groups: Groups, count: nat, i: nat)
    requires Follows(groups, ordered, p) && GridPlan(p, count) && i < |ordered|
    ensures Fits(p, i) && p.cols[i] == i % count && p.rows[i] == i / count
    ensures ordered[i].id in groups && groups[ordered[i].id] == CellBox(p, i)
  {
    hide ProperPlan, BucketIds, ColumnWidths, RowHeights, ColumnsApart;
    assert IsCell(groups, ordered[i].id, p, i);
    PlanCell(p, i);
  }

  lemma {:induction false} PlanAcross(ordered: seq<Bucket>, p: Plan, groups: Groups, count: nat, i: nat)
    requires Follows(groups, ordered, p) && GridPlan(p, count) && i < |ordered| && HasBoxes(ordered, groups)
    ensures count == |p.columns| > 0 && Across(ordered, p.columns, groups, i)
  {
    GridCount(p, count);
    PlanBox(ordered, p, groups, count, i);
    hide Follows, GridPlan, HasBoxes;
  }

  lemma {:induction false} PlanWidest(ordered: seq<Bucket>, p: Plan, groups: Groups, count: nat, c: nat)
    requires Follows(groups, ordered, p) && GridPlan(p, count) && c < count && c < |ordered|
             && HasBoxes(ordered, groups)
    requires forall i :: 0 <= i < |p.sizes| ==> p.sizes[i].height > 0
    ensures count == |p.columns| && WidestIn(ordered, p.columns, groups, c)
  {
    GridCount(p, count);
    assert |p.sizes| == |ordered|;
    var i := WidestSize(p, count, c);
    PlanBox(ordered, p, groups, count, i);
    hide Follows, GridPlan, HasBoxes;
    assert i % |p.columns| == c && groups[ordered[i].id].width == p.columns[c].width;
  }

  lemma {:induction false} WidestSize(p: Plan, count: nat, c: nat) returns (i: nat)
    requires GridPlan(p, count) && c < count && c < |p.sizes|
    ensures i < |p.sizes| && p.cols[i] == c && p.sizes[i].width == p.columns[c].width
  {
    var m := ColumnWidths(p.sizes, count);
    hide ColumnsApart, RowHeights, RowsOf, Maxima;
    var widths, cells := WidthsOf(p.sizes), ColumnsOf(|p.sizes|, count);
    assert m == Maxima(widths, cells, count) && cells[c] == c;
    assert m[cells[c]] >= widths[c];
    i := MaximaAttained(widths, cells, count, c);
  }

  lemma {:induction false} PlanDown(ordered: seq<Bucket>, p: Plan, groups: Groups, count: nat, i: nat)
    requires Follows(groups, ordered, p) && GridPlan(p, count) && i < |ordered| && HasBoxes(ordered, groups)
    requires forall i :: 0 <= i < |p.sizes| ==> p.sizes[i].height > 0
    ensures count == |p.columns| > 0 && Down(ordered, p.columns, groups, i)
  {
    hide Follows, GridPlan, HasBoxes, TallestOf;
    GridCount(p, count);
    PlanBox(ordered, p, groups, count, i);
    if i < count {
      DivUnique(i, count, 0, i);
    } else {
      var above := i - count;
      PlanBox(ordered, p, groups, count, above);
      DivUnique(i, count, above / count + 1, above % count);
      RowTallest(ordered, p, groups, count, above / count);
    }
  }

  lemma {:induction false} DivUnique(i: nat, count: nat, q: nat, r: nat)
    requires count > 0 && r < count && i == q * count + r
    ensures i / count == q && i % count == r
  {
    assert i == i / count * count + i % count;
    if i / count < q {
      Scale(i / count + 1, q, count);
    } else if i / count > q {
      Scale(q + 1, i / count, count);
    }
  }

  lemma {:induction false} RowTallest(ordered: seq<Bucket>, p: Plan, groups: Groups, count: nat, row: nat)
    requires Follows(groups, ordered, p) && GridPlan(p, count) && HasBoxes(ordered, groups) && row < |p.heights|
    requires count > 0 && row * count < |ordered|
    requires forall i :: 0 <= i < |p.sizes| ==> p.sizes[i].height > 0
    ensures TallestOf(ordered, count, groups, row, p.heights[row])
  {
    assert |p.sizes| == |ordered|;
    forall i | 0 <= i < |ordered| && i / count == row
      ensures groups[ordered[i].id].height <= p.heights[row]
    {
      PlanBox(ordered, p, groups, count, i);
    }
    var i := TallestSize(p, count, row);
    PlanBox(ordered, p, groups, count, i);
    hide Follows, GridPlan, HasBoxes;
    assert i / count == row && groups[ordered[i].id].height == p.heights[row];
  }

  lemma {:induction false} TallestSize(p: Plan, count: nat, row: nat) returns (i: nat)
    requires GridPlan(p, count) && row < |p.heights| && row * count < |p.sizes|
    requires forall i :: 0 <= i < |p.sizes| ==> p.sizes[i].height > 0
    ensures i < |p.sizes| && |p.rows| == |p.sizes| && p.rows[i] == row && p.sizes[i].height == p.heights[row]
  {
    hide ColumnsApart, ColumnWidths, ColumnsOf, Maxima;
    var heights, cells := HeightsOf(p.sizes), RowsOf(|p.sizes|, count);
    var m := Maxima(heights, cells, CeilDiv(|p.sizes|, count));
    assert m == p.heights;
    var first := row * count;
    DivUnique(first, count, row, 0);
    assert cells[first] == row;
    assert m[cells[first]] >= heights[first];
    i := MaximaAttained(heights, cells, CeilDiv(|p.sizes|, count), row);
  }

  method MakePlan(sizes: seq<Size>, aspect: real) returns (p: Plan)
    requires sizes != [] && forall i :: 0 <= i < |sizes| ==> sizes[i].width >= 2 * STEP + MARGIN
    ensures p.columns != [] && p.sizes == sizes && ProperPlan(p) && SideBySide(p.columns)
    ensures GridPlan(p, |p.columns|) && IsBest(sizes, |p.columns|, aspect)
  {
    hide *;
    var count := BestCount(sizes, aspect);
    assert 1 <= count <= |sizes| by { BestInRange(sizes, count, aspect); }
    var columns := ChooseColumns(sizes, count);
    p := Plan(columns, RowHeights(sizes, count), sizes, ColumnsOf(|sizes|, count), RowsOf(|sizes|, count));
    BuiltPlan(p, count);
    PlanProper(p, count);
  }

  lemma {:induction false} BuiltPlan(p: Plan, count: nat)
    requires 0 < count == |p.columns| && ColumnsApart(p.columns)
    requires p.heights == RowHeights(p.sizes, count) && p.cols == ColumnsOf(|p.sizes|, count)
             && p.rows == RowsOf(|p.sizes|, count)
    requires forall i :: 0 <= i < count ==> p.columns[i].width == ColumnWidths(p.sizes, count)[i]
    ensures GridPlan(p, count)
  {
  }

  lemma {:induction false} BestInRange(sizes: seq<Size>, best: nat, aspect: real)
    requires IsBest(sizes, best, aspect)
    ensures 1 <= best <= |sizes|
  {
    hide Score;
  }

  /**
   What scores a column count is the grid drawn with it: its width over the clipped aspect, or its height if larger.
   */
  lemma {:induction false} ScoreIsExtent(p: Plan, count: nat, aspect: real)
    requires GridPlan(p, count) && SideBySide(p.columns) && p.sizes != []
    ensures p.heights != []
    ensures var right := p.columns[count - 1].x + p.columns[count - 1].width;
            var bottom := RowTop(p.heights, |p.heights| - 1) + p.heights[|p.heights| - 1];
            var shape := if aspect < 0.6 then 0.6 else if 3.0 < aspect then 3.0 else aspect;
            var across, down := (right - 120) as real / shape, (bottom - 180) as real;
            Score(p.sizes, count, aspect) == if across < down then down else across
  {
    PlanWidths(p, count);
    PlanRows(p, count);
    hide GridPlan, SideBySide, ColumnWidths, RowHeights, Sum, RowTop;
    WholeAcross(p.columns, ColumnWidths(p.sizes, count));
    WholeDown(p.heights);
  }

  lemma {:induction false} WholeAcross(columns: seq<Column>, widths: seq<int>)
    requires SideBySide(columns) && |widths| == |columns| > 0
    requires forall i :: 0 <= i < |columns| ==> columns[i].width == widths[i]
    ensures columns[|columns| - 1].x + columns[|columns| - 1].width - 120 == Sum(widths) + 280 * (|columns| - 1)
  {
    hide SideBySide, Sum;
    AcrossIs(columns, widths, |columns| - 1);
    assert widths[..|columns|] == widths;
  }

  lemma {:induction false} WholeDown(heights: seq<int>)
    requires heights != []
    ensures RowTop(heights, |heights| - 1) + heights[|heights| - 1] - 180 == Sum(heights) + 260 * (|heights| - 1)
  {
    hide Sum, RowTop;
    DownIs(heights, |heights| - 1);
    assert heights[..|heights|] == heights;
  }

  lemma {:induction false} PlanWidths(p: Plan, count: nat)
    requires GridPlan(p, count)
    ensures count == |p.columns| == |ColumnWidths(p.sizes, count)| && p.heights == RowHeights(p.sizes, count)
    ensures forall i :: 0 <= i < count ==> p.columns[i].width == ColumnWidths(p.sizes, count)[i]
  {
    hide ColumnsApart, Maxima;
  }

  lemma {:induction false} PlanRows(p: Plan, count: nat)
    requires GridPlan(p, count) && p.sizes != []
    ensures |p.heights| > 0
  {
    hide ColumnsApart, Maxima, ColumnWidths;
    RowBound(0, |p.sizes|, count);
  }

  lemma {:induction false} AcrossIs(columns: seq<Column>, widths: seq<int>, k: nat)
    requires SideBySide(columns) && |widths| == |columns| && k < |columns|
    requires forall i :: 0 <= i < |columns| ==> columns[i].width == widths[i]
    ensures columns[k].x + columns[k].width - 120 == Sum(widths[..k + 1]) + 280 * k
  {
    assert widths[..k + 1][..k] == widths[..k];
    assert IsBeside(columns, k) && columns[k].width == widths[k];
    if k > 0 {
      AcrossIs(columns, widths, k - 1);
    } else {
      assert Sum(widths[..k]) == 0;
    }
  }

  lemma {:induction false} DownIs(heights: seq<int>, r: nat)
    requires r < |heights|
    ensures RowTop(heights, r) + heights[r] - 180 == Sum(heights[..r + 1]) + 260 * r
  {
    assert heights[..r + 1][..r] == heights[..r];
    if r > 0 {
      DownIs(heights, r - 1);
    } else {
      assert heights[..0] == [];
    }
  }

  method PlaceCells(ordered: seq<Bucket>, p: Plan) returns (groups: Groups)
    requires WellBucketed(ordered) && ProperPlan(p) && p.sizes == SizesOf(ordered)
    ensures Follows(groups, ordered, p)
  {
    hide ProperPlan, SizesOf;
    groups := map[];
    for i := 0 to |ordered|
      invariant groups.Keys == BucketIds(ordered[..i])
      invariant forall k :: 0 <= k < i ==> IsCell(groups, ordered[k].id, p, k)
    {
      assert ordered[..i + 1][..i] == ordered[..i];
      assert Fits(p, i) by { PlanCell(p, i); }
      groups := groups[ordered[i].id := CellBox(p, i)];
    }
    assert ordered[..|ordered|] == ordered;
  }

  lemma {:induction false} FollowsKeys(groups: Groups, ordered: seq<Bucket>, p: Plan)
    requires Follows(groups, ordered, p)
    ensures groups.Keys == BucketIds(ordered)
  {
  }

  lemma {:induction false} PlanCell(p: Plan, i: nat)
    requires ProperPlan(p) && i < |p.sizes|
    ensures Fits(p, i)
  {
  }

  lemma {:induction false} ArrangedSize(ordered: seq<Bucket>, p: Plan, groups: Groups, k: nat)
    requires Follows(groups, ordered, p) && p.sizes == SizesOf(ordered) && k < |ordered|
    ensures ordered[k].id in groups && IsSize(groups[ordered[k].id], |ordered[k].members|, 4)
  {
    hide ProperPlan, RowTop, BucketIds, RowsHeight, IsSize, Dimensions;
    assert IsCell(groups, ordered[k].id, p, k);
    DimensionsSize(groups[ordered[k].id], |ordered[k].members|, 4);
  }

  method ChooseColumns(sizes: seq<Size>, count: nat) returns (columns: seq<Column>)
    requires 0 < count <= |sizes| && forall i :: 0 <= i < |sizes| ==> sizes[i].width >= 2 * STEP + MARGIN
    ensures |columns| == count && ColumnsApart(columns)
    ensures forall i :: 0 <= i < count ==> columns[i].width == ColumnWidths(sizes, count)[i]
    ensures SideBySide(columns)
  {
    var widths := ColumnWidths(sizes, count);
    forall c | 0 <= c < count
      ensures widths[c] >= 2 * STEP + MARGIN
    {
      assert widths[ColumnsOf(|sizes|, count)[c]] >= WidthsOf(sizes)[c];
    }
    columns := SpreadColumns(widths);
  }

  lemma {:induction false} PlanProper(p: Plan, count: nat)
    requires GridPlan(p, count)
    ensures ProperPlan(p)
  {
    hide ColumnsApart, Maxima;
    forall i, j | 0 <= i < j < |p.sizes| && p.cols[i] == p.cols[j]
      ensures p.rows[i] < p.rows[j]
    {
      LaterRow(|p.sizes|, count, i, j);
    }
    forall i | 0 <= i < |p.sizes|
      ensures Fits(p, i)
    {
      assert WidthsOf(p.sizes)[i] <= ColumnWidths(p.sizes, count)[p.cols[i]];
      assert HeightsOf(p.sizes)[i] <= p.heights[p.rows[i]];
    }
  }

  lemma {:induction false} CellHoused(p: Plan, i: nat, count: nat)
    requires ProperPlan(p) && i < |p.sizes| && p.sizes[i] == Dimensions(count, 4)
    ensures InColumn(p.columns, CellBox(p, i)) && CellBox(p, i).y >= TOP && Roomy(CellBox(p, i), 0)
  {
    assert Fits(p, i);
    RowTopAtLeast(p.heights, p.rows[i]);
    assert p.columns[p.cols[i]].x == CellBox(p, i).x;
    assert CeilDiv(0, p.sizes[i].columns) == 0;
    Scale(0, CeilDiv(count, p.sizes[i].columns), STEP);
  }

  /** Each bucket's box is its cell of the plan. */
  ghost predicate Follows(groups: Groups, ordered: seq<Bucket>, p: Plan) {
    && groups.Keys == BucketIds(ordered) && |p.sizes| == |ordered| && ProperPlan(p)
    && forall k :: 0 <= k < |ordered| ==> IsCell(groups, ordered[k].id, p, k)
  }

  ghost predicate IsCell(groups: Groups, id: Id, p: Plan, k: nat) {
    ProperPlan(p) && k < |p.sizes| && id in groups && groups[id] == CellBox(p, k)
  }

  lemma {:induction false} ArrangedHoused(ordered: seq<Bucket>, p: Plan, groups: Groups, k: nat)
    requires Follows(groups, ordered, p) && k < |ordered| && p.sizes == SizesOf(ordered)
    ensures IsCell(groups, ordered[k].id, p, k) && Housed(p.columns, groups, map[], ordered[k].id)
  {
    hide ProperPlan, InColumn, Roomy, BucketIds, RowsHeight;
    assert IsCell(groups, ordered[k].id, p, k);
    CellHoused(p, k, |ordered[k].members|);
  }

  lemma {:induction false} ArrangedClear(ordered: seq<Bucket>, p: Plan, groups: Groups, i: nat, j: nat)
    requires Follows(groups, ordered, p) && i < |ordered| && j < |ordered| && i != j
    ensures IsCell(groups, ordered[i].id, p, i) && IsCell(groups, ordered[j].id, p, j)
    ensures Clear(groups[ordered[i].id], groups[ordered[j].id])
  {
    hide ProperPlan, Clear, BucketIds;
    assert IsCell(groups, ordered[i].id, p, i) && IsCell(groups, ordered[j].id, p, j);
    if i < j {
      CellsClear(p, i, j);
    } else {
      CellsClear(p, j, i);
      ClearBothWays(groups[ordered[j].id], groups[ordered[i].id]);
    }
  }

  lemma {:induction false} ArrangedLaid(ordered: seq<Bucket>, p: Plan, groups: Groups)
    requires Follows(groups, ordered, p) && p.sizes == SizesOf(ordered)
    ensures Laid(p.columns, groups, map[])
  {
    PlanColumns(p);
    hide ProperPlan, Housed, ColumnsApart, IsCell, SizesOf, BucketIds;
    forall id | id in groups
      ensures Housed(p.columns, groups, map[], id)
    {
      var k := BucketOf(ordered, id);
      ArrangedHoused(ordered, p, groups, k);
    }
  }

  lemma {:induction false} ArrangedAllClear(ordered: seq<Bucket>, p: Plan, groups: Groups)
    requires Follows(groups, ordered, p)
    ensures AllClear(groups, groups.Keys)
  {
    hide ProperPlan, Clear, IsCell, BucketIds;
    forall id, jd | id in groups && jd in groups && id != jd
      ensures Clear(groups[id], groups[jd])
    {
      var i := BucketOf(ordered, id);
      var j := BucketOf(ordered, jd);
      ArrangedClear(ordered, p, groups, i, j);
    }
  }

  lemma {:induction false} PlanColumns(p: Plan)
    requires ProperPlan(p)
    ensures ColumnsApart(p.columns)
  {
  }

  lemma {:induction false} ClearBothWays(a: Box, b: Box)
    requires Clear(a, b)
    ensures Clear(b, a)
  {
  }

  // ---------------------------------------------------------------- seating

  /** The first mention of somebody without a seat. */
  ghost predicate NewAt(slots: map<Id, nat>, members: seq<Id>, i: int) {
    0 <= i < |members| && members[i] !in slots && members[i] !in members[..i]
  }

  /** Given seats stay, everybody listed has one, nobody else gains one, and new ones are given in the list's order. */
  ghost predicate GivesSeats(slots: map<Id, nat>, after: map<Id, nat>, members: seq<Id>) {
    && (forall a :: a in after <==> a in slots || a in members)
    && (forall a :: a in slots ==> after[a] == slots[a])
    && forall i, j :: TwoNew(slots, members, i, j) ==> InListOrder(after, members, i, j)
  }

  ghost predicate TwoNew(slots: map<Id, nat>, members: seq<Id>, i: int, j: int) {
    NewAt(slots, members, i) && NewAt(slots, members, j) && i < j
  }

  ghost predicate InListOrder(seats: map<Id, nat>, members: seq<Id>, i: int, j: int) {
    && 0 <= i < j < |members| && members[i] in seats && members[j] in seats
    && seats[members[i]] < seats[members[j]]
  }

  /** Seats already given stay; the rest continue the numbering. */
  method AssignSeats(slots: map<Id, nat>, members: seq<Id>) returns (after: map<Id, nat>)
    requires Numbered(slots)
    ensures Numbered(after) && GivesSeats(slots, after, members)
  {
    hide Numbered, GivesSeats;
    after := slots;
    NoSeatsGiven(slots);
    for k := 0 to |members|
      invariant Numbered(after) && GivesSeats(slots, after, members[..k])
    {
      assert members[..k + 1] == members[..k] + [members[k]];
      NextSeat(slots, after, members[..k], members[k]);
      if members[k] !in after {
        NumberedGrows(after, members[k]);
        after := after[members[k] := |after|];
      }
    }
    assert members[..|members|] == members;
  }

  lemma {:induction false} NoSeatsGiven(slots: map<Id, nat>)
    ensures GivesSeats(slots, slots, [])
  {
  }

  lemma {:induction false} NextSeat(slots: map<Id, nat>, after: map<Id, nat>, members: seq<Id>, a: Id)
    requires Numbered(after) && GivesSeats(slots, after, members)
    ensures GivesSeats(slots, if a in after then after else after[a := |after|], members + [a])
  {
    var more := members + [a];
    var next := if a in after then after else after[a := |after|];
    assert forall b :: b in more <==> b in members || b == a;
    hide TwoNew, InListOrder;
    forall i, j | TwoNew(slots, more, i, j)
      ensures InListOrder(next, more, i, j)
    {
      NextInTurn(slots, after, members, a, i, j);
    }
  }

  lemma {:induction false} NextInTurn(slots: map<Id, nat>, after: map<Id, nat>, members: seq<Id>, a: Id, i: int, j: int)
    requires Numbered(after) && GivesSeats(slots, after, members)
    requires TwoNew(slots, members + [a], i, j)
    ensures InListOrder(if a in after then after else after[a := |after|], members + [a], i, j)
  {
    NewBefore(slots, members, a, i, j);
    hide NewAt;
    if j < |members| {
      assert TwoNew(slots, members, i, j);
      assert InListOrder(after, members, i, j);
    } else {
      assert members[i] in after && after[members[i]] < |after|;
    }
  }

  lemma {:induction false} NewBefore(slots: map<Id, nat>, members: seq<Id>, a: Id, i: int, j: int)
    requires TwoNew(slots, members + [a], i, j)
    ensures 0 <= i < j <= |members| && NewAt(slots, members, i) && (members + [a])[i] == members[i]
    ensures if j < |members| then NewAt(slots, members, j) && (members + [a])[j] == members[j]
            else (members + [a])[j] == a && a !in slots && a !in members
  {
    var more := members + [a];
    assert more[..i] == members[..i];
    if j < |members| {
      assert more[..j] == members[..j];
    } else {
      assert more[..j] == members;
    }
  }

  /** Seats of a numbering are only one way to give: the given ones, then the list's first mentions in turn. */
  lemma {:induction false} SeatsAlreadyGiven(slots: map<Id, nat>, after: map<Id, nat>, members: seq<Id>)
    requires GivesSeats(slots, after, members) && forall a :: a in members ==> a in slots
    ensures after == slots
  {
  }

  lemma {:induction false} NumberedGrows(slots: map<Id, nat>, a: Id)
    requires Numbered(slots) && a !in slots
    ensures Numbered(slots[a := |slots|]) && |slots[a := |slots|]| == |slots| + 1
  {
    var more := slots[a := |slots|];
    assert more.Keys == slots.Keys + {a};
    assert |more.Keys| == |slots.Keys| + 1;
    assert |more| == |more.Keys| && |slots| == |slots.Keys|;
  }

  /** The first free height of a column: below everything that stands in it, and no lower than needed. */
  ghost predicate IsFloor(groups: Groups, x: int, y: int) {
    && y >= TOP
    && (forall id :: id in groups && groups[id].x == x ==> groups[id].y + groups[id].height + GAP_Y <= y)
    && (y == TOP || exists id :: id in groups && groups[id].x == x && groups[id].y + groups[id].height + GAP_Y == y)
  }

  method FindFloor(groups: Groups, x: int) returns (y: int)
    ensures IsFloor(groups, x, y)
  {
    y := TOP;
    var rest := Standing(groups, x);
    while rest != {}
      invariant y >= TOP && rest <= Standing(groups, x)
      invariant forall id :: id in Standing(groups, x) && id !in rest ==> groups[id].y + groups[id].height + GAP_Y <= y
      invariant y == TOP || exists id :: id in Standing(groups, x) && groups[id].y + groups[id].height + GAP_Y == y
      decreases |rest|
    {
      var id :| id in rest;
      y := Max(y, groups[id].y + groups[id].height + GAP_Y);
      rest := rest - {id};
    }
  }

  /** The column whose floor is highest, the leftmost of equals. */
  method ChooseColumn(groups: Groups, columns: seq<Column>) returns (c: nat, y: int)
    requires columns != [] && ColumnsApart(columns)
    ensures c < |columns| && IsFloor(groups, columns[c].x, y)
    ensures forall k, z :: 0 <= k < |columns| && IsFloor(groups, columns[k].x, z) ==> y < z || (y == z && c <= k)
  {
    hide IsFloor;
    c := 0;
    y := FindFloor(groups, columns[0].x);
    FloorUnique(groups, columns[0].x);
    for i := 1 to |columns|
      invariant c < i && IsFloor(groups, columns[c].x, y)
      invariant forall k, z :: 0 <= k < i && IsFloor(groups, columns[k].x, z) ==> y < z || (y == z && c <= k)
    {
      var z := FindFloor(groups, columns[i].x);
      FloorUnique(groups, columns[i].x);
      if z < y {
        c, y := i, z;
      }
    }
  }

  lemma {:induction false} FloorUnique(groups: Groups, x: int)
    ensures forall y, z :: IsFloor(groups, x, y) && IsFloor(groups, x, z) ==> y == z
  {
  }

  /** The height a team's box needs for its seats. */
  ghost function Needed(seats: nat, columns: nat): int
    requires columns > 0
  {
    150 + (seats + columns - 1) / columns * 230
  }

  /** The least number whose square reaches `n`. */
  ghost predicate IsRoot(root: nat, n: nat) { root * root >= n && (root > 0 ==> (root - 1) * (root - 1) < n) }

  /** As many columns as the rounded-up root of the team's size, at least two and at most as many as given. */
  ghost predicate IsSize(box: Box, count: nat, most: int) {
    exists root: nat :: IsRoot(root, count)
      && box.columns == (if most <= 2 || most < root then most else if root < 2 then 2 else root)
      && box.columns > 0 && box.width == box.columns * 230 + 100 && box.height == Needed(count, box.columns)
  }

  lemma {:induction false} DimensionsSize(box: Box, count: nat, most: nat)
    requires most >= 2 && box.columns == Dimensions(count, most).columns && box.width == Dimensions(count, most).width
    requires box.height == Dimensions(count, most).height
    ensures IsSize(box, count, most)
  {
    assert IsRoot(CeilRoot(count), count);
  }

  /** The leftmost of the columns whose floor is highest. */
  ghost predicate IsEmptiest(groups: Groups, columns: seq<Column>, c: nat, y: int) {
    && c < |columns| && IsFloor(groups, columns[c].x, y)
    && forall k, z :: 0 <= k < |columns| && IsFloor(groups, columns[k].x, z) ==> y < z || (y == z && c <= k)
  }

  /** Where a team not yet on the map goes: to the floor of the emptiest column, as wide as fits there. */
  ghost predicate IsNewBox(groups: Groups, columns: seq<Column>, count: nat, box: Box) {
    exists c :: 0 <= c < |columns| && IsEmptiest(groups, columns, c, box.y) && box.x == columns[c].x
      && IsSize(box, count, (columns[c].width - 100) / 230)
  }

  /** A team not yet on the map goes to the floor of the emptiest column. */
  method AddTeam(groups: Groups, columns: seq<Column>, count: nat) returns (box: Box)
    requires columns != [] && ColumnsApart(columns)
    ensures InColumn(columns, box) && IsFloor(groups, box.x, box.y) && box.y >= TOP && Roomy(box, count)
    ensures IsNewBox(groups, columns, count, box)
  {
    var c, y := ChooseColumn(groups, columns);
    var most := (columns[c].width - MARGIN) / STEP;
    assert most * STEP <= columns[c].width - MARGIN;
    var size := Dimensions(count, most);
    Scale(size.columns, most, STEP);
    box := Box(columns[c].x, y, size.width, size.height, size.columns);
    assert box.x == columns[c].x && box.width <= columns[c].width;
    hide IsFloor, IsSize;
    DimensionsSize(box, count, most);
    assert IsEmptiest(groups, columns, c, box.y);
  }

  /** What seating does to the boxes: old ones only grow taller, new ones start below the old. */
  ghost predicate Grew(before: Groups, after: Groups) {
    && before.Keys <= after.Keys
    && (forall id :: id in before ==> Taller(before[id], after[id]))
    && (forall id, n {:trigger Above(before[id], after[n])} ::
          id in before && n in after && n !in before && before[id].x == after[n].x ==> Above(before[id], after[n]))
  }

  predicate Taller(a: Box, b: Box) { b == a.(height := b.height) && a.height <= b.height }

  /** Given seats are kept everywhere. */
  ghost predicate SeatsKept(before: Seats, after: Seats) {
    forall id, a :: id in before && a in before[id] ==> id in after && a in after[id] && after[id][a] == before[id][a]
  }

  method SeatTeam(b: Bucket, columns: seq<Column>, groups: Groups, slots: Seats)
    returns (groups': Groups, slots': Seats)
    requires Laid(columns, groups, slots) && columns != []
    ensures Laid(columns, groups', slots') && Grew(groups, groups') && SeatsKept(slots, slots')
    ensures groups'.Keys == groups.Keys + {b.id} && slots'.Keys == slots.Keys + {b.id}
    ensures forall a :: a in b.members ==> Seated(slots', b.id, a)
    ensures SeatsOne(b, columns, groups, slots, groups', slots')
  {
    hide SeatsOne, IsNewBox, GivesSeats;
    hide Numbered, Roomy, InColumn, RowsHeight, Laid, Grew, SeatsKept, IsFloor, ColumnsApart;
    var own := SeatsOf(slots, b.id);
    OwnNumbered(columns, groups, slots, b.id);
    var seats := AssignSeats(own, b.members);
    slots' := slots[b.id := seats];
    var box;
    if b.id in groups {
      box := groups[b.id];
      OwnHoused(columns, groups, slots, b.id);
      TallColumns(box, |own|);
    } else {
      LaidColumns(columns, groups, slots);
      box := AddTeam(groups, columns, |b.members|);
      TallColumns(box, |b.members|);
    }
    groups' := groups[b.id := Grown(box, |seats|)];
    TeamSeated(b.id, columns, groups, slots, box, seats);
    TeamGrew(b.id, groups, box, |seats|);
    assert forall a :: a in own ==> a in seats && seats[a] == own[a] by { SeatsGiven(own, seats, b.members); }
    assert forall a :: a in b.members ==> a in seats by { SeatsGiven(own, seats, b.members); }
    TeamKept(b.id, slots, seats);
    OneSeated(b, columns, groups, slots, box, seats);
  }

  lemma {:induction false} SeatsGiven(slots: map<Id, nat>, after: map<Id, nat>, members: seq<Id>)
    requires GivesSeats(slots, after, members)
    ensures forall a :: a in slots ==> a in after && after[a] == slots[a]
    ensures forall a :: a in members ==> a in after
  {
  }

  /** What seating one team does: its members get seats, its box is as tall as they need, everything else stays. */
  ghost predicate SeatsOne(b: Bucket, columns: seq<Column>, groups: Groups, slots: Seats, groups': Groups,
                           slots': Seats) {
    && OnlyAt(groups, groups', b.id) && OnlyAt(slots, slots', b.id)
    && GivesSeats(SeatsOf(slots, b.id), slots'[b.id], b.members)
    && HasBox(b, columns, groups, groups'[b.id], |slots'[b.id]|)
  }

  /** Nothing but this entry is set. */
  ghost predicate OnlyAt<K, V>(before: map<K, V>, after: map<K, V>, k: K) {
    after.Keys == before.Keys + {k} && forall id :: id in before && id != k ==> after[id] == before[id]
  }

  lemma {:induction false} OnlySet<K, V>(m: map<K, V>, k: K, v: V)
    ensures OnlyAt(m, m[k := v], k) && m[k := v][k] == v
  {
  }

  /** The box a team had, or a new one, grown to its seats. */
  ghost predicate HasBox(b: Bucket, columns: seq<Column>, groups: Groups, box': Box, seats: nat) {
    if b.id in groups then GrownTo(groups[b.id], box', seats)
    else exists box: Box :: IsNewBox(groups, columns, |b.members|, box) && GrownTo(box, box', seats)
  }

  /** The same box, as tall as its seats need and never shorter. */
  ghost predicate GrownTo(box: Box, box': Box, seats: nat) {
    && box.columns > 0
    && box' == box.(height := if box.height < Needed(seats, box.columns) then Needed(seats, box.columns)
                    else box.height)
  }

  lemma {:induction false} OneSeated(b: Bucket, columns: seq<Column>, groups: Groups, slots: Seats, box: Box,
                                     seats: map<Id, nat>)
    requires box.columns > 0 && GivesSeats(SeatsOf(slots, b.id), seats, b.members)
    requires if b.id in groups then box == groups[b.id] else IsNewBox(groups, columns, |b.members|, box)
    ensures SeatsOne(b, columns, groups, slots, groups[b.id := Grown(box, |seats|)], slots[b.id := seats])
  {
    hide GivesSeats, Grown, HasBox, IsNewBox, OnlyAt;
    BoxGrown(b, columns, groups, box, |seats|);
    OnlySet(groups, b.id, Grown(box, |seats|));
    OnlySet(slots, b.id, seats);
  }

  lemma {:induction false} BoxGrown(b: Bucket, columns: seq<Column>, groups: Groups, box: Box, seats: nat)
    requires box.columns > 0 && if b.id in groups then box == groups[b.id]
             else IsNewBox(groups, columns, |b.members|, box)
    ensures HasBox(b, columns, groups, Grown(box, seats), seats)
  {
    hide IsNewBox, Grown, GrownTo;
    GrownIs(box, seats);
  }

  lemma {:induction false} GrownIs(box: Box, seats: nat)
    requires box.columns > 0
    ensures GrownTo(box, Grown(box, seats), seats)
  {
  }

  lemma {:induction false} OwnNumbered(columns: seq<Column>, groups: Groups, slots: Seats, id: Id)
    requires Laid(columns, groups, slots)
    ensures Numbered(SeatsOf(slots, id))
  {
    if id in groups {
      assert Housed(columns, groups, slots, id);
    }
  }

  lemma {:induction false} OwnHoused(columns: seq<Column>, groups: Groups, slots: Seats, id: Id)
    requires Laid(columns, groups, slots) && id in groups
    ensures Housed(columns, groups, slots, id)
  {
  }

  lemma {:induction false} LaidColumns(columns: seq<Column>, groups: Groups, slots: Seats)
    requires Laid(columns, groups, slots)
    ensures ColumnsApart(columns)
  {
  }

  lemma {:induction false} TallColumns(box: Box, seats: nat)
    requires Roomy(box, seats)
    ensures box.columns >= 2 && box.width == box.columns * STEP + MARGIN && box.height > 0
  {
    RoomyUpright(box, seats);
  }

  /** A team's box after seating: as tall as its seats need, never shorter. */
  function Grown(box: Box, seats: nat): Box
    requires box.columns > 0
  {
    box.(height := Max(box.height, RowsHeight(seats, box.columns)))
  }

  lemma {:induction false} TeamSeated(id: Id, columns: seq<Column>, groups: Groups, slots: Seats, box: Box,
                                      seats: map<Id, nat>)
    requires Laid(columns, groups, slots) && Numbered(seats)
    requires InColumn(columns, box) && box.y >= TOP && box.columns >= 2 && box.width == box.columns * STEP + MARGIN
    requires id in groups ==> box == groups[id]
    ensures Laid(columns, groups[id := Grown(box, |seats|)], slots[id := seats])
  {
    hide Numbered, RowsHeight, ColumnsApart, InColumn;
    var groups', slots' := groups[id := Grown(box, |seats|)], slots[id := seats];
    forall j | j in groups'
      ensures Housed(columns, groups', slots', j)
    {
      if j == id {
        SameColumn(columns, box, groups'[id]);
      } else {
        assert Housed(columns, groups, slots, j);
      }
    }
  }

  lemma {:induction false} TeamGrew(id: Id, groups: Groups, box: Box, seats: nat)
    requires box.columns > 0 && if id in groups then box == groups[id] else IsFloor(groups, box.x, box.y)
    ensures Grew(groups, groups[id := Grown(box, seats)])
  {
    hide RowsHeight;
  }

  lemma {:induction false} TeamKept(id: Id, slots: Seats, seats: map<Id, nat>)
    requires forall a :: a in SeatsOf(slots, id) ==> a in seats && seats[a] == SeatsOf(slots, id)[a]
    ensures SeatsKept(slots, slots[id := seats])
  {
  }

  lemma {:induction false} SameColumn(columns: seq<Column>, a: Box, b: Box)
    requires InColumn(columns, a) && a.x == b.x && a.width == b.width
    ensures InColumn(columns, b)
  {
    var i :| 0 <= i < |columns| && a.x == columns[i].x && a.width <= columns[i].width;
    assert b.x == columns[i].x;
  }

  method SeatTeams(ordered: seq<Bucket>, columns: seq<Column>, groups: Groups, slots: Seats)
    returns (groups': Groups, slots': Seats)
    requires Laid(columns, groups, slots) && (columns == [] ==> ordered == [])
    ensures Laid(columns, groups', slots') && Grew(groups, groups') && SeatsKept(slots, slots')
    ensures groups'.Keys == groups.Keys + BucketIds(ordered)
    ensures slots'.Keys == slots.Keys + BucketIds(ordered)
    ensures forall i, a :: 0 <= i < |ordered| && a in ordered[i].members ==> Seated(slots', ordered[i].id, a)
    ensures SeatsIn(ordered, columns, groups, slots, groups', slots')
  {
    hide Laid, Grew, SeatsKept, Seated, BucketIds, SeatedTo, SeatsIn, SeatsOne;
    NoneIn(columns, groups, slots);
    groups', slots' := groups, slots;
    GrewAtFirst(columns, groups, slots);
    NoneSeated(ordered, groups, slots);
    for i := 0 to |ordered|
      invariant Laid(columns, groups', slots') && Grew(groups, groups') && SeatsKept(slots, slots')
      invariant SeatedTo(ordered, groups, slots, groups', slots', i)
      invariant SeatsIn(ordered[..i], columns, groups, slots, groups', slots')
    {
      var g, s := SeatTeam(ordered[i], columns, groups', slots');
      assert ordered[..i + 1] == ordered[..i] + [ordered[i]];
      OneMoreIn(ordered[..i], ordered[i], columns, groups, slots, groups', slots', g, s);
      GrewTwice(groups, groups', g);
      KeptTwice(slots, slots', s);
      TeamAdded(ordered, groups, slots, groups', slots', g, s, i);
      groups', slots' := g, s;
    }
    EveryTeamSeated(ordered, groups, slots, groups', slots');
    assert ordered[..|ordered|] == ordered;
  }

  /** Teams are seated one after another, in the order given. */
  ghost predicate SeatsIn(ordered: seq<Bucket>, columns: seq<Column>, groups: Groups, slots: Seats, groups': Groups,
                          slots': Seats) {
    if ordered == [] then groups' == groups && slots' == slots
    else
      var k := |ordered| - 1;
      exists g: Groups, s: Seats ::
        SeatsIn(ordered[..k], columns, groups, slots, g, s) && SeatsOne(ordered[k], columns, g, s, groups', slots')
  }

  lemma {:induction false} NoneIn(columns: seq<Column>, groups: Groups, slots: Seats)
    ensures SeatsIn([], columns, groups, slots, groups, slots)
  {
  }

  lemma {:induction false} OneMoreIn(ordered: seq<Bucket>, b: Bucket, columns: seq<Column>, groups: Groups,
                                     slots: Seats, g: Groups, s: Seats, groups': Groups, slots': Seats)
    requires SeatsIn(ordered, columns, groups, slots, g, s) && SeatsOne(b, columns, g, s, groups', slots')
    ensures SeatsIn(ordered + [b], columns, groups, slots, groups', slots')
  {
    hide SeatsOne;
    assert (ordered + [b])[..|ordered|] == ordered;
  }

  /** The first teams have a box and a seat map, and all their members a seat. */
  ghost predicate SeatedTo(ordered: seq<Bucket>, groups: Groups, slots: Seats, groups': Groups, slots': Seats, i: nat) {
    && i <= |ordered|
    && groups'.Keys == groups.Keys + BucketIds(ordered[..i]) && slots'.Keys == slots.Keys + BucketIds(ordered[..i])
    && forall k, a :: 0 <= k < i && a in ordered[k].members ==> Seated(slots', ordered[k].id, a)
  }

  lemma {:induction false} NoneSeated(ordered: seq<Bucket>, groups: Groups, slots: Seats)
    ensures SeatedTo(ordered, groups, slots, groups, slots, 0)
  {
  }

  lemma {:induction false} TeamAdded(ordered: seq<Bucket>, groups: Groups, slots: Seats, g: Groups, s: Seats,
                                     g': Groups, s': Seats, i: nat)
    requires SeatedTo(ordered, groups, slots, g, s, i) && i < |ordered| && SeatsKept(s, s')
    requires g'.Keys == g.Keys + {ordered[i].id} && s'.Keys == s.Keys + {ordered[i].id}
    requires forall a :: a in ordered[i].members ==> Seated(s', ordered[i].id, a)
    ensures SeatedTo(ordered, groups, slots, g', s', i + 1)
  {
    hide Seated, SeatsKept;
    assert ordered[..i + 1] == ordered[..i] + [ordered[i]];
    MembersKept(ordered, s, s', i);
  }

  lemma {:induction false} EveryTeamSeated(ordered: seq<Bucket>, groups: Groups, slots: Seats, groups': Groups,
                                           slots': Seats)
    requires SeatedTo(ordered, groups, slots, groups', slots', |ordered|)
    ensures groups'.Keys == groups.Keys + BucketIds(ordered) && slots'.Keys == slots.Keys + BucketIds(ordered)
    ensures forall i, a :: 0 <= i < |ordered| && a in ordered[i].members ==> Seated(slots', ordered[i].id, a)
  {
    hide Seated;
    assert ordered[..|ordered|] == ordered;
  }

  predicate Seated(slots: Seats, id: Id, a: Id) { id in slots && a in slots[id] }

  lemma {:induction false} MembersKept(ordered: seq<Bucket>, before: Seats, after: Seats, i: nat)
    requires i <= |ordered| && SeatsKept(before, after)
    requires forall k, a :: 0 <= k < i && a in ordered[k].members ==> Seated(before, ordered[k].id, a)
    ensures forall k, a :: 0 <= k < i && a in ordered[k].members ==> Seated(after, ordered[k].id, a)
  {
  }

  lemma {:induction false} GrewAtFirst(columns: seq<Column>, groups: Groups, slots: Seats)
    ensures Grew(groups, groups) && SeatsKept(slots, slots)
  {
  }

  lemma {:induction false} GrewTwice(a: Groups, b: Groups, c: Groups)
    requires Grew(a, b) && Grew(b, c)
    ensures Grew(a, c)
  {
    forall id | id in a
      ensures Taller(a[id], c[id])
    {
      assert Taller(a[id], b[id]) && Taller(b[id], c[id]);
    }
    forall id, n | id in a && n in c && n !in a && a[id].x == c[n].x
      ensures Above(a[id], c[n])
    {
      assert Taller(a[id], b[id]);
      if n in b {
        assert Taller(b[n], c[n]);
        assert Above(a[id], b[n]);
      } else {
        assert Above(b[id], c[n]);
      }
    }
  }

  lemma {:induction false} KeptTwice(a: Seats, b: Seats, c: Seats)
    requires SeatsKept(a, b) && SeatsKept(b, c)
    ensures SeatsKept(a, c)
  {
  }

  /** No box above this one in its column grew. */
  ghost predicate NoGrowthAbove(before: Groups, after: Groups, id: Id)
    requires id in before && before.Keys <= after.Keys
  {
    forall j :: j in before && before[j].x == before[id].x && before[j].y < before[id].y ==>
      after[j].height == before[j].height
  }

  /** A box that appeared during seating starts below the ones that were there. */
  lemma {:induction false} NewIsLower(before: Groups, after: Groups, id: Id, n: Id)
    requires Upright(before) && Grew(before, after) && id in before && n in after && n !in before
             && before[id].x == after[n].x
    ensures !NoLower(after[n], after[id])
  {
    assert Taller(before[id], after[id]);
    assert Above(before[id], after[n]);
  }

  /** A box with no growth above it is not disturbed by the seating. */
  lemma {:induction false} CalmAbove(before: Groups, after: Groups, id: Id)
    requires Upright(before) && AllClear(before, before.Keys) && Grew(before, after) && id in before
             && NoGrowthAbove(before, after, id)
    ensures Undisturbed(after, id)
  {
    assert Taller(before[id], after[id]);
    forall j, k | j in after && k in after && j != k && after[j].x == after[k].x == after[id].x
                  && NoLower(after[j], after[k]) && NoLower(after[k], after[id])
      ensures Above(after[j], after[k])
    {
      if j in before && k in before {
        assert Taller(before[j], after[j]) && Taller(before[k], after[k]);
        assert Clear(before[j], before[k]);
      } else if j !in before {
        NewIsLower(before, after, id, j);
      } else {
        NewIsLower(before, after, id, k);
      }
    }
  }

  // ---------------------------------------------------------------- one build of the teams

  /** What holds of the teams between builds. */
  ghost predicate Settled(columns: seq<Column>, groups: Groups, slots: Seats) {
    && Laid(columns, groups, slots) && AllClear(groups, groups.Keys)
    && groups.Keys == slots.Keys && (columns == [] ==> groups == map[])
  }

  /** Boxes keep their place across, their columns and their width; they only move down and grow taller. */
  ghost predicate Stable(before: Groups, after: Groups) {
    before.Keys <= after.Keys && forall id :: id in before ==> Steady(before[id], after[id])
  }

  predicate Steady(a: Box, b: Box) {
    b == a.(y := b.y, height := b.height) && a.y <= b.y && a.height <= b.height
  }

  /** A box below nothing that grew has not moved. */
  ghost predicate CalmStay(before: Groups, after: Groups)
    requires before.Keys <= after.Keys
  {
    forall id :: id in before && NoGrowthAbove(before, after, id) ==> after[id].y == before[id].y
  }

  method BuildTeams(ordered: seq<Bucket>, aspect: real, columns: seq<Column>, groups: Groups, slots: Seats)
    returns (columns': seq<Column>, groups': Groups, slots': Seats)
    requires WellBucketed(ordered) && Settled(columns, groups, slots)
    ensures Settled(columns', groups', slots') && (columns != [] ==> columns' == columns)
    ensures Stable(groups, groups') && CalmStay(groups, groups') && SeatsKept(slots, slots')
    ensures groups'.Keys == groups.Keys + BucketIds(ordered)
    ensures forall i, a :: 0 <= i < |ordered| && a in ordered[i].members ==> Seated(slots', ordered[i].id, a)
    ensures TeamsMade(ordered, aspect, columns, groups, slots, columns', groups', slots')
  {
    hide SideBySide, Gridded, IsBest, SizesOf, SeatsIn, AllSnug, Undisturbed, Upright, ColumnsApart, TeamsMade,
      AllSized, OnlyLowered;
    hide WellBucketed, Laid, AllClear, Grew, SeatsKept, Seated, CalmStay, Stable, BucketIds;
    columns' := columns;
    var g := groups;
    if columns == [] && ordered != [] {
      columns', g := Arrange(ordered, aspect);
      assert slots == map[];
      LaidUpright(columns', g, map[]);
    }
    ghost var start := g;
    g, slots' := SeatTeams(ordered, columns', g, slots);
    if columns == [] {
      GrewFromNothing(g);
    }
    LaidUpright(columns', g, slots');
    LaidInColumns(columns', g, slots');
    groups' := PushAll(g, columns');
    LaidLowered(columns', g, groups', slots');
    GrewThenLowered(columns, groups, slots, g, groups');
    assert groups'.Keys == g.Keys;
    TeamsBuilt(ordered, aspect, columns, groups, slots, columns', start, g, groups', slots');
  }

  /** Where a build starts: from the boxes there are, or the first time from the grid. */
  ghost predicate Starts(ordered: seq<Bucket>, aspect: real, columns: seq<Column>, groups: Groups,
                         columns': seq<Column>, start: Groups) {
    if columns == [] && ordered != [] then
      && SideBySide(columns') && Gridded(ordered, columns', start) && AllSized(ordered, start)
      && IsBest(SizesOf(ordered), |columns'|, aspect)
      && start.Keys == BucketIds(ordered) && AllClear(start, start.Keys) && Upright(start)
    else columns' == columns && start == groups
  }

  /** Each box has the size of its team, at most four columns wide. */
  ghost predicate AllSized(ordered: seq<Bucket>, groups: Groups) {
    forall i :: 0 <= i < |ordered| ==>
      ordered[i].id in groups && IsSize(groups[ordered[i].id], |ordered[i].members|, 4)
  }

  /** Boxes that got in each other's way go down in turn, each right under another; the rest stays. */
  ghost predicate Settles(groups: Groups, after: Groups) {
    && OnlyLowered(groups, after) && AllClear(after, after.Keys) && AllSnug(groups, after, groups.Keys)
    && forall id :: id in groups && Undisturbed(groups, id) ==> after[id] == groups[id]
  }

  /** One build of the teams: start, seat the buckets in order, settle. */
  ghost predicate TeamsMade(ordered: seq<Bucket>, aspect: real, columns: seq<Column>, groups: Groups, slots: Seats,
                              columns': seq<Column>, groups': Groups, slots': Seats) {
    exists start: Groups, g: Groups ::
      && Starts(ordered, aspect, columns, groups, columns', start) && Grew(start, g)
      && SeatsIn(ordered, columns', start, slots, g, slots') && Settles(g, groups')
  }

  lemma {:induction false} TeamsBuilt(ordered: seq<Bucket>, aspect: real, columns: seq<Column>, groups: Groups,
                                      slots: Seats,
                                      columns': seq<Column>, start: Groups, g: Groups, groups': Groups, slots': Seats)
    requires Starts(ordered, aspect, columns, groups, columns', start) && Grew(start, g)
    requires SeatsIn(ordered, columns', start, slots, g, slots') && Settles(g, groups')
    ensures TeamsMade(ordered, aspect, columns, groups, slots, columns', groups', slots')
  {
    hide Starts, SeatsIn, Settles, Grew;
  }

  lemma {:induction false} GrewFromNothing(after: Groups)
    ensures Grew(map[], after)
  {
  }

  lemma {:induction false} LaidInColumns(columns: seq<Column>, groups: Groups, slots: Seats)
    requires Laid(columns, groups, slots)
    ensures ColumnsApart(columns) && forall id :: id in groups ==> InColumn(columns, groups[id])
  {
    forall id | id in groups
      ensures InColumn(columns, groups[id])
    {
      assert Housed(columns, groups, slots, id);
    }
  }

  /** Moving boxes down keeps every team housed. */
  lemma {:induction false} LaidLowered(columns: seq<Column>, before: Groups, after: Groups, slots: Seats)
    requires Laid(columns, before, slots) && OnlyLowered(before, after)
    ensures Laid(columns, after, slots)
  {
    hide ColumnsApart, InColumn, Numbered, RowsHeight;
    forall id | id in after
      ensures Housed(columns, after, slots, id)
    {
      assert Lowered(before[id], after[id]) && Housed(columns, before, slots, id);
      SameColumn(columns, before[id], after[id]);
    }
  }

  /** Seating grows boxes and settling lowers them; both keep what must not change. */
  lemma {:induction false} GrewThenLowered(columns: seq<Column>, before: Groups, slots: Seats, grown: Groups,
                                           after: Groups)
    requires Laid(columns, before, slots) && AllClear(before, before.Keys) && Grew(before, grown)
             && OnlyLowered(grown, after)
    requires forall id :: id in grown && Undisturbed(grown, id) ==> after[id] == grown[id]
    ensures Stable(before, after) && CalmStay(before, after)
  {
    LaidUpright(columns, before, slots);
    hide Undisturbed, AllClear, Laid, Upright;
    forall id | id in before
      ensures Steady(before[id], after[id]) && after[id].height == grown[id].height
    {
      assert Taller(before[id], grown[id]) && Lowered(grown[id], after[id]);
    }
    forall id | id in before && NoGrowthAbove(before, after, id)
      ensures after[id].y == before[id].y
    {
      assert NoGrowthAbove(before, grown, id);
      CalmAbove(before, grown, id);
      assert Taller(before[id], grown[id]);
    }
  }

  // ---------------------------------------------------------------- where agents stand

  /** Points of the members of every bucket, at the seat they hold in their team's box. */
  method PlaceMembers(ordered: seq<Bucket>, groups: Groups, slots: Seats) returns (points: map<Id, Spot>)
    requires WellBucketed(ordered)
    requires forall i :: 0 <= i < |ordered| ==> ordered[i].id in groups && groups[ordered[i].id].columns > 0
    requires forall i, a :: 0 <= i < |ordered| && a in ordered[i].members ==> Seated(slots, ordered[i].id, a)
    ensures forall i, a :: 0 <= i < |ordered| && a in ordered[i].members ==>
              AtSeat(points, groups, slots, ordered[i].id, a)
  {
    points := map[];
    for i := 0 to |ordered|
      invariant forall k, a :: 0 <= k < i && a in ordered[k].members ==> AtSeat(points, groups, slots, ordered[k].id, a)
    {
      hide AtSeat;
      var more := PlaceBucket(ordered[i], groups, slots, points);
      forall k, a | 0 <= k < i + 1 && a in ordered[k].members
        ensures AtSeat(more, groups, slots, ordered[k].id, a)
      {
        if k < i {
          assert a !in ordered[i].members;
          SameSeat(points, more, groups, slots, ordered[k].id, a);
        }
      }
      points := more;
    }
  }

  ghost predicate AtSeat(points: map<Id, Spot>, groups: Groups, slots: Seats, id: Id, a: Id) {
    && Seated(slots, id, a) && id in groups && groups[id].columns > 0
    && a in points && points[a] == SeatAt(groups[id], slots[id][a])
  }

  lemma {:induction false} SameSeat(points: map<Id, Spot>, more: map<Id, Spot>, groups: Groups, slots: Seats, id: Id,
                                    a: Id)
    requires AtSeat(points, groups, slots, id, a) && a in more && more[a] == points[a]
    ensures AtSeat(more, groups, slots, id, a)
  {
  }

  method PlaceBucket(b: Bucket, groups: Groups, slots: Seats, points: map<Id, Spot>) returns (more: map<Id, Spot>)
    requires b.id in groups && groups[b.id].columns > 0 && forall a :: a in b.members ==> Seated(slots, b.id, a)
    ensures forall a :: a in b.members ==> AtSeat(more, groups, slots, b.id, a)
    ensures forall a :: a in points && a !in b.members ==> a in more && more[a] == points[a]
  {
    hide SeatAt;
    more := points;
    for k := 0 to |b.members|
      invariant forall a :: a in b.members[..k] ==> AtSeat(more, groups, slots, b.id, a)
      invariant forall a :: a in points && a !in b.members ==> a in more && more[a] == points[a]
    {
      var a := b.members[k];
      assert Seated(slots, b.id, a);
      more := more[a := SeatAt(groups[b.id], slots[b.id][a])];
      assert b.members[..k + 1] == b.members[..k] + [a];
    }
    assert b.members[..|b.members|] == b.members;
  }

  predicate Inside(box: Box, p: Spot) {
    box.x < p.x < box.x + box.width && box.y < p.y < box.y + box.height
  }

  /** A placed agent stands inside its team's box. */
  lemma {:induction false} AgentInside(points: map<Id, Spot>, columns: seq<Column>, groups: Groups, slots: Seats,
                                       id: Id, a: Id)
    requires Settled(columns, groups, slots) && AtSeat(points, groups, slots, id, a)
    ensures Inside(groups[id], points[a])
  {
    assert Housed(columns, groups, slots, id);
    SeatInside(groups[id], slots[id][a], |slots[id]|);
  }

  /** Two placed agents stand a full step apart on some axis. */
  lemma {:induction false} AgentsApart(points: map<Id, Spot>, columns: seq<Column>, groups: Groups, slots: Seats,
                                       id: Id, a: Id, jd: Id, b: Id)
    requires Settled(columns, groups, slots) && a != b
    requires AtSeat(points, groups, slots, id, a) && AtSeat(points, groups, slots, jd, b)
    ensures FarApart(points[a], points[b])
  {
    hide SeatAt, FarApart, Clear, ColumnsApart, InColumn, Roomy;
    assert Housed(columns, groups, slots, id) && Housed(columns, groups, slots, jd);
    if id == jd {
      SeatsApart(groups[id], slots[id][a], slots[id][b]);
    } else {
      assert Clear(groups[id], groups[jd]);
      BoxesKeepSeatsApart(groups[id], slots[id][a], |slots[id]|, groups[jd], slots[jd][b], |slots[jd]|);
    }
  }
}
