/** The organization map's geometry: team boxes in columns, numbered seats inside them. */
module MapGeography {
  import opened Common

  const STEP := 230
  const GAP_X := 280
  const GAP_Y := 260
  const TOP := 180
  const LEFT := 120
  const MARGIN := 100
  const HEADER := 150

  datatype Spot = Spot(x: int, y: int)
  datatype Column = Column(x: int, width: int)
  datatype Box = Box(x: int, y: int, width: int, height: int, columns: nat)
  datatype Size = Size(columns: nat, width: int, height: int)

  function Max(a: int, b: int): int { if a < b then b else a }
  function Min(a: int, b: int): int { if b < a then b else a }

  function CeilDiv(a: nat, b: nat): nat
    requires b > 0
  {
    (a + b - 1) / b
  }

  /** The square root rounded up: the least number whose square reaches `n`. */
  function CeilRoot(n: nat): (r: nat)
    ensures r * r >= n && (r == 0 || (r - 1) * (r - 1) < n)
  {
    RootFrom(n, 0)
  }

  function RootFrom(n: nat, k: nat): (r: nat)
    requires k == 0 || (k - 1) * (k - 1) < n
    ensures r * r >= n && (r == 0 || (r - 1) * (r - 1) < n)
    decreases n - k
  {
    if k * k >= n then k else RootFrom(n, k + 1)
  }

  function RowsHeight(count: nat, columns: nat): int
    requires columns > 0
  {
    HEADER + CeilDiv(count, columns) * STEP
  }

  /** Box dimensions for a team of `count`, at most `most` columns wide. */
  function Dimensions(count: nat, most: nat): (s: Size)
    requires most >= 2
    ensures 2 <= s.columns <= most && s.width == s.columns * STEP + MARGIN && s.height == RowsHeight(count, s.columns)
  {
    var columns := Min(most, Max(2, CeilRoot(count)));
    Size(columns, columns * STEP + MARGIN, RowsHeight(count, columns))
  }

  // ---------------------------------------------------------------- seats

  /** Seats are numbered from zero without gaps, one per member. */
  ghost predicate Numbered(slots: map<Id, nat>) {
    && (forall a :: a in slots ==> slots[a] < |slots|)
    && (forall a, b :: a in slots && b in slots && a != b ==> slots[a] != slots[b])
  }

  function SeatAt(box: Box, slot: nat): Spot
    requires box.columns > 0
  {
    Spot(box.x + 165 + slot % box.columns * STEP, box.y + 190 + slot / box.columns * STEP)
  }

  /** A box as wide as its columns and tall enough for its seats. */
  predicate Roomy(box: Box, seats: nat) {
    box.columns >= 2 && box.width == box.columns * STEP + MARGIN && box.height >= RowsHeight(seats, box.columns)
  }

  lemma {:induction false} RowBound(slot: nat, seats: nat, columns: nat)
    requires slot < seats && columns > 0
    ensures slot / columns + 1 <= CeilDiv(seats, columns)
  {
    assert slot == slot / columns * columns + slot % columns;
    var q := CeilDiv(seats, columns);
    assert seats + columns - 1 == q * columns + (seats + columns - 1) % columns;
    if slot / columns >= q {
      Scale(q, slot / columns, columns);
    }
  }

  lemma {:induction false} Scale(a: int, b: int, c: int)
    requires a <= b && c >= 0
    ensures a * c <= b * c
  {
  }

  /** Every seat lies well inside its box. */
  lemma {:induction false} SeatInside(box: Box, slot: nat, seats: nat)
    requires Roomy(box, seats) && slot < seats
    ensures var p := SeatAt(box, slot);
            && box.x + 165 <= p.x <= box.x + box.width - 165
            && box.y + 190 <= p.y <= box.y + box.height - 190
  {
    RowBound(slot, seats, box.columns);
    Scale(slot / box.columns + 1, CeilDiv(seats, box.columns), STEP);
    assert slot % box.columns + 1 <= box.columns;
    Scale(slot % box.columns + 1, box.columns, STEP);
  }

  predicate FarApart(p: Spot, q: Spot) {
    p.x + STEP <= q.x || q.x + STEP <= p.x || p.y + STEP <= q.y || q.y + STEP <= p.y
  }

  /** Two seats of one box are a full step apart on some axis. */
  lemma {:induction false} SeatsApart(box: Box, s: nat, t: nat)
    requires box.columns > 0 && s != t
    ensures FarApart(SeatAt(box, s), SeatAt(box, t))
  {
    var c := box.columns;
    assert s == s / c * c + s % c && t == t / c * c + t % c;
    if s / c != t / c {
      Scale(Min(s / c, t / c) + 1, Max(s / c, t / c), STEP);
    } else {
      Scale(Min(s % c, t % c) + 1, Max(s % c, t % c), STEP);
    }
  }

  // ---------------------------------------------------------------- boxes

  predicate Above(a: Box, b: Box) { a.y + a.height + GAP_Y <= b.y }
  predicate LeftOf(a: Box, b: Box) { a.x + a.width + GAP_X <= b.x }

  /** Apart by the vertical gap inside a column, by the horizontal gap across columns. */
  predicate Clear(a: Box, b: Box) {
    if a.x == b.x then Above(a, b) || Above(b, a) else LeftOf(a, b) || LeftOf(b, a)
  }

  /** Columns run left to right with the gap between, each at least two seats wide. */
  ghost predicate ColumnsApart(columns: seq<Column>) {
    && (forall i, j :: 0 <= i < j < |columns| ==> columns[i].x + columns[i].width + GAP_X <= columns[j].x)
    && (forall i :: 0 <= i < |columns| ==> columns[i].width >= 2 * STEP + MARGIN)
  }

  /** The box stands in some column and is no wider. */
  ghost predicate InColumn(columns: seq<Column>, box: Box) {
    exists i :: 0 <= i < |columns| && box.x == columns[i].x && box.width <= columns[i].width
  }

  lemma {:induction false} AcrossColumns(columns: seq<Column>, a: Box, b: Box)
    requires ColumnsApart(columns) && InColumn(columns, a) && InColumn(columns, b) && a.x != b.x
    ensures LeftOf(a, b) || LeftOf(b, a)
  {
    var i :| 0 <= i < |columns| && a.x == columns[i].x && a.width <= columns[i].width;
    var j :| 0 <= j < |columns| && b.x == columns[j].x && b.width <= columns[j].width;
    if i < j {
    } else if j < i {
    }
  }

  /** Seats of two clear boxes are more than a step apart. */
  lemma {:induction false} BoxesKeepSeatsApart(a: Box, s: nat, n: nat, b: Box, t: nat, m: nat)
    requires Roomy(a, n) && Roomy(b, m) && s < n && t < m && Clear(a, b)
    ensures FarApart(SeatAt(a, s), SeatAt(b, t))
  {
    SeatInside(a, s, n);
    SeatInside(b, t, m);
  }

  // ---------------------------------------------------------------- growth pushes down

  predicate NoLower(a: Box, b: Box) { a.y <= b.y }

  /** Everything at or above this box in its column is clear of everything else there. */
  ghost predicate Undisturbed(groups: map<Id, Box>, id: Id)
    requires id in groups
  {
    forall j, k {:trigger Above(groups[j], groups[k])} ::
      (j in groups && k in groups && j != k && groups[j].x == groups[k].x == groups[id].x
       && NoLower(groups[j], groups[k]) && NoLower(groups[k], groups[id])) ==> Above(groups[j], groups[k])
  }

  /** The boxes of this column, as a set of team ids. */
  function Standing(groups: map<Id, Box>, x: int): set<Id> {
    set id | id in groups && groups[id].x == x
  }

  /** Same boxes, moved down at most. */
  ghost predicate OnlyLowered(before: map<Id, Box>, after: map<Id, Box>) {
    before.Keys == after.Keys && forall id :: id in before ==> Lowered(before[id], after[id])
  }

  predicate Lowered(a: Box, b: Box) { b == a.(y := b.y) && a.y <= b.y }

  ghost predicate AllClear(groups: map<Id, Box>, ids: set<Id>) {
    forall j, k {:trigger Clear(groups[j], groups[k])} ::
      j in ids && k in ids && j != k && j in groups && k in groups ==> Clear(groups[j], groups[k])
  }

  /** Boxes of positive height, none above the top margin. */
  ghost predicate Upright(groups: map<Id, Box>) {
    forall id :: id in groups ==> groups[id].height > 0 && groups[id].y >= TOP
  }

  /** One box stands right below another, the gap between them. */
  predicate RestsUnder(a: Box, b: Box) { a.x == b.x && b.y == a.y + a.height + GAP_Y }

  /** A box stays where it was or comes to rest right under another of these. */
  ghost predicate Snug(groups: map<Id, Box>, after: map<Id, Box>, ids: set<Id>, id: Id) {
    && id in groups && id in after
    && (after[id].y == groups[id].y || exists j :: j in ids && j in after && RestsUnder(after[j], after[id]))
  }

  /** One that began higher in a column ends higher, clear of one that began lower. */
  ghost predicate InTurn(groups: map<Id, Box>, after: map<Id, Box>, j: Id, k: Id) {
    && j in groups && k in groups && j in after && k in after
    && (groups[j].x == groups[k].x && groups[j].y < groups[k].y ==> Above(after[j], after[k]))
  }

  ghost predicate AllSnug(groups: map<Id, Box>, after: map<Id, Box>, ids: set<Id>) {
    && (forall id :: id in ids ==> Snug(groups, after, ids, id))
    && (forall j, k :: j in ids && k in ids ==> InTurn(groups, after, j, k))
  }

  /** Part-way down a column: what is done is clear and ends above `bottom`; what is left is untouched and lower. */
  ghost predicate Pushed(groups: map<Id, Box>, after: map<Id, Box>, x: int, done: set<Id>, rest: set<Id>, bottom: int) {
    && OnlyLowered(groups, after) && done + rest <= Standing(groups, x) && AllClear(after, done)
    && (forall id :: id in groups && id !in done ==> after[id] == groups[id])
    && (forall id :: id in done ==> after[id].y + after[id].height + GAP_Y <= bottom)
    && (forall d, r {:trigger NoLower(groups[d], groups[r])} :: d in done && r in rest ==>
          NoLower(groups[d], groups[r]))
    && (forall id :: id in done && Undisturbed(groups, id) ==> after[id] == groups[id])
    && (bottom == TOP || exists d :: d in done && bottom == after[d].y + after[d].height + GAP_Y)
    && AllSnug(groups, after, done)
  }

  /** Go down one column from the top, lowering each box below the one before it. */
  method PushColumn(groups: map<Id, Box>, x: int) returns (after: map<Id, Box>)
    requires Upright(groups)
    ensures OnlyLowered(groups, after)
    ensures forall id :: id in groups && groups[id].x != x ==> after[id] == groups[id]
    ensures AllClear(after, Standing(groups, x))
    ensures forall id :: id in groups && groups[id].x == x && Undisturbed(groups, id) ==> after[id] == groups[id]
    ensures AllSnug(groups, after, Standing(groups, x))
  {
    hide Pushed, Upright, AllClear, Undisturbed, OnlyLowered, AllSnug;
    after := groups;
    PushedFromTo(groups, after, x, TOP);
    var rest := Standing(groups, x);
    ghost var done: set<Id> := {};
    var bottom := TOP;
    while rest != {}
      invariant rest !! done && rest + done == Standing(groups, x)
      invariant Pushed(groups, after, x, done, rest, bottom)
      decreases |rest|
    {
      var id := Topmost(groups, rest);
      OnePushed(groups, after, x, done, rest, bottom, id);
      var box := after[id].(y := Max(after[id].y, bottom));
      after := after[id := box];
      bottom := box.y + box.height + GAP_Y;
      rest, done := rest - {id}, done + {id};
    }
    assert done == Standing(groups, x);
    PushedFromTo(groups, after, x, bottom);
  }

  lemma {:induction false} PushedFromTo(groups: map<Id, Box>, after: map<Id, Box>, x: int, bottom: int)
    ensures Pushed(groups, groups, x, {}, Standing(groups, x), TOP)
    ensures Pushed(groups, after, x, Standing(groups, x), {}, bottom) ==>
              && OnlyLowered(groups, after) && AllClear(after, Standing(groups, x))
              && (forall id :: id in groups && groups[id].x != x ==> after[id] == groups[id])
              && (forall id :: id in groups && groups[id].x == x && Undisturbed(groups, id) ==> after[id] == groups[id])
              && AllSnug(groups, after, Standing(groups, x))
  {
  }

  method Topmost(groups: map<Id, Box>, rest: set<Id>) returns (id: Id)
    requires rest != {} && forall k :: k in rest ==> k in groups
    ensures id in rest && forall k :: k in rest ==> NoLower(groups[id], groups[k])
  {
    id :| id in rest;
    var left := rest - {id};
    while left != {}
      invariant left <= rest && id in rest
      invariant forall k :: k in rest && k !in left ==> NoLower(groups[id], groups[k])
      decreases |left|
    {
      var k :| k in left;
      if groups[k].y < groups[id].y {
        id := k;
      }
      left := left - {k};
    }
  }

  /** The box just done, if it was undisturbed, leaves room for the next undisturbed one. */
  lemma {:induction false} RoomBelow(groups: map<Id, Box>, after: map<Id, Box>, x: int, done: set<Id>, rest: set<Id>,
                                     bottom: int, id: Id)
    requires Upright(groups) && Pushed(groups, after, x, done, rest, bottom) && rest !! done && id in rest
             && Undisturbed(groups, id)
    ensures bottom <= groups[id].y
  {
    if bottom != TOP {
      var d :| d in done && bottom == after[d].y + after[d].height + GAP_Y;
      assert NoLower(groups[d], groups[id]);
      assert Undisturbed(groups, d);
      assert Above(groups[d], groups[id]);
    }
  }

  lemma {:induction false} OnePushed(groups: map<Id, Box>, after: map<Id, Box>, x: int, done: set<Id>, rest: set<Id>,
                                     bottom: int, id: Id)
    requires Upright(groups) && Pushed(groups, after, x, done, rest, bottom) && rest !! done
    requires id in rest && forall k :: k in rest ==> NoLower(groups[id], groups[k])
    ensures id in after
    ensures var box := after[id].(y := Max(after[id].y, bottom));
            Pushed(groups, after[id := box], x, done + {id}, rest - {id}, box.y + box.height + GAP_Y)
  {
    hide Undisturbed, AllSnug;
    var box := after[id].(y := Max(after[id].y, bottom));
    var next := after[id := box];
    OneSnug(groups, after, x, done, rest, bottom, id);
    assert AllClear(next, done + {id}) by {
      forall j, k | j in done + {id} && k in done + {id} && j != k
        ensures Clear(next[j], next[k])
      {
        if j != id && k != id {
          assert Clear(after[j], after[k]);
        }
      }
    }
    if Undisturbed(groups, id) {
      RoomBelow(groups, after, x, done, rest, bottom, id);
    }
    forall d, r | d in done + {id} && r in rest - {id}
      ensures NoLower(groups[d], groups[r])
    {
    }
    assert next[id] == box;
  }

  lemma {:induction false} OneSnug(groups: map<Id, Box>, after: map<Id, Box>, x: int, done: set<Id>, rest: set<Id>,
                                   bottom: int, id: Id)
    requires Upright(groups) && Pushed(groups, after, x, done, rest, bottom) && rest !! done && id in rest
    ensures id in after && AllSnug(groups, after[id := after[id].(y := Max(after[id].y, bottom))], done + {id})
  {
    hide Undisturbed, AllClear;
    var box := after[id].(y := Max(after[id].y, bottom));
    var next := after[id := box];
    forall d | d in done
      ensures after[d].x == groups[d].x == x && Above(after[d], box) && groups[d].y <= groups[id].y
    {
      assert NoLower(groups[d], groups[id]) && Lowered(groups[d], after[d]) && d in Standing(groups, x);
    }
    assert groups[id].x == x && after[id] == groups[id] && id in Standing(groups, x);
    forall k | k in done + {id}
      ensures Snug(groups, next, done + {id}, k)
    {
      if k != id {
        assert Snug(groups, after, done, k);
        if after[k].y != groups[k].y {
          var j :| j in done && j in after && RestsUnder(after[j], after[k]);
          assert RestsUnder(next[j], next[k]);
        }
      } else if box.y != groups[id].y {
        var d :| d in done && bottom == after[d].y + after[d].height + GAP_Y;
        assert RestsUnder(next[d], next[id]);
      }
    }
    forall j, k | j in done + {id} && k in done + {id}
      ensures InTurn(groups, next, j, k)
    {
      if j != id && k != id {
        assert InTurn(groups, after, j, k);
      }
    }
  }

  /** Settle every column in turn. */
  method PushAll(groups: map<Id, Box>, columns: seq<Column>) returns (after: map<Id, Box>)
    requires ColumnsApart(columns) && Upright(groups)
    requires forall id :: id in groups ==> InColumn(columns, groups[id])
    ensures after.Keys == groups.Keys && OnlyLowered(groups, after) && AllClear(after, groups.Keys)
    ensures forall id :: id in groups && Undisturbed(groups, id) ==> after[id] == groups[id]
    ensures AllSnug(groups, after, groups.Keys)
  {
    hide PushedTo, Undisturbed, AllClear, ColumnsApart, OnlyLowered, InColumn, AllSnug, SnugTo;
    after := groups;
    NonePushed(groups, columns);
    for i := 0 to |columns|
      invariant PushedTo(groups, after, columns, i) && SnugTo(groups, after, columns, i)
    {
      StillUpright(groups, after, columns, i);
      var next := PushColumn(after, columns[i].x);
      ColumnPushed(groups, after, next, columns, i);
      ColumnSnug(groups, after, next, columns, i);
      after := next;
    }
    AllPushed(groups, after, columns);
    EveryColumnSnug(groups, after, columns);
    SameIds(groups, after);
  }

  lemma {:induction false} SameIds(groups: map<Id, Box>, after: map<Id, Box>)
    requires OnlyLowered(groups, after)
    ensures after.Keys == groups.Keys
  {
  }

  ghost predicate SnugTo(groups: map<Id, Box>, after: map<Id, Box>, columns: seq<Column>, i: nat) {
    i <= |columns| && forall c :: 0 <= c < i ==> AllSnug(groups, after, Standing(groups, columns[c].x))
  }

  lemma {:induction false} ColumnSnug(groups: map<Id, Box>, before: map<Id, Box>, after: map<Id, Box>,
                                      columns: seq<Column>, i: nat)
    requires ColumnsApart(columns) && PushedTo(groups, before, columns, i) && i < |columns|
             && OnlyLowered(before, after)
    requires SnugTo(groups, before, columns, i) && AllSnug(before, after, Standing(before, columns[i].x))
    requires forall id :: id in before && before[id].x != columns[i].x ==> after[id] == before[id]
    ensures SnugTo(groups, after, columns, i + 1)
  {
    hide Undisturbed, AllClear;
    forall id | id in groups
      ensures Lowered(groups[id], before[id])
      ensures groups[id].x == columns[i].x ==> before[id] == groups[id]
    {
    }
    assert Standing(before, columns[i].x) == Standing(groups, columns[i].x);
    forall c | 0 <= c < i + 1
      ensures AllSnug(groups, after, Standing(groups, columns[c].x))
    {
      var ids := Standing(groups, columns[c].x);
      assert forall id :: id in ids ==> groups[id].x == before[id].x == columns[c].x;
      if c < i {
        assert AllSnug(groups, before, ids) && forall id :: id in ids ==> after[id] == before[id];
        SnugAlike(groups, before, groups, after, ids);
      } else {
        SnugAlike(before, after, groups, after, ids);
      }
    }
  }

  lemma {:induction false} SnugAlike(g: map<Id, Box>, a: map<Id, Box>, h: map<Id, Box>, b: map<Id, Box>, ids: set<Id>)
    requires AllSnug(g, a, ids)
    requires forall id :: id in ids ==> id in g && id in h && id in a && id in b && g[id] == h[id] && a[id] == b[id]
    ensures AllSnug(h, b, ids)
  {
    forall id | id in ids
      ensures Snug(h, b, ids, id)
    {
      assert Snug(g, a, ids, id);
      if a[id].y != g[id].y {
        var j :| j in ids && j in a && RestsUnder(a[j], a[id]);
        assert RestsUnder(b[j], b[id]);
      }
    }
    forall j, k | j in ids && k in ids
      ensures InTurn(h, b, j, k)
    {
      assert InTurn(g, a, j, k);
    }
  }

  lemma {:induction false} EveryColumnSnug(groups: map<Id, Box>, after: map<Id, Box>, columns: seq<Column>)
    requires SnugTo(groups, after, columns, |columns|) && OnlyLowered(groups, after)
    requires forall id :: id in groups ==> InColumn(columns, groups[id])
    ensures AllSnug(groups, after, groups.Keys)
  {
    forall id | id in groups
      ensures Snug(groups, after, groups.Keys, id)
    {
      var c :| 0 <= c < |columns| && groups[id].x == columns[c].x;
      var ids := Standing(groups, columns[c].x);
      assert AllSnug(groups, after, ids) && Snug(groups, after, ids, id);
    }
    forall j, k | j in groups && k in groups
      ensures InTurn(groups, after, j, k)
    {
      var c :| 0 <= c < |columns| && groups[j].x == columns[c].x;
      var ids := Standing(groups, columns[c].x);
      assert AllSnug(groups, after, ids);
      if groups[k].x == groups[j].x {
        assert j in ids && k in ids;
        assert InTurn(groups, after, j, k);
      }
    }
  }

  lemma {:induction false} NonePushed(groups: map<Id, Box>, columns: seq<Column>)
    ensures PushedTo(groups, groups, columns, 0) && SnugTo(groups, groups, columns, 0)
  {
  }

  /** Boxes of one column were kept clear when it was settled, boxes of two columns stand apart anyway. */
  lemma {:induction false} AllPushed(groups: map<Id, Box>, after: map<Id, Box>, columns: seq<Column>)
    requires ColumnsApart(columns) && PushedTo(groups, after, columns, |columns|)
    requires forall id :: id in groups ==> InColumn(columns, groups[id])
    ensures OnlyLowered(groups, after) && AllClear(after, groups.Keys)
    ensures forall id :: id in groups && Undisturbed(groups, id) ==> after[id] == groups[id]
  {
    hide Undisturbed, ColumnsApart;
    forall j, k | j in groups && k in groups && j != k
      ensures Clear(after[j], after[k])
    {
      assert Lowered(groups[j], after[j]) && Lowered(groups[k], after[k]);
      if groups[j].x != groups[k].x {
        AcrossColumns(columns, groups[j], groups[k]);
      } else {
        var c :| 0 <= c < |columns| && groups[j].x == columns[c].x;
        assert AllClear(after, Standing(groups, columns[c].x));
      }
    }
  }

  /** The first columns are settled, the others untouched. */
  ghost predicate PushedTo(groups: map<Id, Box>, after: map<Id, Box>, columns: seq<Column>, i: nat) {
    && i <= |columns| && OnlyLowered(groups, after)
    && (forall id :: id in groups && (forall k :: 0 <= k < i ==> groups[id].x != columns[k].x) ==>
          after[id] == groups[id])
    && (forall c :: 0 <= c < i ==> AllClear(after, Standing(groups, columns[c].x)))
    && (forall id :: id in groups && Undisturbed(groups, id) ==> after[id] == groups[id])
  }

  lemma {:induction false} StillUpright(groups: map<Id, Box>, after: map<Id, Box>, columns: seq<Column>, i: nat)
    requires Upright(groups) && PushedTo(groups, after, columns, i)
    ensures Upright(after)
  {
    forall id | id in after
      ensures after[id].height > 0 && after[id].y >= TOP
    {
      assert Lowered(groups[id], after[id]);
    }
  }

  lemma {:induction false} ColumnPushed(groups: map<Id, Box>, before: map<Id, Box>, after: map<Id, Box>,
                                        columns: seq<Column>, i: nat)
    requires ColumnsApart(columns) && PushedTo(groups, before, columns, i) && i < |columns|
             && OnlyLowered(before, after)
    requires forall id :: id in before && before[id].x != columns[i].x ==> after[id] == before[id]
    requires AllClear(after, Standing(before, columns[i].x))
    requires forall id :: id in before && before[id].x == columns[i].x && Undisturbed(before, id) ==>
               after[id] == before[id]
    ensures PushedTo(groups, after, columns, i + 1)
  {
    hide Undisturbed, AllClear;
    forall id | id in groups
      ensures Lowered(groups[id], after[id]) && groups[id].x == before[id].x
      ensures groups[id].x == columns[i].x ==> before[id] == groups[id]
    {
      assert Lowered(groups[id], before[id]) && Lowered(before[id], after[id]);
    }
    assert Standing(before, columns[i].x) == Standing(groups, columns[i].x);
    forall c | 0 <= c < i + 1
      ensures AllClear(after, Standing(groups, columns[c].x))
    {
      if c < i {
        ClearKept(before, after, Standing(groups, columns[c].x));
      }
    }
    forall id | id in groups && Undisturbed(groups, id)
      ensures after[id] == groups[id]
    {
      if groups[id].x == columns[i].x {
        SameColumnUndisturbed(groups, before, id);
      }
    }
  }

  lemma {:induction false} ClearKept(before: map<Id, Box>, after: map<Id, Box>, ids: set<Id>)
    requires AllClear(before, ids) && before.Keys == after.Keys
    requires forall id :: id in ids ==> id in before && after[id] == before[id]
    ensures AllClear(after, ids)
  {
    forall j, k | j in ids && k in ids && j != k
      ensures Clear(after[j], after[k])
    {
      assert Clear(before[j], before[k]);
    }
  }

  lemma {:induction false} SameColumnUndisturbed(groups: map<Id, Box>, before: map<Id, Box>, id: Id)
    requires id in groups && Undisturbed(groups, id) && before.Keys == groups.Keys
    requires forall j :: j in groups ==> before[j].x == groups[j].x
    requires forall j :: j in groups && groups[j].x == groups[id].x ==> before[j] == groups[j]
    ensures Undisturbed(before, id)
  {
    forall j, k | j in before && k in before && j != k && before[j].x == before[k].x == before[id].x
                  && NoLower(before[j], before[k]) && NoLower(before[k], before[id])
      ensures Above(before[j], before[k])
    {
      assert Above(groups[j], groups[k]);
    }
  }
}
