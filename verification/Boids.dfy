/** The preload flock: a cell grid that must give what looking at every bird would give. */
module Boids {
  import opened Common

  datatype Vec = Vec(x: real, y: real, z: real)
  datatype Boid = Boid(at: Vec, velocity: Vec)

  const CELL := 0.2
  const RADIUS_SQUARED := 0.04
  const NEAR := 0.048
  const NEAR_SQUARED := 0.002304
  const LEAST_DISTANCE := 0.0001

  function Plus(a: Vec, b: Vec): Vec { Vec(a.x + b.x, a.y + b.y, a.z + b.z) }
  function Minus(a: Vec, b: Vec): Vec { Vec(a.x - b.x, a.y - b.y, a.z - b.z) }
  function Square(d: Vec): real { d.x * d.x + d.y * d.y + d.z * d.z }

  function Over(a: Vec, n: real): Vec
    requires n != 0.0
  {
    Vec(a.x / n, a.y / n, a.z / n)
  }

  const ZERO := Vec(0.0, 0.0, 0.0)

  // ---------------------------------------------------------------- what a neighbour adds

  /** The running totals of the steering rules. */
  datatype Totals = Totals(count: nat, close: nat, push: Vec, velocity: Vec, at: Vec)

  const NOTHING := Totals(0, 0, ZERO, ZERO, ZERO)

  function Add(a: Totals, b: Totals): Totals {
    Totals(a.count + b.count, a.close + b.close, Plus(a.push, b.push), Plus(a.velocity, b.velocity), Plus(a.at, b.at))
  }

  /** The push away from a bird at this offset; `root` stands for the square root. */
  function Push(root: real -> real, d: Vec): Vec {
    var r := root(Square(d));
    var distance := if r < LEAST_DISTANCE then LEAST_DISTANCE else r;
    var pressure := 1.0 - distance / NEAR;
    Vec(d.x / distance * pressure, d.y / distance * pressure, d.z / distance * pressure)
  }

  function Times(a: Vec, n: real): Vec { Vec(a.x * n, a.y * n, a.z * n) }

  /**
   Birds closer than the separation radius push each other apart: straight away from the other, the stronger the
   nearer, as long as 1 - distance / 0.048, and each as much as the other.
   */
  lemma {:induction false} PushIsAway(root: real -> real, d: Vec)
    requires root(Square(d)) * root(Square(d)) == Square(d) && 0.0001 <= root(Square(d)) < 0.048
    ensures var r := root(Square(d));
            && Push(root, d) == Times(d, (1.0 - r / 0.048) / r) && (1.0 - r / 0.048) / r > 0.0
            && Square(Push(root, d)) == (1.0 - r / 0.048) * (1.0 - r / 0.048)
    ensures Push(root, Times(d, -1.0)) == Times(Push(root, d), -1.0)
  {
    var r := root(Square(d));
    var k := (1.0 - r / 0.048) / r;
    Shorter(r);
    Rescaled(d, r, 1.0 - r / 0.048);
    SquareTimes(d, k);
    assert k * k * (r * r) == (k * r) * (k * r) && k * r == 1.0 - r / 0.048;
    SquareTimes(d, -1.0);
    assert Square(Times(d, -1.0)) == Square(d);
    Rescaled(Times(d, -1.0), r, 1.0 - r / 0.048);
  }

  lemma {:induction false} Shorter(r: real)
    requires 0.0001 <= r < 0.048
    ensures (1.0 - r / 0.048) / r > 0.0
  {
  }

  lemma {:induction false} Rescaled(d: Vec, r: real, p: real)
    requires r > 0.0
    ensures Vec(d.x / r * p, d.y / r * p, d.z / r * p) == Times(d, p / r)
  {
    assert d.x / r * p == d.x * (p / r) && d.y / r * p == d.y * (p / r) && d.z / r * p == d.z * (p / r);
  }

  lemma {:induction false} SquareTimes(d: Vec, k: real)
    ensures Square(Times(d, k)) == k * k * Square(d)
  {
    assert d.x * k * (d.x * k) == k * k * (d.x * d.x);
    assert d.y * k * (d.y * k) == k * k * (d.y * d.y);
    assert d.z * k * (d.z * k) == k * k * (d.z * d.z);
  }

  predicate Near(birds: seq<Boid>, me: nat, other: nat)
    requires me < |birds| && other < |birds|
  {
    other != me && Square(Minus(birds[me].at, birds[other].at)) <= RADIUS_SQUARED
  }

  function Share(root: real -> real, birds: seq<Boid>, me: nat, other: nat): Totals
    requires me < |birds| && other < |birds|
  {
    if !Near(birds, me, other) then NOTHING
    else
      var d := Minus(birds[me].at, birds[other].at);
      var b := birds[other];
      if Square(d) < NEAR_SQUARED then Totals(1, 1, Push(root, d), b.velocity, b.at)
      else Totals(1, 0, ZERO, b.velocity, b.at)
  }

  ghost predicate InFlock(birds: seq<Boid>, list: seq<nat>) {
    forall k :: 0 <= k < |list| ==> list[k] < |birds|
  }

  function TotalOver(root: real -> real, birds: seq<Boid>, me: nat, list: seq<nat>): Totals
    requires me < |birds| && InFlock(birds, list)
  {
    if list == [] then NOTHING
    else Add(TotalOver(root, birds, me, list[..|list| - 1]), Share(root, birds, me, list[|list| - 1]))
  }

  /** The whole flock, in order. */
  function Everyone(n: nat): (list: seq<nat>)
    ensures |list| == n && forall k :: 0 <= k < n ==> list[k] == k
  {
    seq(n, k => k)
  }

  datatype Steering = Steering(count: nat, separation: Vec, alignment: Vec, cohesion: Vec)

  function Averages(b: Boid, t: Totals): Steering {
    Steering(t.count, Over(t.push, if t.close < 1 then 1.0 else t.close as real),
             if t.count == 0 then ZERO else Minus(Over(t.velocity, t.count as real), b.velocity),
             if t.count == 0 then ZERO else Minus(Over(t.at, t.count as real), b.at))
  }

  /** Among neighbours that all fly alike and are all in one place, a bird turns to their course and their place. */
  lemma {:induction false} AlikeNeighbours(root: real -> real, birds: seq<Boid>, me: nat, list: seq<nat>, b: Boid)
    requires me < |birds| && InFlock(birds, list)
    requires forall k :: 0 <= k < |list| && Near(birds, me, list[k]) ==> birds[list[k]] == b
    ensures var t := TotalOver(root, birds, me, list);
            t.velocity == Times(b.velocity, t.count as real) && t.at == Times(b.at, t.count as real)
    ensures var s, d := Averages(birds[me], TotalOver(root, birds, me, list)), Minus(birds[me].at, b.at);
            if s.count == 0 then s.separation == s.alignment == s.cohesion == ZERO
            else
              && s.alignment == Minus(b.velocity, birds[me].velocity) && s.cohesion == Minus(b.at, birds[me].at)
              && s.separation == (if Square(d) < 0.048 * 0.048 then Push(root, d) else ZERO)
  {
    AlikeTotals(root, birds, me, list, b);
    AlikePushes(root, birds, me, list, b);
    AlikeAverages(birds[me], TotalOver(root, birds, me, list), b, Push(root, Minus(birds[me].at, b.at)));
    hide *;
  }

  lemma {:induction false} AlikeAverages(me: Boid, t: Totals, b: Boid, push: Vec)
    requires t.velocity == Times(b.velocity, t.count as real) && t.at == Times(b.at, t.count as real)
    requires t.push == Times(push, t.close as real) && t.close <= t.count
    ensures var s := Averages(me, t);
            && s.count == t.count
            && (t.count == 0 ==> s.alignment == s.cohesion == ZERO)
            && (t.count > 0 ==> s.alignment == Minus(b.velocity, me.velocity) && s.cohesion == Minus(b.at, me.at))
            && s.separation == if t.close == 0 then ZERO else push
  {
    if t.count > 0 {
      TimesOver(b.velocity, t.count as real);
      TimesOver(b.at, t.count as real);
    }
    if t.close > 0 {
      TimesOver(push, t.close as real);
    }
  }

  lemma {:induction false} TimesOver(a: Vec, n: real)
    requires n > 0.0
    ensures Over(Times(a, n), n) == a
  {
  }

  lemma {:induction false} AlikeTotals(root: real -> real, birds: seq<Boid>, me: nat, list: seq<nat>, b: Boid)
    requires me < |birds| && InFlock(birds, list)
    requires forall k :: 0 <= k < |list| && Near(birds, me, list[k]) ==> birds[list[k]] == b
    ensures var t := TotalOver(root, birds, me, list);
            t.velocity == Times(b.velocity, t.count as real) && t.at == Times(b.at, t.count as real)
  {
    hide Near, Share;
    if list != [] {
      var init, last := list[..|list| - 1], list[|list| - 1];
      assert forall k :: 0 <= k < |init| ==> init[k] == list[k];
      AlikeTotals(root, birds, me, init, b);
      AlikeShare(root, birds, me, last, b);
      OneMore(b.velocity, TotalOver(root, birds, me, init).count);
      OneMore(b.at, TotalOver(root, birds, me, init).count);
    }
  }

  /** Neighbours in one place are all close or none is, and each pushes alike. */
  lemma {:induction false} AlikePushes(root: real -> real, birds: seq<Boid>, me: nat, list: seq<nat>, b: Boid)
    requires me < |birds| && InFlock(birds, list)
    requires forall k :: 0 <= k < |list| && Near(birds, me, list[k]) ==> birds[list[k]] == b
    ensures var t, d := TotalOver(root, birds, me, list), Minus(birds[me].at, b.at);
            && t.close == (if Square(d) < 0.048 * 0.048 then t.count else 0)
            && t.push == Times(Push(root, d), t.close as real)
  {
    hide Near, Share, Push, Square;
    if list != [] {
      var init, last := list[..|list| - 1], list[|list| - 1];
      assert forall k :: 0 <= k < |init| ==> init[k] == list[k];
      AlikePushes(root, birds, me, init, b);
      AlikePush(root, birds, me, last, b);
      OneMore(Push(root, Minus(birds[me].at, b.at)), TotalOver(root, birds, me, init).close);
    }
  }

  lemma {:induction false} AlikePush(root: real -> real, birds: seq<Boid>, me: nat, other: nat, b: Boid)
    requires me < |birds| && other < |birds| && (Near(birds, me, other) ==> birds[other] == b)
    ensures var share, d := Share(root, birds, me, other), Minus(birds[me].at, b.at);
            && share.count <= 1 && share.close == (if Square(d) < 0.048 * 0.048 then share.count else 0)
            && share.push == (if share.close == 0 then ZERO else Push(root, d))
  {
    hide Near, Push, Square;
  }

  lemma {:induction false} AlikeShare(root: real -> real, birds: seq<Boid>, me: nat, other: nat, b: Boid)
    requires me < |birds| && other < |birds| && (Near(birds, me, other) ==> birds[other] == b)
    ensures var share := Share(root, birds, me, other);
            if share.count == 0 then share.velocity == share.at == ZERO
            else share.count == 1 && share.velocity == b.velocity && share.at == b.at
  {
    hide Near, Push, Square;
  }

  lemma {:induction false} OneMore(a: Vec, n: nat)
    ensures Plus(Times(a, n as real), a) == Times(a, (n + 1) as real)
    ensures Plus(Times(a, n as real), ZERO) == Times(a, n as real)
  {
  }

  /** Reynolds' rules over the birds listed, one after another. */
  method NeighborSteering(root: real -> real, birds: seq<Boid>, me: nat, list: seq<nat>) returns (s: Steering)
    requires me < |birds| && InFlock(birds, list)
    ensures s == Averages(birds[me], TotalOver(root, birds, me, list))
  {
    hide Share, Add, Averages;
    var t := NOTHING;
    for k := 0 to |list|
      invariant t == TotalOver(root, birds, me, list[..k])
    {
      assert list[..k + 1][..k] == list[..k];
      var other := list[k];
      if other == me {
        SelfAddsNothing(root, birds, me);
        AddNothing(t);
      } else {
        var share := Weigh(root, birds, me, other);
        t := Add(t, share);
      }
    }
    assert list[..|list|] == list;
    s := Averages(birds[me], t);
  }

  method Weigh(root: real -> real, birds: seq<Boid>, me: nat, other: nat) returns (share: Totals)
    requires me < |birds| && other < |birds| && other != me
    ensures share == Share(root, birds, me, other)
  {
    hide Push, Square;
    var d := Minus(birds[me].at, birds[other].at);
    var far := Square(d);
    share := NOTHING;
    if far > RADIUS_SQUARED {
      return;
    }
    share := share.(count := 1, velocity := birds[other].velocity, at := birds[other].at);
    if far < NEAR_SQUARED {
      share := share.(close := 1, push := Push(root, d));
    }
  }

  lemma {:induction false} SelfAddsNothing(root: real -> real, birds: seq<Boid>, me: nat)
    requires me < |birds|
    ensures Share(root, birds, me, me) == NOTHING
  {
    hide Push, Square;
  }

  lemma {:induction false} AddNothing(t: Totals)
    ensures Add(t, NOTHING) == t
  {
  }

  // ---------------------------------------------------------------- order and absent birds do not matter

  /** The total over the birds of a set, taken in flock order up to `n`. */
  ghost function TotalOf(root: real -> real, birds: seq<Boid>, me: nat, n: nat, chosen: set<nat>): Totals
    requires me < |birds| && n <= |birds|
  {
    if n == 0 then NOTHING
    else Add(TotalOf(root, birds, me, n - 1, chosen),
             if n - 1 in chosen then Share(root, birds, me, n - 1) else NOTHING)
  }

  lemma {:induction false} TotalOfMore(root: real -> real, birds: seq<Boid>, me: nat, n: nat, chosen: set<nat>, x: nat)
    requires me < |birds| && n <= |birds| && x < |birds| && x !in chosen
    ensures TotalOf(root, birds, me, n, chosen + {x}) ==
            if x < n then Add(TotalOf(root, birds, me, n, chosen), Share(root, birds, me, x))
            else TotalOf(root, birds, me, n, chosen)
  {
    hide Share, Add;
    if n > 0 {
      TotalOfMore(root, birds, me, n - 1, chosen, x);
      var t, last := TotalOf(root, birds, me, n - 1, chosen),
          if n - 1 in chosen then Share(root, birds, me, n - 1) else NOTHING;
      if x < n - 1 {
        AddSwaps(t, Share(root, birds, me, x), last);
      } else if x == n - 1 {
        AddNothing(t);
      }
    }
  }

  lemma {:induction false} AddSwaps(a: Totals, b: Totals, c: Totals)
    ensures Add(Add(a, b), c) == Add(Add(a, c), b)
  {
  }

  lemma {:induction false} TotalOfNone(root: real -> real, birds: seq<Boid>, me: nat, n: nat)
    requires me < |birds| && n <= |birds|
    ensures TotalOf(root, birds, me, n, {}) == NOTHING
  {
    hide Share, Add;
    if n > 0 {
      TotalOfNone(root, birds, me, n - 1);
      AddNothing(NOTHING);
    }
  }

  function Members(list: seq<nat>): set<nat> { set x | x in list }

  /** A list without repeats totals to what its birds total to in flock order. */
  lemma {:induction false} ListTotal(root: real -> real, birds: seq<Boid>, me: nat, list: seq<nat>)
    requires me < |birds| && InFlock(birds, list) && Distinct(list)
    ensures TotalOver(root, birds, me, list) == TotalOf(root, birds, me, |birds|, Members(list))
  {
    hide Share, Add, TotalOf;
    if list == [] {
      TotalOfNone(root, birds, me, |birds|);
      assert Members(list) == {};
    } else {
      var init, last := list[..|list| - 1], list[|list| - 1];
      ListTotal(root, birds, me, init);
      assert last !in init by {
        assert forall k :: 0 <= k < |init| ==> init[k] == list[k];
      }
      assert Members(list) == Members(init) + {last} by { assert list == init + [last]; }
      TotalOfMore(root, birds, me, |birds|, Members(init), last);
    }
  }

  /** Birds that add nothing may be left out. */
  lemma {:induction false} AbsentDoNotMatter(root: real -> real, birds: seq<Boid>, me: nat, n: nat, a: set<nat>,
                                             b: set<nat>)
    requires me < |birds| && n <= |birds|
    requires forall x :: 0 <= x < n && Near(birds, me, x) ==> (x in a <==> x in b)
    ensures TotalOf(root, birds, me, n, a) == TotalOf(root, birds, me, n, b)
  {
    hide Near, Add, Push, Square;
    if n > 0 {
      AbsentDoNotMatter(root, birds, me, n - 1, a, b);
    }
  }

  /** Any list without repeats that has every near bird gives the totals of the whole flock. */
  lemma {:induction false} NearSuffice(root: real -> real, birds: seq<Boid>, me: nat, list: seq<nat>)
    requires me < |birds| && InFlock(birds, list) && Distinct(list)
    requires forall x :: 0 <= x < |birds| && Near(birds, me, x) ==> x in list
    ensures TotalOver(root, birds, me, list) == TotalOver(root, birds, me, Everyone(|birds|))
  {
    hide Near, TotalOver, TotalOf;
    var all := Everyone(|birds|);
    ListTotal(root, birds, me, list);
    ListTotal(root, birds, me, all);
    forall x | 0 <= x < |birds| && Near(birds, me, x)
      ensures x in Members(list) <==> x in Members(all)
    {
      assert all[x] == x;
    }
    AbsentDoNotMatter(root, birds, me, |birds|, Members(list), Members(all));
  }

  // ---------------------------------------------------------------- the grid

  datatype Cell = Cell(x: int, y: int, z: int)
  type Grid = map<Cell, seq<nat>>

  function Slot(a: real): int { (a / CELL).Floor }

  function CellOf(v: Vec): Cell { Cell(Slot(v.x), Slot(v.y), Slot(v.z)) }

  lemma {:induction false} CloseSlots(a: real, b: real)
    requires (a - b) * (a - b) <= RADIUS_SQUARED
    ensures -1 <= Slot(a) - Slot(b) <= 1
  {
    assert -CELL <= a - b <= CELL by { SmallSquare(a - b); }
  }

  lemma {:induction false} SmallSquare(d: real)
    requires d * d <= RADIUS_SQUARED
    ensures -CELL <= d <= CELL
  {
    if d > CELL || d < -CELL {
      LargeSquare(d);
    }
  }

  lemma {:induction false} LargeSquare(d: real)
    requires d > CELL || d < -CELL
    ensures d * d > RADIUS_SQUARED
  {
    if d > CELL {
      assert d * d > CELL * d > CELL * CELL;
    } else {
      assert d * d == (-d) * (-d) && (-d) * (-d) > CELL * (-d) > CELL * CELL;
    }
  }

  /** The offset from my cell to another bird's. */
  function Offset(birds: seq<Boid>, me: nat, other: nat): Cell
    requires me < |birds| && other < |birds|
  {
    var a, b := CellOf(birds[me].at), CellOf(birds[other].at);
    Cell(b.x - a.x, b.y - a.y, b.z - a.z)
  }

  predicate Around(d: Cell) { -1 <= d.x <= 1 && -1 <= d.y <= 1 && -1 <= d.z <= 1 }

  /** A near bird is in one of the 27 cells around mine. */
  lemma {:induction false} NearIsAround(birds: seq<Boid>, me: nat, other: nat)
    requires me < |birds| && other < |birds| && Near(birds, me, other)
    ensures Around(Offset(birds, me, other))
  {
    var a, b := birds[me].at, birds[other].at;
    NotNegative(a.x - b.x);
    NotNegative(a.y - b.y);
    NotNegative(a.z - b.z);
    CloseSlots(a.x, b.x);
    CloseSlots(a.y, b.y);
    CloseSlots(a.z, b.z);
  }

  lemma {:induction false} NotNegative(d: real)
    ensures d * d >= 0.0
  {
  }

  /** Each cell lists, once each, the birds among the first `n` that are in it. */
  ghost predicate Indexed(birds: seq<Boid>, n: nat, grid: Grid) {
    && n <= |birds| && (forall c :: c in grid ==> Distinct(grid[c]))
    && (forall c, i: nat :: Lists(grid, c, i) ==> i < n && CellOf(birds[i].at) == c)
    && (forall i :: 0 <= i < n ==> Lists(grid, CellOf(birds[i].at), i))
  }

  predicate Lists(grid: Grid, c: Cell, i: nat) { c in grid && i in grid[c] }

  method BuildGrid(birds: seq<Boid>) returns (grid: Grid)
    ensures Indexed(birds, |birds|, grid)
  {
    hide CellOf;
    grid := map[];
    for i := 0 to |birds|
      invariant Indexed(birds, i, grid)
    {
      var c := CellOf(birds[i].at);
      var bucket := if c in grid then grid[c] else [];
      OneMoreIn(birds, i, grid);
      grid := grid[c := bucket + [i]];
    }
  }

  lemma {:induction false} OneMoreIn(birds: seq<Boid>, i: nat, grid: Grid)
    requires i < |birds| && Indexed(birds, i, grid)
    ensures var c := CellOf(birds[i].at); Indexed(birds, i + 1, grid[c := (if c in grid then grid[c] else []) + [i]])
  {
    hide CellOf;
    var c := CellOf(birds[i].at);
    var bucket := if c in grid then grid[c] else [];
    var more := grid[c := bucket + [i]];
    assert !Lists(grid, c, i);
    forall d, k: nat | Lists(more, d, k)
      ensures k < i + 1 && CellOf(birds[k].at) == d
    {
      assert Lists(grid, d, k) || (d == c && k == i);
    }
    forall k | 0 <= k < i + 1
      ensures Lists(more, CellOf(birds[k].at), k)
    {
      assert k < i ==> Lists(grid, CellOf(birds[k].at), k);
    }
    forall d | d in more
      ensures Distinct(more[d])
    {
      if d == c {
        DistinctMore(bucket, i);
      }
    }
  }

  lemma {:induction false} DistinctMore(list: seq<nat>, x: nat)
    requires Distinct(list) && x !in list
    ensures Distinct(list + [x])
  {
  }

  lemma {:induction false} NoneDistinct()
    ensures Distinct<nat>([])
  {
  }

  lemma {:induction false} DistinctTogether(a: seq<nat>, b: seq<nat>)
    requires Distinct(a) && Distinct(b) && forall x :: x in a ==> x !in b
    ensures Distinct(a + b)
  {
    forall i, j | 0 <= i < j < |a + b|
      ensures (a + b)[i] != (a + b)[j]
    {
      if i < |a| <= j {
        assert a[i] in a && b[j - |a|] in b;
      }
    }
  }

  /** Visited before the cell at this offset, going through the 27 in order. */
  predicate Before(d: Cell, x: int, y: int, z: int) {
    Around(d) && (d.x < x || (d.x == x && (d.y < y || (d.y == y && d.z < z))))
  }

  /** The list holds exactly the birds of the cells visited so far. */
  ghost predicate Visited(birds: seq<Boid>, me: nat, list: seq<nat>, x: int, y: int, z: int) {
    && me < |birds| && Distinct(list) && InFlock(birds, list)
    && (forall i :: 0 <= i < |birds| ==> (i in list <==> Before(Offset(birds, me, i), x, y, z)))
  }

  /** All birds of the 27 cells around mine. */
  method Gather(birds: seq<Boid>, grid: Grid, me: nat) returns (list: seq<nat>)
    requires me < |birds| && Indexed(birds, |birds|, grid)
    ensures Visited(birds, me, list, 2, -1, -1)
  {
    hide CellOf, Offset, Indexed, Visited;
    var c := CellOf(birds[me].at);
    list := [];
    NoneVisited(birds, me);
    for x := -1 to 2
      invariant Visited(birds, me, list, x, -1, -1)
    {
      for y := -1 to 2
        invariant Visited(birds, me, list, x, y, -1)
      {
        for z := -1 to 2
          invariant Visited(birds, me, list, x, y, z)
        {
          var cell := Cell(c.x + x, c.y + y, c.z + z);
          OneCellMore(birds, grid, me, list, x, y, z);
          if cell in grid {
            list := list + grid[cell];
          }
        }
        RowDone(birds, me, list, x, y);
      }
      PlaneDone(birds, me, list, x);
    }
  }

  lemma {:induction false} NoneVisited(birds: seq<Boid>, me: nat)
    requires me < |birds|
    ensures Visited(birds, me, [], -1, -1, -1)
  {
    hide Offset;
  }

  lemma {:induction false} RowDone(birds: seq<Boid>, me: nat, list: seq<nat>, x: int, y: int)
    requires Visited(birds, me, list, x, y, 2)
    ensures Visited(birds, me, list, x, y + 1, -1)
  {
    hide Offset;
  }

  lemma {:induction false} PlaneDone(birds: seq<Boid>, me: nat, list: seq<nat>, x: int)
    requires Visited(birds, me, list, x, 2, -1)
    ensures Visited(birds, me, list, x + 1, -1, -1)
  {
    hide Offset;
  }

  lemma {:induction false} InBucket(birds: seq<Boid>, grid: Grid, cell: Cell, k: nat)
    requires Indexed(birds, |birds|, grid) && cell in grid && k < |grid[cell]|
    ensures grid[cell][k] < |birds| && CellOf(birds[grid[cell][k]].at) == cell
  {
    assert Lists(grid, cell, grid[cell][k]);
  }

  lemma {:induction false} OneCellMore(birds: seq<Boid>, grid: Grid, me: nat, list: seq<nat>, x: int, y: int, z: int)
    requires Visited(birds, me, list, x, y, z) && Indexed(birds, |birds|, grid) && Around(Cell(x, y, z))
    ensures var c := CellOf(birds[me].at);
            var cell := Cell(c.x + x, c.y + y, c.z + z);
            Visited(birds, me, if cell in grid then list + grid[cell] else list, x, y, z + 1)
  {
    hide CellOf, Distinct;
    var c := CellOf(birds[me].at);
    var cell := Cell(c.x + x, c.y + y, c.z + z);
    var bucket := if cell in grid then grid[cell] else [];
    assert forall k :: 0 <= k < |bucket| ==> bucket[k] in bucket;
    assert Distinct(bucket) by { NoneDistinct(); }
    forall i | i in list
      ensures i !in bucket
    {
      assert !Lists(grid, cell, i);
    }
    DistinctTogether(list, bucket);
    var more := list + bucket;
    assert more == if cell in grid then list + grid[cell] else list;
    forall k | 0 <= k < |more|
      ensures more[k] < |birds|
    {
      if k >= |list| {
        assert more[k] == bucket[k - |list|];
        InBucket(birds, grid, cell, k - |list|);
      }
    }
    forall i | 0 <= i < |birds|
      ensures i in more <==> Before(Offset(birds, me, i), x, y, z + 1)
    {
      assert Lists(grid, CellOf(birds[i].at), i);
      assert i in bucket <==> Lists(grid, cell, i);
    }
    assert Visited(birds, me, more, x, y, z + 1);
  }

  /** Steering from the grid is steering from the whole flock, for every bird. */
  method SteerAll(root: real -> real, birds: seq<Boid>) returns (rules: seq<Steering>)
    ensures |rules| == |birds|
    ensures forall i :: 0 <= i < |birds| ==>
              rules[i] == Averages(birds[i], TotalOver(root, birds, i, Everyone(|birds|)))
  {
    hide Indexed, Visited, Averages, TotalOver;
    var grid := BuildGrid(birds);
    rules := [];
    for i := 0 to |birds|
      invariant |rules| == i
      invariant forall k :: 0 <= k < i ==> rules[k] == Averages(birds[k], TotalOver(root, birds, k, Everyone(|birds|)))
    {
      var list := Gather(birds, grid, i);
      AllNearVisited(birds, i, list);
      NearSuffice(root, birds, i, list);
      var s := NeighborSteering(root, birds, i, list);
      rules := rules + [s];
    }
  }

  lemma {:induction false} AllNearVisited(birds: seq<Boid>, me: nat, list: seq<nat>)
    requires Visited(birds, me, list, 2, -1, -1)
    ensures InFlock(birds, list) && Distinct(list) && forall x :: 0 <= x < |birds| && Near(birds, me, x) ==> x in list
  {
    hide Offset, Near;
    forall x | 0 <= x < |birds| && Near(birds, me, x)
      ensures x in list
    {
      NearIsAround(birds, me, x);
    }
  }

  // ---------------------------------------------------------------- scattered seeds

  /** One throw: a point and the chance drawn for it. */
  datatype Dart = Dart(x: real, y: real, chance: real)

  predicate Lands(density: real -> real, d: Dart) {
    var radius := d.x * d.x + d.y * d.y;
    radius <= 1.0 && d.chance <= density(radius)
  }

  predicate Crowds(spacing: real, a: Dart, b: Dart) {
    (a.x - b.x) * (a.x - b.x) + (a.y - b.y) * (a.y - b.y) < spacing * spacing
  }

  ghost predicate FreeOf(spacing: real, d: Dart, kept: seq<Dart>) {
    forall k :: 0 <= k < |kept| ==> !Crowds(spacing, d, kept[k])
  }

  /** Dart throwing as it is meant: keep a dart that lands clear of every dart kept before, until there are enough. */
  ghost function Thrown(density: real -> real, spacing: real, count: nat, darts: seq<Dart>): seq<Dart> {
    if darts == [] then []
    else
      var kept := Thrown(density, spacing, count, darts[..|darts| - 1]);
      var d := darts[|darts| - 1];
      if |kept| < count && Lands(density, d) && FreeOf(spacing, d, kept) then kept + [d] else kept
  }

  /** Any two seeds are at least the spacing apart. */
  lemma {:induction false} SeedsApart(density: real -> real, spacing: real, count: nat, darts: seq<Dart>)
    ensures var kept := Thrown(density, spacing, count, darts);
            |kept| <= count && forall i, j :: 0 <= i < j < |kept| ==> !Crowds(spacing, kept[j], kept[i])
  {
    hide Crowds, Lands;
    if darts != [] {
      SeedsApart(density, spacing, count, darts[..|darts| - 1]);
    }
  }

  type Bins = map<(int, int), seq<Dart>>

  function Bin(spacing: real, d: Dart): (int, int)
    requires spacing > 0.0
  {
    ((d.x / spacing).Floor, (d.y / spacing).Floor)
  }

  /** Each bin holds exactly the kept darts that fall in it. */
  ghost predicate Binned(spacing: real, kept: seq<Dart>, bins: Bins)
    requires spacing > 0.0
  {
    && (forall b, d :: b in bins && d in bins[b] ==> d in kept)
    && (forall k :: 0 <= k < |kept| ==> Bin(spacing, kept[k]) in bins && kept[k] in bins[Bin(spacing, kept[k])])
  }

  /** Darts that crowd each other are at most one bin apart each way. */
  lemma {:induction false} CrowdersAreAround(spacing: real, a: Dart, b: Dart)
    requires spacing > 0.0 && Crowds(spacing, a, b)
    ensures -1 <= Bin(spacing, b).0 - Bin(spacing, a).0 <= 1 && -1 <= Bin(spacing, b).1 - Bin(spacing, a).1 <= 1
  {
    NotNegative(a.x - b.x);
    NotNegative(a.y - b.y);
    WithinSpacing(spacing, a.x, b.x);
    WithinSpacing(spacing, a.y, b.y);
  }

  lemma {:induction false} WithinSpacing(spacing: real, a: real, b: real)
    requires spacing > 0.0 && (a - b) * (a - b) < spacing * spacing
    ensures -1 <= (b / spacing).Floor - (a / spacing).Floor <= 1
  {
    if a - b >= spacing || a - b <= -spacing {
      WideSquare(spacing, a - b);
    }
    SmallQuotient(spacing, a, b);
  }

  lemma {:induction false} WideSquare(spacing: real, d: real)
    requires spacing > 0.0 && (d >= spacing || d <= -spacing)
    ensures d * d >= spacing * spacing
  {
    if d >= spacing {
      assert d * d >= spacing * d >= spacing * spacing;
    } else {
      assert d * d == (-d) * (-d) && (-d) * (-d) >= spacing * (-d) >= spacing * spacing;
    }
  }

  lemma {:induction false} SmallQuotient(spacing: real, a: real, b: real)
    requires spacing > 0.0 && -spacing < a - b < spacing
    ensures -1 <= (b / spacing).Floor - (a / spacing).Floor <= 1
  {
    var u, v := a / spacing, b / spacing;
    QuotientsClose(spacing, a, b, u, v);
  }

  lemma {:induction false} QuotientsClose(spacing: real, a: real, b: real, u: real, v: real)
    requires spacing > 0.0 && u * spacing == a && v * spacing == b && -spacing < a - b < spacing
    ensures -1.0 < u - v < 1.0
  {
    if u >= v + 1.0 {
      WholeStep(spacing, a, b, u, v);
    } else if v >= u + 1.0 {
      WholeStep(spacing, b, a, v, u);
    }
  }

  lemma {:induction false} WholeStep(spacing: real, a: real, b: real, u: real, v: real)
    requires spacing > 0.0 && u * spacing == a && v * spacing == b && u >= v + 1.0
    ensures a - b >= spacing
  {
    var extra := u - v - 1.0;
    assert u == v + 1.0 + extra;
    NotNegativeProduct(extra, spacing);
    assert u * spacing == v * spacing + spacing + extra * spacing;
  }

  lemma {:induction false} NotNegativeProduct(a: real, b: real)
    requires a >= 0.0 && b >= 0.0
    ensures a * b >= 0.0
  {
  }

  ghost predicate ClearAt(spacing: real, d: Dart, bins: Bins, c: (int, int), ox: int, oy: int) {
    (c.0 + ox, c.1 + oy) in bins ==> forall e :: e in bins[(c.0 + ox, c.1 + oy)] ==> !Crowds(spacing, d, e)
  }

  method CheckBin(spacing: real, d: Dart, kept: seq<Dart>, bins: Bins, c: (int, int), ox: int, oy: int)
    returns (crowded: bool)
    requires spacing > 0.0 && Binned(spacing, kept, bins)
    ensures !crowded ==> ClearAt(spacing, d, bins, c, ox, oy)
    ensures crowded ==> !FreeOf(spacing, d, kept)
  {
    hide Crowds, Bin;
    var cell := (c.0 + ox, c.1 + oy);
    if cell in bins {
      for k := 0 to |bins[cell]|
        invariant forall j :: 0 <= j < k ==> !Crowds(spacing, d, bins[cell][j])
      {
        if Crowds(spacing, d, bins[cell][k]) {
          assert bins[cell][k] in bins[cell];
          assert bins[cell][k] in kept;
          ghost var j :| 0 <= j < |kept| && kept[j] == bins[cell][k];
          assert Crowds(spacing, d, kept[j]);
          return true;
        }
      }
    }
    return false;
  }

  /** Look for a crowding dart in the nine bins around. */
  method CheckBins(spacing: real, d: Dart, kept: seq<Dart>, bins: Bins) returns (crowded: bool)
    requires spacing > 0.0 && Binned(spacing, kept, bins)
    ensures !crowded <==> FreeOf(spacing, d, kept)
  {
    hide Crowds, Binned, Bin, ClearAt, FreeOf;
    var c := Bin(spacing, d);
    for x := -1 to 2
      invariant forall ox, oy :: -1 <= ox < x && -1 <= oy <= 1 ==> ClearAt(spacing, d, bins, c, ox, oy)
    {
      for y := -1 to 2
        invariant forall oy :: -1 <= oy < y ==> ClearAt(spacing, d, bins, c, x, oy)
      {
        crowded := CheckBin(spacing, d, kept, bins, c, x, y);
        if crowded {
          return;
        }
      }
    }
    NineSuffice(spacing, d, kept, bins);
    return false;
  }

  /** What is clear in the nine bins around is clear of everything. */
  lemma {:induction false} NineSuffice(spacing: real, d: Dart, kept: seq<Dart>, bins: Bins)
    requires spacing > 0.0 && Binned(spacing, kept, bins)
    requires forall ox, oy :: -1 <= ox <= 1 && -1 <= oy <= 1 ==> ClearAt(spacing, d, bins, Bin(spacing, d), ox, oy)
    ensures FreeOf(spacing, d, kept)
  {
    hide Crowds, Bin;
    var c := Bin(spacing, d);
    forall k | 0 <= k < |kept|
      ensures !Crowds(spacing, d, kept[k])
    {
      var e := Bin(spacing, kept[k]);
      var ox, oy := e.0 - c.0, e.1 - c.1;
      if -1 <= ox <= 1 && -1 <= oy <= 1 {
        assert ClearAt(spacing, d, bins, c, ox, oy) && (c.0 + ox, c.1 + oy) == e;
      } else if Crowds(spacing, d, kept[k]) {
        CrowdersAreAround(spacing, d, kept[k]);
      }
    }
  }

  lemma {:induction false} ThrownFull(density: real -> real, spacing: real, count: nat, darts: seq<Dart>, k: nat)
    requires k <= |darts| && |Thrown(density, spacing, count, darts[..k])| >= count
    ensures Thrown(density, spacing, count, darts) == Thrown(density, spacing, count, darts[..k])
  {
    hide Crowds, Lands;
    if k < |darts| {
      var n := |darts| - 1;
      assert darts[..n][..k] == darts[..k];
      ThrownFull(density, spacing, count, darts[..n], k);
    } else {
      assert darts[..k] == darts;
    }
  }

  /** Throw darts, checking only the bins around each; the outcome is the intended one. */
  method Scatter(density: real -> real, spacing: real, count: nat, darts: seq<Dart>) returns (kept: seq<Dart>)
    requires spacing > 0.0
    ensures kept == Thrown(density, spacing, count, darts)
  {
    hide Crowds, Lands, Bin, FreeOf;
    kept := [];
    var bins: Bins := map[];
    for k := 0 to |darts|
      invariant kept == Thrown(density, spacing, count, darts[..k]) && Binned(spacing, kept, bins)
    {
      assert darts[..k + 1][..k] == darts[..k];
      if |kept| >= count {
        ThrownFull(density, spacing, count, darts, k);
        return;
      }
      if Lands(density, darts[k]) {
        var crowded := CheckBins(spacing, darts[k], kept, bins);
        if !crowded {
          var b := Bin(spacing, darts[k]);
          BinnedMore(spacing, kept, bins, darts[k]);
          bins := bins[b := (if b in bins then bins[b] else []) + [darts[k]]];
          kept := kept + [darts[k]];
        }
      }
    }
    assert darts[..|darts|] == darts;
  }

  lemma {:induction false} BinnedMore(spacing: real, kept: seq<Dart>, bins: Bins, d: Dart)
    requires spacing > 0.0 && Binned(spacing, kept, bins)
    ensures var b := Bin(spacing, d); Binned(spacing, kept + [d], bins[b := (if b in bins then bins[b] else []) + [d]])
  {
    hide Bin;
    var b := Bin(spacing, d);
    var old' := if b in bins then bins[b] else [];
    var more := bins[b := old' + [d]];
    forall k | 0 <= k < |kept + [d]|
      ensures Bin(spacing, (kept + [d])[k]) in more && (kept + [d])[k] in more[Bin(spacing, (kept + [d])[k])]
    {
      if k < |kept| {
        assert kept[k] in bins[Bin(spacing, kept[k])];
      }
    }
  }
}
