/** Boxes and orthogonal routes of a layered project; no route enters any box. */
module ProjectLayout {
  import opened Common
  import opened ProjectLayers

  datatype Spot = Spot(x: int, y: int)
  datatype Rect = Rect(x: int, y: int, width: int, height: int)
  datatype Band = Band(x: int, ids: seq<Id>)
  datatype Route = Route(edge: Edge, points: seq<Spot>)
  datatype Layout = Layout(boxes: map<Id, Rect>, bands: seq<Band>, routes: seq<Route>, warnings: seq<Warning>)

  const WIDTH := 380
  const SIDE := 60
  const ROW_GAP := 40

  function Right(r: Rect): int { r.x + r.width }
  function Bottom(r: Rect): int { r.y + r.height }

  function Gutter(links: nat): int { 40 + links * 8 }
  function NodeTop(links: nat): int { 84 + links * 8 }

  /** One height for all boxes, tall enough for the largest crew. */
  function BoxHeight(streams: seq<Stream>): (h: int)
    ensures h >= 420
    ensures forall s :: s in streams ==> h >= 315 + (s.agents + 1) / 2 * 115
    ensures h == 420 || exists s :: s in streams && h == 315 + (s.agents + 1) / 2 * 115
  {
    if streams == [] then 420
    else
      var init, last := streams[..|streams| - 1], streams[|streams| - 1];
      assert streams == init + [last];
      var h, own := BoxHeight(init), 315 + (last.agents + 1) / 2 * 115;
      if own > h then own else h
  }

  // ---------------------------------------------------------------- layers after coordination moves last

  /** Waves without the coordinators, empty ones left out. */
  function Squeezed(waves: seq<seq<Id>>, apart: seq<Id>): seq<seq<Id>> {
    if waves == [] then []
    else
      var init := Squeezed(waves[..|waves| - 1], apart);
      var last := Minus(waves[|waves| - 1], apart);
      if last == [] then init else init + [last]
  }

  function Layers(waves: seq<seq<Id>>, apart: seq<Id>): seq<seq<Id>> {
    Squeezed(waves, apart) + if apart == [] then [] else [apart]
  }

  /** Some stream of this id is marked as coordination. */
  ghost predicate Coordinates(streams: seq<Stream>, id: Id) {
    exists s :: s in streams && s.id == id && s.coordination
  }

  /** Streams that only coordinate: marked so, not held up by a cycle, and nothing depends on them. */
  function Coordinators(streams: seq<Stream>, stuck: seq<Id>, kept: seq<Edge>): (r: seq<Id>)
    ensures Distinct(r)
    ensures forall id :: id in r ==> Coordinates(streams, id) && id in StreamIds(streams) && id !in stuck
    ensures forall id :: id in r ==> !exists e :: e in kept && e.from == id
    ensures forall s :: s in streams && s.coordination && s.id !in stuck ==>
              s.id in r || exists e :: e in kept && e.from == s.id
    ensures KeepsOrder(StreamIds(streams), r)
  {
    if streams == [] then []
    else
      var init, last := streams[..|streams| - 1], streams[|streams| - 1];
      assert streams == init + [last];
      var rest := Coordinators(init, stuck, kept);
      KeepsOrderSnoc(StreamIds(init), rest, last.id);
      if last.coordination && last.id !in stuck && !(exists e :: e in kept && e.from == last.id) && last.id !in rest
      then rest + [last.id] else rest
  }

  /** Links with neither end held up by a cycle. */
  function KeptLinks(edges: seq<Edge>, stuck: seq<Id>): (r: seq<Edge>)
    ensures forall e :: e in r <==> e in edges && e.from !in stuck && e.to !in stuck
  {
    if edges == [] then []
    else
      var init, last := edges[..|edges| - 1], edges[|edges| - 1];
      assert edges == init + [last];
      KeptLinks(init, stuck) + if last.from !in stuck && last.to !in stuck then [last] else []
  }

  /** Rank order of two layers that hold these streams. */
  ghost predicate InOrder(layers: seq<seq<Id>>, u: Id, v: Id) {
    exists i, j :: 0 <= i < j < |layers| && u in layers[i] && v in layers[j]
  }

  lemma {:induction false} SqueezedCovers(waves: seq<seq<Id>>, ids: set<Id>, apart: seq<Id>)
    requires Covers(waves, ids)
    ensures Covers(Squeezed(waves, apart), ids - Contents(apart))
    decreases |waves|
  {
    if waves != [] {
      var n := |waves| - 1;
      var init, last := waves[..n], waves[n];
      var before := ids - Contents(last);
      assert Covers(init, before) by {
        forall v | v in before
          ensures exists k :: 0 <= k < |init| && v in init[k]
        {
          var k :| 0 <= k < |waves| && v in waves[k];
          assert v in init[k];
        }
      }
      SqueezedCovers(init, before, apart);
      SqueezedSnoc(Squeezed(init, apart), before - Contents(apart), Minus(last, apart));
      assert ids - Contents(apart) == (before - Contents(apart)) + Contents(Minus(last, apart));
    }
  }

  lemma {:induction false} SqueezedSnoc(layers: seq<seq<Id>>, ids: set<Id>, last: seq<Id>)
    requires Covers(layers, ids) && Distinct(last) && ids !! Contents(last)
    ensures Covers(if last == [] then layers else layers + [last], ids + Contents(last))
  {
    var more := if last == [] then layers else layers + [last];
    assert forall v :: v in last <==> v in Contents(last);
    forall v | v in ids + Contents(last)
      ensures exists k :: 0 <= k < |more| && v in more[k]
    {
      if v in last {
        assert v in more[|layers|];
      } else {
        var k :| 0 <= k < |layers| && v in layers[k];
        assert v in more[k];
      }
    }
  }

  lemma {:induction false} SqueezedInOrder(waves: seq<seq<Id>>, apart: seq<Id>, j: nat, k: nat, u: Id, v: Id)
    requires j < k < |waves| && u in waves[j] && v in waves[k] && u !in apart && v !in apart
    ensures InOrder(Squeezed(waves, apart), u, v)
    decreases |waves|
  {
    var n := |waves| - 1;
    var init := Squeezed(waves[..n], apart);
    if k < n {
      SqueezedInOrder(waves[..n], apart, j, k, u, v);
      var a, b :| 0 <= a < b < |init| && u in init[a] && v in init[b];
      assert u in Squeezed(waves, apart)[a] && v in Squeezed(waves, apart)[b];
    } else {
      var a := SqueezedHolds(waves[..n], apart, j, u);
      assert v in Minus(waves[n], apart);
      assert u in Squeezed(waves, apart)[a] && v in Squeezed(waves, apart)[|init|];
    }
  }

  lemma {:induction false} SqueezedHolds(waves: seq<seq<Id>>, apart: seq<Id>, j: nat, u: Id) returns (a: nat)
    requires j < |waves| && u in waves[j] && u !in apart
    ensures a < |Squeezed(waves, apart)| && u in Squeezed(waves, apart)[a]
    decreases |waves|
  {
    var n := |waves| - 1;
    if j < n {
      a := SqueezedHolds(waves[..n], apart, j, u);
    } else {
      a := |Squeezed(waves[..n], apart)|;
    }
  }

  // ---------------------------------------------------------------- which layer a stream stands in

  /** Some link leads to this stream from one of these. */
  ghost predicate HasSource(kept: seq<Edge>, ids: seq<Id>, v: Id) {
    exists e :: e in kept && e.to == v && e.from in ids
  }

  ghost predicate HasAnySource(kept: seq<Edge>, v: Id) {
    exists e :: e in kept && e.to == v
  }

  /**
   Each stream stands in one layer, once. Of those neither held up nor set apart, the first layer has exactly the ones
   nothing leads to, and a later layer only ones that something in the layer just before leads to. What a cycle holds up
   is a layer of its own after these, and coordination is the last layer.
   */
  ghost predicate LayersFollow(layers: seq<seq<Id>>, ids: set<Id>, kept: seq<Edge>, apart: seq<Id>, stuck: seq<Id>) {
    && Covers(layers, ids)
    && (forall k, v :: 0 <= k < |layers| && v in layers[k] && v !in apart && v !in stuck ==>
          if k == 0 then !HasAnySource(kept, v) else HasSource(kept, layers[k - 1], v))
    && (forall v :: v in ids && v !in apart && v !in stuck && !HasAnySource(kept, v) ==> layers != [] && v in layers[0])
    && (apart != [] ==> layers != [] && Contents(layers[|layers| - 1]) == Contents(apart))
    && (stuck != [] ==>
          var k := |layers| - (if apart == [] then 1 else 2); k >= 0 && Contents(layers[k]) == Contents(stuck))
  }

  /** No wave but those at the end is emptied by taking the coordinators out. */
  ghost predicate Chains(waves: seq<seq<Id>>, apart: seq<Id>) {
    forall k :: 0 < k < |waves| && Minus(waves[k], apart) != [] ==> Minus(waves[k - 1], apart) != []
  }

  /** The first `m` waves without the coordinators are all that is left. */
  ghost predicate SqueezesTo(waves: seq<seq<Id>>, apart: seq<Id>, m: nat) {
    && m == |Squeezed(waves, apart)| <= |waves|
    && (forall k :: 0 <= k < m ==> Squeezed(waves, apart)[k] == Minus(waves[k], apart) && Minus(waves[k], apart) != [])
    && (forall k :: m <= k < |waves| ==> Minus(waves[k], apart) == [])
  }

  lemma {:induction false} SqueezedPrefix(waves: seq<seq<Id>>, apart: seq<Id>) returns (m: nat)
    requires Chains(waves, apart)
    ensures SqueezesTo(waves, apart, m)
  {
    hide Minus;
    if waves == [] {
      m := 0;
    } else {
      var n := |waves| - 1;
      var init := waves[..n];
      assert forall k :: 0 <= k < n ==> init[k] == waves[k];
      assert Chains(init, apart);
      m := SqueezedPrefix(init, apart);
      if Minus(waves[n], apart) != [] {
        assert n > 0 ==> Minus(init[n - 1], apart) != [];
        assert m == n;
        m := m + 1;
      }
      assert Squeezed(waves, apart) == if Minus(waves[n], apart) == [] then Squeezed(init, apart)
                                       else Squeezed(init, apart) + [Minus(waves[n], apart)];
      hide Squeezed;
      forall k | 0 <= k < |waves|
        ensures k < m ==> Squeezed(waves, apart)[k] == Minus(waves[k], apart) && Minus(waves[k], apart) != []
        ensures m <= k ==> Minus(waves[k], apart) == []
      {
        assert k < n ==> init[k] == waves[k];
      }
    }
  }

  lemma {:induction false} MinusNone(s: seq<Id>, t: seq<Id>)
    requires forall id :: id in s ==> id !in t
    ensures Minus(s, t) == s
  {
    if s != [] {
      var init, last := s[..|s| - 1], s[|s| - 1];
      assert s == init + [last];
      MinusNone(init, t);
    }
  }

  /** A stream of a later wave has a source in the wave just before, and that source coordinates nothing away. */
  lemma {:induction false} SourceStays(waves: seq<seq<Id>>, kept: seq<Edge>, apart: seq<Id>, k: nat, v: Id)
    requires Eager(waves, kept) && 0 < k < |waves| && v in waves[k]
    requires forall id :: id in apart ==> !exists e :: e in kept && e.from == id
    ensures HasSource(kept, Minus(waves[k - 1], apart), v)
  {
    assert HasWaitingSource(kept, waves[k - 1], v);
    var e :| e in kept && e.to == v && e.from in waves[k - 1];
    assert e.from !in apart;
  }

  lemma {:induction false} WavesChain(waves: seq<seq<Id>>, kept: seq<Edge>, apart: seq<Id>)
    requires Eager(waves, kept) && forall id :: id in apart ==> !exists e :: e in kept && e.from == id
    ensures Chains(waves, apart)
  {
    forall k | 0 < k < |waves| && Minus(waves[k], apart) != []
      ensures Minus(waves[k - 1], apart) != []
    {
      var v := Minus(waves[k], apart)[0];
      assert v in Minus(waves[k], apart);
      SourceStays(waves, kept, apart, k, v);
    }
  }

  /** Nothing leads to a stream of the first wave, and everything nothing leads to is there. */
  ghost predicate Rooted(waves: seq<seq<Id>>, kept: seq<Edge>, done: set<Id>) {
    && (waves != [] ==> forall v :: v in waves[0] ==> !HasAnySource(kept, v))
    && (forall v :: v in done && !HasAnySource(kept, v) ==> waves != [] && v in waves[0])
  }

  lemma {:induction false} WavesRooted(waves: seq<seq<Id>>, kept: seq<Edge>, done: set<Id>)
    requires Covers(waves, done) && Layered(waves, kept) && Eager(waves, kept)
    ensures Rooted(waves, kept, done)
  {
    forall e | e in kept
      ensures waves == [] || e.to !in waves[0]
    {
      assert !Before(waves, 0, e.from);
    }
    forall v | v in done && !HasAnySource(kept, v)
      ensures waves != [] && v in waves[0]
    {
      var k :| 0 <= k < |waves| && v in waves[k];
      assert k > 0 ==> HasWaitingSource(kept, waves[k - 1], v);
    }
  }

  /** The layers of eager waves: the waves without the coordinators, what is held up, and the coordinators. */
  ghost predicate ShapedAs(layers: seq<seq<Id>>, waves: seq<seq<Id>>, apart: seq<Id>, stuck: seq<Id>, m: nat) {
    && m <= |waves| && |layers| == m + (if stuck == [] then 0 else 1) + (if apart == [] then 0 else 1)
    && (forall k :: 0 <= k < m ==> layers[k] == Minus(waves[k], apart))
    && (forall k :: m <= k < |waves| ==> Minus(waves[k], apart) == [])
    && (stuck != [] ==> layers[m] == stuck) && (apart != [] ==> layers[|layers| - 1] == apart)
  }

  lemma {:induction false} LayersShaped(waves: seq<seq<Id>>, kept: seq<Edge>, apart: seq<Id>, stuck: seq<Id>)
    returns (m: nat)
    requires Eager(waves, kept)
    requires forall id :: id in apart ==> id !in stuck && !exists e :: e in kept && e.from == id
    ensures ShapedAs(Layers(if stuck == [] then waves else waves + [stuck], apart), waves, apart, stuck, m)
  {
    hide Layers, SqueezesTo, ShapedAs, Chains, Eager;
    WavesChain(waves, kept, apart);
    m := SqueezedPrefix(waves, apart);
    SqueezedStuck(waves, apart, stuck);
    LayersInThree(waves, apart, stuck);
    ShapeFrom(Layers(if stuck == [] then waves else waves + [stuck], apart), waves, apart, stuck, m);
  }

  lemma {:induction false} LayersInThree(waves: seq<seq<Id>>, apart: seq<Id>, stuck: seq<Id>)
    requires Squeezed(if stuck == [] then waves else waves + [stuck], apart)
             == Squeezed(waves, apart) + if stuck == [] then [] else [stuck]
    ensures Layers(if stuck == [] then waves else waves + [stuck], apart)
            == Squeezed(waves, apart) + (if stuck == [] then [] else [stuck]) + (if apart == [] then [] else [apart])
  {
    hide Squeezed;
  }

  lemma {:induction false} ShapeFrom(layers: seq<seq<Id>>, waves: seq<seq<Id>>, apart: seq<Id>, stuck: seq<Id>, m: nat)
    requires SqueezesTo(waves, apart, m)
    requires layers == Squeezed(waves, apart) + (if stuck == [] then [] else [stuck])
             + (if apart == [] then [] else [apart])
    ensures ShapedAs(layers, waves, apart, stuck, m)
  {
    hide Squeezed, Minus;
    var squeezed := Squeezed(waves, apart);
    ThreeParts(layers, squeezed, if stuck == [] then [] else [stuck], if apart == [] then [] else [apart]);
    forall k | 0 <= k < m
      ensures layers[k] == Minus(waves[k], apart)
    {
      assert layers[k] == squeezed[k];
    }
  }

  lemma {:induction false} ThreeParts<T>(s: seq<T>, a: seq<T>, b: seq<T>, c: seq<T>)
    requires s == a + b + c
    ensures |s| == |a| + |b| + |c| && forall k :: 0 <= k < |a| ==> s[k] == a[k]
    ensures b != [] ==> s[|a|] == b[0]
    ensures c != [] ==> s[|s| - 1] == c[|c| - 1]
  {
  }

  lemma {:induction false} SqueezedStuck(waves: seq<seq<Id>>, apart: seq<Id>, stuck: seq<Id>)
    requires forall id :: id in apart ==> id !in stuck
    ensures Squeezed(if stuck == [] then waves else waves + [stuck], apart)
            == Squeezed(waves, apart) + if stuck == [] then [] else [stuck]
  {
    MinusNone(stuck, apart);
    if stuck != [] {
      assert (waves + [stuck])[..|waves|] == waves;
    }
  }

  lemma {:induction false} ShapeFollows(layers: seq<seq<Id>>, waves: seq<seq<Id>>, ids: set<Id>, kept: seq<Edge>,
                                        apart: seq<Id>, stuck: seq<Id>, m: nat)
    requires ShapedAs(layers, waves, apart, stuck, m) && Covers(layers, ids) && Eager(waves, kept)
    requires Rooted(waves, kept, ids - Contents(stuck))
    requires forall id :: id in apart ==> !exists e :: e in kept && e.from == id
    ensures LayersFollow(layers, ids, kept, apart, stuck)
  {
    hide HasAnySource, HasSource, Covers, Eager, Minus;
    forall k, v | 0 <= k < |layers| && v in layers[k] && v !in apart && v !in stuck
      ensures if k == 0 then !HasAnySource(kept, v) else HasSource(kept, layers[k - 1], v)
    {
      assert k < m && v in waves[k];
      if k > 0 {
        SourceStays(waves, kept, apart, k, v);
      }
    }
    forall v | v in ids && v !in apart && v !in stuck && !HasAnySource(kept, v)
      ensures layers != [] && v in layers[0]
    {
      assert v in Minus(waves[0], apart);
    }
  }

  lemma {:induction false} LayersAre(waves: seq<seq<Id>>, ids: set<Id>, kept: seq<Edge>, apart: seq<Id>, stuck: seq<Id>)
    requires Covers(waves, ids - Contents(stuck)) && Layered(waves, kept) && Eager(waves, kept)
    requires forall id :: id in apart ==> id !in stuck && !exists e :: e in kept && e.from == id
    requires Covers(Layers(if stuck == [] then waves else waves + [stuck], apart), ids)
    ensures LayersFollow(Layers(if stuck == [] then waves else waves + [stuck], apart), ids, kept, apart, stuck)
  {
    hide Covers, Eager, Layered, LayersFollow, ShapedAs, Rooted, Layers;
    WavesRooted(waves, kept, ids - Contents(stuck));
    var m := LayersShaped(waves, kept, apart, stuck);
    ShapeFollows(Layers(if stuck == [] then waves else waves + [stuck], apart), waves, ids, kept, apart, stuck, m);
  }

  // ---------------------------------------------------------------- boxes

  function Columns(ids: seq<Id>): nat { if |ids| < 2 then |ids| else 2 }

  function BandWidth(ids: seq<Id>): int { Columns(ids) * (WIDTH + SIDE) - SIDE }

  function BandX(layers: seq<seq<Id>>, gutter: int, i: nat): int
    requires i <= |layers|
  {
    if i == 0 then gutter else BandX(layers, gutter, i - 1) + BandWidth(layers[i - 1]) + gutter + SIDE
  }

  function RowTop(top: int, height: int, row: nat): int { top + row * (height + ROW_GAP) }

  function BoxAt(layers: seq<seq<Id>>, gutter: int, top: int, height: int, i: nat, slot: nat): Rect
    requires i < |layers| && slot < |layers[i]|
  {
    SlotBox(BandX(layers, gutter, i), top, height, Columns(layers[i]), slot)
  }

  function SlotBox(x: int, top: int, height: int, columns: nat, slot: nat): Rect
    requires columns > 0
  {
    Rect(x + slot % columns * (WIDTH + SIDE), RowTop(top, height, slot / columns), WIDTH, height)
  }

  /** Where the stream in this layer and slot stands. */
  ghost predicate Stands(g: Grid, box: Rect, i: nat, slot: nat) {
    i < |g.layers| && slot < |g.layers[i]| && box == BoxAt(g.layers, g.gutter, g.top, g.height, i, slot)
  }

  /** The numbers the whole drawing follows from. */
  datatype Grid = Grid(layers: seq<seq<Id>>, links: nat, gutter: int, top: int, height: int)

  ghost predicate ProperGrid(g: Grid) {
    && Covers(g.layers, LayerIds(g.layers)) && g.gutter == Gutter(g.links) && g.top == NodeTop(g.links)
    && g.height >= 420
  }

  ghost function LayerIds(layers: seq<seq<Id>>): set<Id> {
    set i, v | 0 <= i < |layers| && v in layers[i] :: v
  }

  /** Every stream of the layers has the box of its layer and slot, and there are no other boxes. */
  ghost predicate Filled(g: Grid, boxes: map<Id, Rect>) {
    && boxes.Keys == LayerIds(g.layers)
    && forall i, slot :: 0 <= i < |g.layers| && 0 <= slot < |g.layers[i]| ==>
                           g.layers[i][slot] in boxes && Stands(g, boxes[g.layers[i][slot]], i, slot)
  }

  // ---------------------------------------------------------------- routes

  /** The straight corridor between two boxes of one row is free of other boxes. */
  predicate CorridorClear(boxes: map<Id, Rect>, e: Edge)
    requires e.from in boxes && e.to in boxes
  {
    var a, b := boxes[e.from], boxes[e.to];
    a.y == b.y && !exists id :: id in boxes && id != e.from && id != e.to && Blocks(boxes[id], a, b)
  }

  predicate Blocks(box: Rect, a: Rect, b: Rect) {
    box.x < b.x && Right(box) > Right(a) && box.y < a.y + 55 && Bottom(box) > a.y + 55
  }

  function BandOf(bands: seq<Band>, id: Id): (k: nat)
    ensures k <= |bands| && (k < |bands| ==> id in bands[k].ids)
    ensures forall j :: 0 <= j < k ==> id !in bands[j].ids
  {
    if bands == [] || id in bands[0].ids then 0 else 1 + BandOf(bands[1..], id)
  }

  function Detour(a: Rect, b: Rect, fromX: int, toX: int, index: nat): seq<Spot> {
    var fromLane, toLane, laneY := fromX - 20 - index * 8, toX - 20 - index * 8, 20 + index * 8;
    var outY, inY := a.y - 20 - index % 7 * 2, b.y - 20 - index % 7 * 2;
    [Spot(a.x + WIDTH / 2, a.y), Spot(a.x + WIDTH / 2, outY), Spot(fromLane, outY), Spot(fromLane, laneY),
     Spot(toLane, laneY), Spot(toLane, inY), Spot(b.x + WIDTH / 2, inY), Spot(b.x + WIDTH / 2, b.y)]
  }

  function RoutePoints(boxes: map<Id, Rect>, bands: seq<Band>, e: Edge, index: nat): seq<Spot>
    requires e.from in boxes && e.to in boxes
    requires BandOf(bands, e.from) < |bands| && BandOf(bands, e.to) < |bands|
  {
    var a, b := boxes[e.from], boxes[e.to];
    if CorridorClear(boxes, e) then [Spot(Right(a), a.y + 55), Spot(b.x, b.y + 55)]
    else Detour(a, b, bands[BandOf(bands, e.from)].x, bands[BandOf(bands, e.to)].x, index)
  }

  // ---------------------------------------------------------------- geometry

  predicate Between(lo: int, hi: int, t: real) { lo as real <= t <= hi as real || hi as real <= t <= lo as real }

  /** A point of the leg between two corners, which must share a coordinate. */
  predicate OnLeg(a: Spot, b: Spot, px: real, py: real) {
    || (a.x == b.x && px == a.x as real && Between(a.y, b.y, py))
    || (a.y == b.y && py == a.y as real && Between(a.x, b.x, px))
  }

  predicate StrictlyInside(r: Rect, px: real, py: real) {
    r.x as real < px < Right(r) as real && r.y as real < py < Bottom(r) as real
  }

  /** A route of axis-parallel legs from one box's edge to the other's. */
  ghost predicate Orthogonal(points: seq<Spot>) {
    |points| >= 2 && forall k :: 0 <= k < |points| - 1 ==>
                       points[k].x == points[k + 1].x || points[k].y == points[k + 1].y
  }

  predicate OnEdgeOf(r: Rect, p: Spot) {
    r.x <= p.x <= Right(r) && r.y <= p.y <= Bottom(r) && !StrictlyInside(r, p.x as real, p.y as real)
  }

  /** No point of any leg lies strictly inside the box. */
  ghost predicate Misses(points: seq<Spot>, box: Rect) {
    forall k, px, py :: 0 <= k < |points| - 1 && OnLeg(points[k], points[k + 1], px, py) ==>
      !StrictlyInside(box, px, py)
  }

  lemma {:induction false} BandsApart(layers: seq<seq<Id>>, gutter: int, i: nat, j: nat)
    requires i < j <= |layers| && gutter >= 0 && forall k :: 0 <= k < |layers| ==> layers[k] != []
    ensures BandX(layers, gutter, i) + BandWidth(layers[i]) + gutter + SIDE <= BandX(layers, gutter, j)
    decreases j
  {
    if i < j - 1 {
      BandsApart(layers, gutter, i, j - 1);
    }
  }

  /** A box stays within its band. */
  lemma {:induction false} BoxInBand(g: Grid, box: Rect, i: nat, slot: nat)
    requires Stands(g, box, i, slot)
    ensures BandX(g.layers, g.gutter, i) <= box.x && Right(box) <= BandX(g.layers, g.gutter, i) + BandWidth(g.layers[i])
  {
    var columns := Columns(g.layers[i]);
    assert 0 <= slot % columns < columns <= 2;
  }

  lemma {:induction false} RowsApart(top: int, height: int, r: nat, s: nat)
    requires r < s && height >= 0
    ensures RowTop(top, height, r) + height + ROW_GAP <= RowTop(top, height, s)
  {
    assert (r + 1) * (height + ROW_GAP) <= s * (height + ROW_GAP) by {
      Scaled(r + 1, s, height + ROW_GAP);
    }
    assert (r + 1) * (height + ROW_GAP) == r * (height + ROW_GAP) + (height + ROW_GAP);
  }

  lemma {:induction false} Scaled(a: int, b: int, c: int)
    requires a <= b && c >= 0
    ensures a * c <= b * c
  {
  }

  /** The strip of `ROW_GAP` above a row's tops meets no box. */
  lemma {:induction false} StripFree(g: Grid, box: Rect, i: nat, slot: nat, row: nat, px: real, py: real)
    requires ProperGrid(g) && Stands(g, box, i, slot)
    requires (RowTop(g.top, g.height, row) - ROW_GAP) as real <= py <= RowTop(g.top, g.height, row) as real
    ensures !StrictlyInside(box, px, py)
  {
    var own := slot / Columns(g.layers[i]);
    assert box.y == RowTop(g.top, g.height, own);
    if own < row {
      RowsApart(g.top, g.height, own, row);
    } else if row < own {
      RowsApart(g.top, g.height, row, own);
    }
  }

  /** A lane in a band's gutter meets no box. */
  lemma {:induction false} LaneFree(g: Grid, box: Rect, i: nat, slot: nat, j: nat, index: nat, px: real, py: real)
    requires ProperGrid(g) && Stands(g, box, i, slot) && j < |g.layers| && index < g.links
    requires px == (BandX(g.layers, g.gutter, j) - 20 - index * 8) as real
    ensures !StrictlyInside(box, px, py)
  {
    BoxInBand(g, box, i, slot);
    if i < j {
      BandsApart(g.layers, g.gutter, i, j);
    } else if j < i {
      BandsApart(g.layers, g.gutter, j, i);
      assert BandWidth(g.layers[j]) >= 0;
    }
  }

  /** The lanes above all rows meet no box. */
  lemma {:induction false} TopFree(g: Grid, box: Rect, i: nat, slot: nat, index: nat, px: real, py: real)
    requires ProperGrid(g) && Stands(g, box, i, slot) && index < g.links && py == (20 + index * 8) as real
    ensures !StrictlyInside(box, px, py)
  {
    Scaled(0, slot / Columns(g.layers[i]), g.height + ROW_GAP);
  }

  /** The eight-point detour misses every box. */
  lemma {:induction false} DetourMisses(g: Grid, a: Rect, i: nat, s: nat, b: Rect, j: nat, t: nat, box: Rect, m: nat,
                                        u: nat, index: nat)
    requires ProperGrid(g) && Stands(g, a, i, s) && Stands(g, b, j, t) && Stands(g, box, m, u) && index < g.links
    ensures var points := Detour(a, b, BandX(g.layers, g.gutter, i), BandX(g.layers, g.gutter, j), index);
            Orthogonal(points) && OnEdgeOf(a, points[0]) && OnEdgeOf(b, points[7]) && Misses(points, box)
  {
    var points := Detour(a, b, BandX(g.layers, g.gutter, i), BandX(g.layers, g.gutter, j), index);
    forall k, px, py | 0 <= k < |points| - 1 && OnLeg(points[k], points[k + 1], px, py)
      ensures !StrictlyInside(box, px, py)
    {
      if k < 2 {
        StripFree(g, box, m, u, s / Columns(g.layers[i]), px, py);
      } else if k == 2 {
        LaneFree(g, box, m, u, i, index, px, py);
      } else if k == 3 {
        TopFree(g, box, m, u, index, px, py);
      } else if k == 4 {
        LaneFree(g, box, m, u, j, index, px, py);
      } else {
        StripFree(g, box, m, u, t / Columns(g.layers[j]), px, py);
      }
    }
  }

  /** The direct link misses every box when its corridor is clear and it runs left to right. */
  lemma {:induction false} DirectMisses(boxes: map<Id, Rect>, e: Edge, id: Id)
    requires e.from in boxes && e.to in boxes && id in boxes && CorridorClear(boxes, e)
             && Right(boxes[e.from]) <= boxes[e.to].x
    requires forall j :: j in boxes ==> boxes[j].height >= 420 && boxes[j].width == WIDTH
    ensures var a, b := boxes[e.from], boxes[e.to];
            var points := [Spot(Right(a), a.y + 55), Spot(b.x, b.y + 55)];
            Orthogonal(points) && OnEdgeOf(a, points[0]) && OnEdgeOf(b, points[1]) && Misses(points, boxes[id])
  {
    var a, b, box := boxes[e.from], boxes[e.to], boxes[id];
    assert id == e.from || id == e.to || !Blocks(box, a, b);
  }

  /** A kept link goes strictly left to right, the gutter and more between the boxes. */
  lemma {:induction false} LeftToRight(g: Grid, boxes: map<Id, Rect>, u: Id, v: Id)
    requires ProperGrid(g) && Filled(g, boxes) && InOrder(g.layers, u, v)
    ensures u in boxes && v in boxes && Right(boxes[u]) + g.gutter + SIDE <= boxes[v].x
  {
    var i, j :| 0 <= i < j < |g.layers| && u in g.layers[i] && v in g.layers[j];
    var s :| 0 <= s < |g.layers[i]| && g.layers[i][s] == u;
    var t :| 0 <= t < |g.layers[j]| && g.layers[j][t] == v;
    BoxInBand(g, boxes[g.layers[i][s]], i, s);
    BoxInBand(g, boxes[g.layers[j][t]], j, t);
    BandsApart(g.layers, g.gutter, i, j);
  }

  predicate Apart(a: Rect, b: Rect) {
    || Right(a) + SIDE <= b.x || Right(b) + SIDE <= a.x
    || Bottom(a) + ROW_GAP <= b.y || Bottom(b) + ROW_GAP <= a.y
  }

  lemma {:induction false} SlotsApart(n: nat, s: nat, t: nat)
    requires s < t && 1 <= n <= 2
    ensures s / n < t / n || (s / n == t / n && s % n < t % n)
  {
  }

  lemma {:induction false} BoxesApart(g: Grid, a: Rect, i: nat, s: nat, b: Rect, j: nat, t: nat)
    requires ProperGrid(g) && Stands(g, a, i, s) && Stands(g, b, j, t) && (i < j || (i == j && s < t))
    ensures Apart(a, b)
  {
    BoxInBand(g, a, i, s);
    BoxInBand(g, b, j, t);
    if i < j {
      BandsApart(g.layers, g.gutter, i, j);
    } else {
      var n := Columns(g.layers[i]);
      SlotsApart(n, s, t);
      if s / n < t / n {
        RowsApart(g.top, g.height, s / n, t / n);
      }
    }
  }

  /** Where a box stands in a filled grid. */
  lemma {:induction false} FindBox(g: Grid, boxes: map<Id, Rect>, id: Id) returns (i: nat, s: nat)
    requires Filled(g, boxes) && id in boxes
    ensures i < |g.layers| && s < |g.layers[i]| && g.layers[i][s] == id && Stands(g, boxes[id], i, s)
  {
    var k :| 0 <= k < |g.layers| && id in g.layers[k];
    var t :| 0 <= t < |g.layers[k]| && g.layers[k][t] == id;
    i, s := k, t;
    assert Stands(g, boxes[g.layers[i][s]], i, s);
  }

  lemma {:induction false} AllApart(g: Grid, boxes: map<Id, Rect>, id: Id, jd: Id)
    requires ProperGrid(g) && Filled(g, boxes) && id in boxes && jd in boxes && id != jd
    ensures Apart(boxes[id], boxes[jd])
  {
    var i, s := FindBox(g, boxes, id);
    var j, t := FindBox(g, boxes, jd);
    if i < j || (i == j && s < t) {
      BoxesApart(g, boxes[id], i, s, boxes[jd], j, t);
    } else {
      BoxesApart(g, boxes[jd], j, t, boxes[id], i, s);
    }
  }

  /** What every route must be. */
  ghost predicate GoodRoute(boxes: map<Id, Rect>, r: Route) {
    && r.edge.from in boxes && r.edge.to in boxes && Orthogonal(r.points)
    && OnEdgeOf(boxes[r.edge.from], r.points[0]) && OnEdgeOf(boxes[r.edge.to], r.points[|r.points| - 1])
    && Right(boxes[r.edge.from]) < boxes[r.edge.to].x
    && forall id :: id in boxes ==> Misses(r.points, boxes[id])
  }

  ghost predicate BandsOf(g: Grid, bands: seq<Band>) {
    |bands| == |g.layers| && forall i :: 0 <= i < |bands| ==>
                               bands[i] == Band(BandX(g.layers, g.gutter, i), g.layers[i])
  }

  lemma {:induction false} FindBand(g: Grid, boxes: map<Id, Rect>, bands: seq<Band>, id: Id) returns (i: nat, s: nat)
    requires ProperGrid(g) && Filled(g, boxes) && BandsOf(g, bands) && id in boxes
    ensures i < |g.layers| && BandOf(bands, id) == i && Stands(g, boxes[id], i, s)
  {
    i, s := FindBox(g, boxes, id);
    assert id in bands[i].ids;
    assert BandOf(bands, id) <= i;
  }

  /** Every link drawn on a filled grid, direct or by detour, is a good route. */
  lemma {:induction false} RouteIsGood(g: Grid, boxes: map<Id, Rect>, bands: seq<Band>, e: Edge, index: nat)
    requires ProperGrid(g) && Filled(g, boxes) && BandsOf(g, bands) && InOrder(g.layers, e.from, e.to)
             && index < g.links
    ensures e.from in boxes && e.to in boxes && BandOf(bands, e.from) < |bands| && BandOf(bands, e.to) < |bands|
    ensures GoodRoute(boxes, Route(e, RoutePoints(boxes, bands, e, index)))
  {
    hide Filled, ProperGrid, BandsOf, InOrder, Stands, Misses, OnEdgeOf, Orthogonal, RoutePoints;
    LeftToRight(g, boxes, e.from, e.to);
    GutterIsPositive(g);
    var i, s := FindBand(g, boxes, bands, e.from);
    var j, t := FindBand(g, boxes, bands, e.to);
    BandCount(g, bands);
    RouteMisses(g, boxes, bands, e, index, i, s, j, t, e.from);
    forall id | id in boxes
      ensures Misses(RoutePoints(boxes, bands, e, index), boxes[id])
    {
      RouteMisses(g, boxes, bands, e, index, i, s, j, t, id);
    }
  }

  lemma {:induction false} BandCount(g: Grid, bands: seq<Band>)
    requires BandsOf(g, bands)
    ensures |bands| == |g.layers|
  {
  }

  lemma {:induction false} GutterIsPositive(g: Grid)
    requires ProperGrid(g)
    ensures g.gutter > 0
  {
  }

  lemma {:induction false} RouteMisses(g: Grid, boxes: map<Id, Rect>, bands: seq<Band>, e: Edge, index: nat, i: nat,
                                       s: nat, j: nat, t: nat, id: Id)
    requires ProperGrid(g) && Filled(g, boxes) && BandsOf(g, bands) && index < g.links && id in boxes
    requires e.from in boxes && e.to in boxes && Right(boxes[e.from]) <= boxes[e.to].x
    requires i == BandOf(bands, e.from) < |bands| && Stands(g, boxes[e.from], i, s)
    requires j == BandOf(bands, e.to) < |bands| && Stands(g, boxes[e.to], j, t)
    ensures var points := RoutePoints(boxes, bands, e, index);
            && Orthogonal(points) && Misses(points, boxes[id])
            && OnEdgeOf(boxes[e.from], points[0]) && OnEdgeOf(boxes[e.to], points[|points| - 1])
  {
    hide BoxAt, BandX, Misses, OnEdgeOf, CorridorClear, Detour, Covers, BandOf;
    if CorridorClear(boxes, e) {
      BoxSizes(g, boxes);
      DirectMisses(boxes, e, id);
    } else {
      var m, u := FindBox(g, boxes, id);
      DetourMisses(g, boxes[e.from], i, s, boxes[e.to], j, t, boxes[id], m, u, index);
      DetourLength(boxes[e.from], boxes[e.to], bands[i].x, bands[j].x, index);
    }
  }

  lemma {:induction false} DetourLength(a: Rect, b: Rect, fromX: int, toX: int, index: nat)
    ensures |Detour(a, b, fromX, toX, index)| == 8
  {
  }

  lemma {:induction false} BoxSizes(g: Grid, boxes: map<Id, Rect>)
    requires ProperGrid(g) && Filled(g, boxes)
    ensures forall id :: id in boxes ==> boxes[id].height >= 420 && boxes[id].width == WIDTH
  {
    forall id | id in boxes
      ensures boxes[id].height >= 420 && boxes[id].width == WIDTH
    {
      var i, s := FindBox(g, boxes, id);
    }
  }

  // ---------------------------------------------------------------- the drawing itself

  /** Seat one layer's streams in rows of up to two. */
  method PlaceBand(boxes: map<Id, Rect>, ids: seq<Id>, x: int, top: int, height: int) returns (more: map<Id, Rect>)
    requires Distinct(ids) && ids != []
    ensures more.Keys == boxes.Keys + Contents(ids)
    ensures forall id :: id in boxes && id !in ids ==> more[id] == boxes[id]
    ensures forall s :: 0 <= s < |ids| ==>
              more[ids[s]] == SlotBox(x, top, height, Columns(ids), s)
  {
    hide SlotBox;
    var columns := Columns(ids);
    more := boxes;
    for s := 0 to |ids|
      invariant more.Keys == boxes.Keys + Contents(ids[..s])
      invariant forall id :: id in boxes && id !in ids[..s] ==> more[id] == boxes[id]
      invariant forall k :: 0 <= k < s ==> more[ids[k]] == SlotBox(x, top, height, columns, k)
    {
      assert ids[..s + 1] == ids[..s] + [ids[s]];
      more := more[ids[s] := SlotBox(x, top, height, columns, s)];
    }
    assert ids[..|ids|] == ids;
  }

  /** Every stream of the first layers stands in its place. */
  ghost predicate FilledTo(g: Grid, boxes: map<Id, Rect>, i: nat) {
    && i <= |g.layers| && boxes.Keys == LayerIds(g.layers[..i])
    && forall k, s :: 0 <= k < i && 0 <= s < |g.layers[k]| ==>
         g.layers[k][s] in boxes && Stands(g, boxes[g.layers[k][s]], k, s)
  }

  lemma {:induction false} OneMoreBand(g: Grid, boxes: map<Id, Rect>, more: map<Id, Rect>, i: nat)
    requires ProperGrid(g) && FilledTo(g, boxes, i) && i < |g.layers|
    requires more.Keys == boxes.Keys + Contents(g.layers[i])
    requires forall id :: id in boxes && id !in g.layers[i] ==> more[id] == boxes[id]
    requires forall s :: 0 <= s < |g.layers[i]| ==>
               more[g.layers[i][s]] == BoxAt(g.layers, g.gutter, g.top, g.height, i, s)
    ensures FilledTo(g, more, i + 1)
  {
    hide BoxAt;
    LayerIdsSnoc(g.layers, i);
    forall k, s | 0 <= k < i + 1 && 0 <= s < |g.layers[k]|
      ensures g.layers[k][s] in more && Stands(g, more[g.layers[k][s]], k, s)
    {
      if k < i {
        assert Stands(g, boxes[g.layers[k][s]], k, s);
        assert g.layers[k][s] in g.layers[k];
      }
    }
  }

  /** Lay the bands out from left to right. */
  method PlaceBands(g: Grid) returns (bands: seq<Band>, boxes: map<Id, Rect>)
    requires ProperGrid(g)
    ensures BandsOf(g, bands) && Filled(g, boxes)
  {
    hide FilledTo, Filled, SlotBox, ProperGrid, BandWidth, Columns, BandsTo, Stands;
    bands, boxes := [], map[];
    BandsFromTo(g, boxes, bands);
    var nextX := g.gutter;
    for i := 0 to |g.layers|
      invariant nextX == BandX(g.layers, g.gutter, i) && BandsTo(g, bands, i) && FilledTo(g, boxes, i)
    {
      OneMoreRow(g, bands, i);
      var ids := g.layers[i];
      LayerShape(g, i);
      var more := PlaceBand(boxes, ids, nextX, g.top, g.height);
      OneMoreBand(g, boxes, more, i);
      boxes := more;
      bands := bands + [Band(nextX, ids)];
      nextX := nextX + BandWidth(ids) + g.gutter + SIDE;
    }
    BandsFromTo(g, boxes, bands);
  }

  lemma {:induction false} LayerShape(g: Grid, i: nat)
    requires ProperGrid(g) && i < |g.layers|
    ensures Distinct(g.layers[i]) && g.layers[i] != []
  {
  }

  /** The first layers' bands, from left to right. */
  ghost predicate BandsTo(g: Grid, bands: seq<Band>, i: nat) {
    && i <= |g.layers| && |bands| == i
    && forall k :: 0 <= k < i ==> bands[k] == Band(BandX(g.layers, g.gutter, k), g.layers[k])
  }

  lemma {:induction false} OneMoreRow(g: Grid, bands: seq<Band>, i: nat)
    requires BandsTo(g, bands, i) && i < |g.layers|
    ensures BandsTo(g, bands + [Band(BandX(g.layers, g.gutter, i), g.layers[i])], i + 1)
  {
    hide BandX;
  }

  /** Nothing is filled at first, and a grid filled to its last layer is filled. */
  lemma {:induction false} BandsFromTo(g: Grid, boxes: map<Id, Rect>, bands: seq<Band>)
    ensures FilledTo(g, map[], 0) && BandsTo(g, [], 0)
    ensures FilledTo(g, boxes, |g.layers|) ==> Filled(g, boxes)
    ensures BandsTo(g, bands, |g.layers|) ==> BandsOf(g, bands)
  {
    assert g.layers[..|g.layers|] == g.layers;
  }

  lemma {:induction false} LayerIdsSnoc(layers: seq<seq<Id>>, i: nat)
    requires i < |layers|
    ensures LayerIds(layers[..i + 1]) == LayerIds(layers[..i]) + Contents(layers[i])
  {
    assert layers[..i + 1] == layers[..i] + [layers[i]];
    forall v | v in LayerIds(layers[..i]) + Contents(layers[i])
      ensures v in LayerIds(layers[..i + 1])
    {
      if v in layers[i] {
        assert v in layers[..i + 1][i];
      } else {
        var k :| 0 <= k < i && v in layers[..i][k];
        assert v in layers[..i + 1][k];
      }
    }
  }

  /** The layers of a project, with their order for every kept link. */
  lemma {:induction false} LayersProper(waves: seq<seq<Id>>, ids: set<Id>, stuck: seq<Id>, kept: seq<Edge>,
                                        apart: seq<Id>)
    requires Covers(waves, ids - Contents(stuck)) && Layered(waves, kept) && Distinct(stuck) && Contents(stuck) <= ids
    requires forall e :: e in kept ==> e.from in ids && e.to in ids && e.from !in stuck && e.to !in stuck
    requires Distinct(apart) && forall id :: id in apart ==> id in ids && id !in stuck && !exists e :: e in kept
                                                                                             && e.from == id
    ensures var layers := Layers(if stuck == [] then waves else waves + [stuck], apart);
            && Covers(layers, ids) && LayerIds(layers) == ids
            && forall e :: e in kept ==> InOrder(layers, e.from, e.to)
  {
    var all := if stuck == [] then waves else waves + [stuck];
    SqueezedSnoc(waves, ids - Contents(stuck), stuck);
    assert (ids - Contents(stuck)) + Contents(stuck) == ids;
    SqueezedCovers(all, ids, apart);
    SqueezedSnoc(Squeezed(all, apart), ids - Contents(apart), apart);
    assert (ids - Contents(apart)) + Contents(apart) == ids;
    var layers := Layers(all, apart);
    assert layers == if apart == [] then Squeezed(all, apart) else Squeezed(all, apart) + [apart];
    CoveredIds(layers, ids);
    forall e | e in kept
      ensures InOrder(layers, e.from, e.to)
    {
      LinkInOrder(waves, all, ids - Contents(stuck), kept, apart, e);
    }
  }

  lemma {:induction false} CoveredIds(layers: seq<seq<Id>>, ids: set<Id>)
    requires Covers(layers, ids)
    ensures LayerIds(layers) == ids
  {
  }

  lemma {:induction false} LinkInOrder(waves: seq<seq<Id>>, all: seq<seq<Id>>, done: set<Id>, kept: seq<Edge>,
                                       apart: seq<Id>, e: Edge)
    requires Covers(waves, done) && Layered(waves, kept) && waves <= all && e in kept && e.to in done
             && e.from !in apart
    ensures InOrder(Layers(all, apart), e.from, e.to)
  {
    var k :| 0 <= k < |waves| && e.to in waves[k];
    assert Before(waves, k, e.from);
    var j :| 0 <= j < k && j < |waves| && e.from in waves[j];
    assert all[j] == waves[j] && all[k] == waves[k];
    var squeezed, layers := Squeezed(all, apart), Layers(all, apart);
    if e.to in apart {
      var a := SqueezedHolds(all, apart, j, e.from);
      assert e.from in layers[a] && e.to in layers[|squeezed|];
    } else {
      SqueezedInOrder(all, apart, j, k, e.from, e.to);
      var a, b :| 0 <= a < b < |squeezed| && e.from in squeezed[a] && e.to in squeezed[b];
      assert e.from in layers[a] && e.to in layers[b];
    }
  }

  /** In eager waves every stream's source just before it is joined to it by a link that is kept. */
  lemma {:induction false} EagerKept(waves: seq<seq<Id>>, done: set<Id>, edges: seq<Edge>, stuck: seq<Id>)
    requires Covers(waves, done) && done !! Contents(stuck) && Eager(waves, edges) && Layered(waves, edges)
    ensures Eager(waves, KeptLinks(edges, stuck)) && Layered(waves, KeptLinks(edges, stuck))
  {
    var kept := KeptLinks(edges, stuck);
    forall k, v | 0 < k < |waves| && v in waves[k]
      ensures HasWaitingSource(kept, waves[k - 1], v)
    {
      assert HasWaitingSource(edges, waves[k - 1], v);
      var e :| e in edges && e.to == v && e.from in waves[k - 1];
      assert v in done && e.from in done;
      assert v !in Contents(stuck) && e.from !in Contents(stuck);
      assert e in kept;
    }
  }

  // ---------------------------------------------------------------- what is drawn

  function BandIds(bands: seq<Band>): (layers: seq<seq<Id>>)
    ensures |layers| == |bands| && forall k :: 0 <= k < |bands| ==> layers[k] == bands[k].ids
  {
    seq(|bands|, k requires 0 <= k < |bands| => bands[k].ids)
  }

  /** Bands follow each other at the gutter and 60 more; a band of one stream is 380 wide, any other 820. */
  ghost predicate BandsSpaced(bands: seq<Band>, links: nat) {
    forall k :: 0 <= k < |bands| ==> IsSpaced(bands, links, k)
  }

  predicate IsSpaced(bands: seq<Band>, links: nat, k: nat)
    requires k < |bands|
  {
    bands[k].x == if k == 0 then 40 + 8 * links
                  else bands[k - 1].x + (if |bands[k - 1].ids| == 1 then 380 else 820) + 100 + 8 * links
  }

  /** Streams stand in their band in rows of two, one alone in one column. */
  ghost predicate BoxesPlaced(bands: seq<Band>, boxes: map<Id, Rect>, links: nat, height: int) {
    forall k, s :: 0 <= k < |bands| && 0 <= s < |bands[k].ids| ==>
      bands[k].ids[s] in boxes && IsPlaced(boxes[bands[k].ids[s]], bands[k], links, height, s)
  }

  predicate IsPlaced(box: Rect, band: Band, links: nat, height: int, s: nat) {
    box == if |band.ids| == 1 then Rect(band.x, 84 + 8 * links, 380, height)
           else Rect(band.x + s % 2 * 440, 84 + 8 * links + s / 2 * (height + 40), 380, height)
  }

  /** A link is drawn straight if no box is in the way; otherwise over a lane at the top that no other link has. */
  ghost predicate IsRouted(boxes: map<Id, Rect>, r: Route, k: nat) {
    && r.edge.from in boxes && r.edge.to in boxes
    && var a, b := boxes[r.edge.from], boxes[r.edge.to];
       if CorridorClear(boxes, r.edge) then r.points == [Spot(a.x + a.width, a.y + 55), Spot(b.x, b.y + 55)]
       else |r.points| == 8 && r.points[3].y == r.points[4].y == 20 + 8 * k
  }

  lemma {:induction false} SlotIsPlaced(band: Band, links: nat, height: int, s: nat)
    requires s < |band.ids|
    ensures IsPlaced(SlotBox(band.x, NodeTop(links), height, Columns(band.ids), s), band, links, height, s)
  {
    if |band.ids| == 1 {
      assert s == 0;
    }
  }

  lemma {:induction false} BandIsSpaced(g: Grid, k: nat)
    requires ProperGrid(g) && k < |g.layers|
    ensures BandX(g.layers, g.gutter, k)
            == if k == 0 then 40 + 8 * g.links
               else BandX(g.layers, g.gutter, k - 1) + (if |g.layers[k - 1]| == 1 then 380 else 820) + 100 + 8 * g.links
  {
    if k > 0 {
      LayerShape(g, k - 1);
    }
    hide Covers;
  }

  lemma {:induction false} GridIsDrawn(g: Grid, bands: seq<Band>, boxes: map<Id, Rect>)
    requires ProperGrid(g) && BandsOf(g, bands) && Filled(g, boxes)
    ensures BandsSpaced(bands, g.links) && BoxesPlaced(bands, boxes, g.links, g.height)
  {
    hide BandX, Covers, SlotBox, Columns, IsPlaced, LayerIds;
    forall k | 0 <= k < |bands|
      ensures IsSpaced(bands, g.links, k)
    {
      BandIsSpaced(g, k);
      assert bands[k].x == BandX(g.layers, g.gutter, k) && (k > 0 ==> bands[k - 1].ids == g.layers[k - 1]);
    }
    forall k, s | 0 <= k < |bands| && 0 <= s < |bands[k].ids|
      ensures bands[k].ids[s] in boxes && IsPlaced(boxes[bands[k].ids[s]], bands[k], g.links, g.height, s)
    {
      assert Stands(g, boxes[g.layers[k][s]], k, s);
      SlotIsPlaced(bands[k], g.links, g.height, s);
    }
  }

  /** The links drawn: both ends known and not held up by a cycle. */
  function DrawnLinks(streams: seq<Stream>, stuck: seq<Id>): seq<Edge> {
    KeptLinks(KnownLinks(streams, Firsts(StreamIds(streams))), stuck)
  }

  /** The layers of a project, read off its streams and links. */
  ghost predicate WellLayered(streams: seq<Stream>, layers: seq<seq<Id>>, stuck: seq<Id>) {
    var ids, kept := Contents(StreamIds(streams)), DrawnLinks(streams, stuck);
    && LayersFollow(layers, ids, kept, Coordinators(streams, stuck, kept), stuck) && LayerIds(layers) == ids
    && (forall e :: e in kept ==> InOrder(layers, e.from, e.to))
    && (forall k :: 0 <= k < |layers| ==> KeepsOrder(StreamIds(streams), layers[k]))
  }

  /** Which streams are held up, and the layers of the others with coordination last. */
  method FindLayers(streams: seq<Stream>) returns (layers: seq<seq<Id>>, stuck: seq<Id>)
    ensures WellLayered(streams, layers, stuck)
    ensures var edges := KnownLinks(streams, Firsts(StreamIds(streams)));
            && (forall id :: id in stuck <==> id in StreamIds(streams) && Tainted(edges, id))
            && (stuck != [] <==> HasCycle(edges))
    ensures layers == [] || LastIsApart(layers, Coordinators(streams, stuck, DrawnLinks(streams, stuck)))
  {
    hide LayersFollow, KeepsOrder, Covers, Layered, Eager, Layers, Distinct, Tainted, HasCycle, InOrder, LayerIds;
    var known := Firsts(StreamIds(streams));
    var edges := KnownLinks(streams, known);
    assert Contents(known) == Contents(StreamIds(streams));
    var waves;
    waves, stuck := PeelWaves(known, edges);
    var kept := KeptLinks(edges, stuck);
    var apart := Coordinators(streams, stuck, kept);
    layers := Layers(if stuck == [] then waves else waves + [stuck], apart);
    EagerKept(waves, Contents(known) - Contents(stuck), edges, stuck);
    LayersProper(waves, Contents(known), stuck, kept, apart);
    LayersAre(waves, Contents(known), kept, apart, stuck);
    LayersInOrder(StreamIds(streams), known, waves, stuck, apart);
    LayersEnd(if stuck == [] then waves else waves + [stuck], apart);
  }

  ghost predicate LastIsApart(layers: seq<seq<Id>>, apart: seq<Id>)
    requires layers != []
  {
    apart != [] ==> layers[|layers| - 1] == apart
  }

  lemma {:induction false} LayersEnd(waves: seq<seq<Id>>, apart: seq<Id>)
    ensures var layers := Layers(waves, apart); layers == [] || LastIsApart(layers, apart)
  {
  }

  /**
   Lay a project out. Every stream gets a box, no two boxes touch, a cycle is reported exactly when there is one,
   the links hidden are exactly those touching a stream on or downstream of a cycle, and every link drawn runs left
   to right along legs that enter no box.
   */
  method LayoutProject(streams: seq<Stream>) returns (layout: Layout, ghost stuck: seq<Id>)
    ensures layout.boxes.Keys == Contents(StreamIds(streams))
    ensures forall id, jd :: id in layout.boxes && jd in layout.boxes && id != jd ==>
              Apart(layout.boxes[id], layout.boxes[jd])
    ensures forall id :: id in stuck <==>
              id in StreamIds(streams) && Tainted(KnownLinks(streams, Firsts(StreamIds(streams))), id)
    ensures forall w :: w in layout.warnings <==>
              || IsMissing(streams, StreamIds(streams), w)
              || (w.CircularDependencies? && HasCycle(KnownLinks(streams, Firsts(StreamIds(streams)))))
    ensures var kept := DrawnLinks(streams, stuck);
            && |layout.routes| == |kept|
            && (forall k :: 0 <= k < |layout.routes| ==>
                  layout.routes[k].edge == kept[k] && GoodRoute(layout.boxes, layout.routes[k])
                  && IsRouted(layout.boxes, layout.routes[k], k))
    ensures var kept := DrawnLinks(streams, stuck); var apart := Coordinators(streams, stuck, kept);
            && LayersFollow(BandIds(layout.bands), Contents(StreamIds(streams)), kept, apart, stuck)
            && (forall c, v :: c in apart && v in layout.boxes && v !in apart ==>
                  Right(layout.boxes[v]) < layout.boxes[c].x)
            && BandsSpaced(layout.bands, |kept|)
            && BoxesPlaced(layout.bands, layout.boxes, |kept|, BoxHeight(streams))
    ensures forall k :: 0 <= k < |layout.bands| ==> KeepsOrder(StreamIds(streams), layout.bands[k].ids)
  {
    hide LayersFollow, BandsSpaced, BoxesPlaced, KeepsOrder, GoodRoute, IsRouted, Filled, BandsOf, IsMissing, Tainted,
      HasCycle, Coordinators, DrawnLinks, InOrder, BandIds;
    var layers, remaining := FindLayers(streams);
    stuck := remaining;
    var kept := DrawnLinks(streams, remaining);
    var apart := Coordinators(streams, remaining, kept);
    var g := Grid(layers, |kept|, Gutter(|kept|), NodeTop(|kept|), BoxHeight(streams));
    LayeredGrid(streams, remaining, g);
    var bands, boxes := PlaceBands(g);
    FilledKeys(g, boxes);
    GridIsDrawn(g, bands, boxes);
    BandsAre(g, bands);
    hide ProperGrid, WellLayered;
    forall id, jd | id in boxes && jd in boxes && id != jd
      ensures Apart(boxes[id], boxes[jd])
    {
      AllApart(g, boxes, id, jd);
    }
    forall c, v | c in apart && v in boxes && v !in apart
      ensures Right(boxes[v]) < boxes[c].x
    {
      CoordinatorsLast(g, boxes, apart, c, v);
    }
    var routes := DrawRoutes(g, boxes, bands, kept);
    var known := Firsts(StreamIds(streams));
    MissingAlike(streams, known);
    var circular := if remaining == [] then [] else [CircularDependencies];
    NotMissing(streams, StreamIds(streams));
    layout := Layout(boxes, bands, routes, Missing(streams, known) + circular);
  }

  lemma {:induction false} NotMissing(streams: seq<Stream>, known: seq<Id>)
    ensures !IsMissing(streams, known, CircularDependencies)
  {
  }

  lemma {:induction false} LayeredGrid(streams: seq<Stream>, stuck: seq<Id>, g: Grid)
    requires WellLayered(streams, g.layers, stuck) && g.height >= 420
    requires g.links == |DrawnLinks(streams, stuck)| && g.gutter == Gutter(g.links) && g.top == NodeTop(g.links)
    ensures ProperGrid(g) && LayerIds(g.layers) == Contents(StreamIds(streams))
    ensures forall e :: e in DrawnLinks(streams, stuck) ==> InOrder(g.layers, e.from, e.to)
  {
  }

  lemma {:induction false} FilledKeys(g: Grid, boxes: map<Id, Rect>)
    requires Filled(g, boxes)
    ensures boxes.Keys == LayerIds(g.layers)
  {
  }

  lemma {:induction false} RoutedAs(boxes: map<Id, Rect>, bands: seq<Band>, e: Edge, k: nat)
    requires e.from in boxes && e.to in boxes && BandOf(bands, e.from) < |bands| && BandOf(bands, e.to) < |bands|
    ensures IsRouted(boxes, Route(e, RoutePoints(boxes, bands, e, k)), k)
  {
    hide CorridorClear, BandOf;
  }

  lemma {:induction false} BandsAre(g: Grid, bands: seq<Band>)
    requires BandsOf(g, bands)
    ensures BandIds(bands) == g.layers && |bands| == |g.layers|
            && forall k :: 0 <= k < |bands| ==> bands[k].ids == g.layers[k]
  {
  }

  lemma {:induction false} MissingAlike(streams: seq<Stream>, known: seq<Id>)
    requires forall id :: id in known <==> id in StreamIds(streams)
    ensures forall w :: IsMissing(streams, known, w) <==> IsMissing(streams, StreamIds(streams), w)
  {
  }

  /** Every layer keeps the order in which the streams are given. */
  lemma {:induction false} LayersInOrder(given: seq<Id>, known: seq<Id>, waves: seq<seq<Id>>, stuck: seq<Id>,
                                         apart: seq<Id>)
    requires known == Firsts(given) && KeepsOrder(known, stuck) && KeepsOrder(given, apart)
    requires forall k :: 0 <= k < |waves| ==> KeepsOrder(known, waves[k])
    ensures var layers := Layers(if stuck == [] then waves else waves + [stuck], apart);
            forall k :: 0 <= k < |layers| ==> KeepsOrder(given, layers[k])
  {
    hide KeepsOrder;
    FirstsInOrder(given);
    KeepsOrderJoin(given, known, stuck);
    var all := if stuck == [] then waves else waves + [stuck];
    forall k | 0 <= k < |all|
      ensures KeepsOrder(given, all[k])
    {
      if k < |waves| {
        KeepsOrderJoin(given, known, waves[k]);
      }
    }
    SqueezedInTurn(given, all, apart);
  }

  lemma {:induction false} SqueezedInTurn(given: seq<Id>, waves: seq<seq<Id>>, apart: seq<Id>)
    requires forall k :: 0 <= k < |waves| ==> KeepsOrder(given, waves[k])
    ensures forall k :: 0 <= k < |Squeezed(waves, apart)| ==> KeepsOrder(given, Squeezed(waves, apart)[k])
  {
    hide KeepsOrder;
    if waves != [] {
      var n := |waves| - 1;
      SqueezedInTurn(given, waves[..n], apart);
      KeepsOrderJoin(given, waves[n], Minus(waves[n], apart));
    }
  }

  lemma {:induction false} FirstsInOrder(given: seq<Id>)
    ensures KeepsOrder(given, Firsts(given))
  {
    if given != [] {
      var init, last := given[..|given| - 1], given[|given| - 1];
      assert given == init + [last];
      FirstsInOrder(init);
      KeepsOrderSnoc(init, Firsts(init), last);
    }
  }

  /** Coordination stands to the right of everything else. */
  lemma {:induction false} CoordinatorsLast(g: Grid, boxes: map<Id, Rect>, apart: seq<Id>, c: Id, v: Id)
    requires ProperGrid(g) && Filled(g, boxes) && (g.layers == [] || LastIsApart(g.layers, apart))
    requires c in apart && v in boxes && v !in apart
    ensures c in boxes && Right(boxes[v]) < boxes[c].x
  {
    var i, s := FindBox(g, boxes, v);
    assert c in g.layers[|g.layers| - 1];
    assert InOrder(g.layers, v, c);
    LeftToRight(g, boxes, v, c);
  }

  method DrawRoutes(g: Grid, boxes: map<Id, Rect>, bands: seq<Band>, kept: seq<Edge>) returns (routes: seq<Route>)
    requires ProperGrid(g) && Filled(g, boxes) && BandsOf(g, bands) && g.links == |kept|
    requires forall e :: e in kept ==> InOrder(g.layers, e.from, e.to)
    ensures |routes| == |kept|
    ensures forall k :: 0 <= k < |routes| ==>
              routes[k].edge == kept[k] && GoodRoute(boxes, routes[k]) && IsRouted(boxes, routes[k], k)
  {
    hide GoodRoute, RoutePoints, Filled, ProperGrid, InOrder, BandsOf, IsRouted;
    routes := [];
    for k := 0 to |kept|
      invariant |routes| == k
      invariant forall j :: 0 <= j < k ==>
                  routes[j].edge == kept[j] && GoodRoute(boxes, routes[j]) && IsRouted(boxes, routes[j], j)
    {
      RouteIsGood(g, boxes, bands, kept[k], k);
      RoutedAs(boxes, bands, kept[k], k);
      routes := routes + [Route(kept[k], RoutePoints(boxes, bands, kept[k], k))];
    }
  }
}
