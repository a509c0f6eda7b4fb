/** The map layout object: team geography and shared resource areas kept over any sequence of builds. */
module MapBuilds {
  import opened Common
  import opened MapGeography
  import opened MapTeams
  import opened MapOutcomes
  import opened MapBuckets
  import S = Sorting

  datatype Destination = Destination(id: Id, connector: bool)
  datatype Family = Mcp | Tools
  datatype Shelf = Shelf(x: int, columns: nat)
  datatype Area = Area(family: Family, x: int, y: int, width: int, height: int)

  type Shelves = map<Family, Shelf>
  type ShelfSeats = map<Family, map<Id, nat>>

  const CELL := 250
  const SHELF_MARGIN := 120
  const SHELF_GAP := 300

  // ---------------------------------------------------------------- resource areas

  function MembersOf(destinations: seq<Destination>, f: Family): seq<Id> {
    if destinations == [] then []
    else
      var last := destinations[|destinations| - 1];
      MembersOf(destinations[..|destinations| - 1], f) + if last.connector == f.Mcp? then [last.id] else []
  }

  /** A family's members are the ids of its destinations, in their order. */
  lemma {:induction false} MembersAre(destinations: seq<Destination>, f: Family)
    ensures forall d :: d in MembersOf(destinations, f) <==> Takes(destinations, f, d)
    ensures forall i, j ::
              0 <= i < j < |destinations| && OfFamily(destinations[i], f) && OfFamily(destinations[j], f) ==>
              Follow(MembersOf(destinations, f), destinations[i].id, destinations[j].id)
  {
    if destinations != [] {
      var n := |destinations| - 1;
      var rest, last := destinations[..n], destinations[n];
      MembersAre(rest, f);
      var m, all := MembersOf(rest, f), MembersOf(destinations, f);
      forall d
        ensures d in all <==> Takes(destinations, f, d)
      {
        TakesLast(destinations, f, d);
      }
      forall i, j | 0 <= i < j < |destinations| && OfFamily(destinations[i], f) && OfFamily(destinations[j], f)
        ensures Follow(all, destinations[i].id, destinations[j].id)
      {
        assert rest[i] == destinations[i];
        if j < n {
          assert rest[j] == destinations[j];
          var p, q :| 0 <= p < q < |m| && m[p] == destinations[i].id && m[q] == destinations[j].id;
          assert all[p] == m[p] && all[q] == m[q];
        } else {
          assert Takes(rest, f, destinations[i].id);
          var p :| 0 <= p < |m| && m[p] == destinations[i].id;
          assert all[p] == m[p] && all[|m|] == last.id;
        }
      }
    }
  }

  predicate OfFamily(d: Destination, f: Family) { if d.connector then f == Mcp else f == Tools }

  ghost predicate Takes(destinations: seq<Destination>, f: Family, d: Id) {
    exists k :: 0 <= k < |destinations| && destinations[k].id == d && OfFamily(destinations[k], f)
  }

  ghost predicate Follow(m: seq<Id>, a: Id, b: Id) {
    exists p, q :: 0 <= p < q < |m| && m[p] == a && m[q] == b
  }

  lemma {:induction false} TakesLast(destinations: seq<Destination>, f: Family, d: Id)
    requires destinations != []
    ensures var n := |destinations| - 1;
            Takes(destinations, f, d) <==>
            Takes(destinations[..n], f, d) || (destinations[n].id == d && OfFamily(destinations[n], f))
  {
    var n := |destinations| - 1;
    if Takes(destinations[..n], f, d) {
      var k :| 0 <= k < n && destinations[..n][k].id == d && OfFamily(destinations[..n][k], f);
      assert destinations[k].id == d && OfFamily(destinations[k], f);
    }
    if Takes(destinations, f, d) {
      var k :| 0 <= k < |destinations| && destinations[k].id == d && OfFamily(destinations[k], f);
      assert k < n ==> destinations[..n][k].id == d && OfFamily(destinations[..n][k], f);
    }
  }

  function FamiliesOf(destinations: seq<Destination>): seq<Family> {
    (if MembersOf(destinations, Mcp) != [] then [Mcp] else []) +
        if MembersOf(destinations, Tools) != [] then [Tools] else []
  }

  function ShelfEnd(c: Shelf): int { c.x + c.columns * CELL + SHELF_MARGIN }

  predicate ShelvesApart(c: Shelf, d: Shelf) {
    ShelfEnd(c) + GAP_X <= d.x || ShelfEnd(d) + GAP_X <= c.x
  }

  /** What holds of the resource areas between builds. */
  ghost predicate Shelved(shelves: Shelves, seats: ShelfSeats) {
    && shelves.Keys == seats.Keys
    && (forall f :: f in shelves ==> 2 <= shelves[f].columns <= 12 && shelves[f].x >= LEFT && Numbered(seats[f]))
    && (forall f, g {:trigger ShelvesApart(shelves[f], shelves[g])} ::
          f in shelves && g in shelves && f != g ==> ShelvesApart(shelves[f], shelves[g]))
  }

  /** Given shelf seats and shelf positions are kept. */
  ghost predicate ShelvesKept(before: Shelves, after: Shelves, was: ShelfSeats, seats: ShelfSeats) {
    && (forall f :: f in before ==> f in after && after[f] == before[f])
    && (forall f, d :: f in was && d in was[f] ==> f in seats && d in seats[f] && seats[f][d] == was[f][d])
  }

  function ShelfColumns(right: int, families: nat): (c: nat)
    requires families > 0
    ensures 2 <= c <= 12
  {
    var share := (right - LEFT - GAP_X * (families - 1)) as real / families as real;
    var width := if share < 620.0 then 620.0 else share;
    Min(12, Max(2, ((width - 120.0) / 250.0).Floor))
  }

  /** The first free x: 280 to the right of every shelf, and no further than needed. */
  ghost predicate IsFreeX(shelves: Shelves, x: int) {
    && x >= 120 && (forall f :: f in shelves ==> shelves[f].x + shelves[f].columns * 250 + 400 <= x)
    && (x == 120 || exists f :: f in shelves && shelves[f].x + shelves[f].columns * 250 + 400 == x)
  }

  /**
   The families share what the teams' width leaves, 620 at least; a shelf has a column per full 250 of it, 2 to 12.
   */
  ghost predicate IsShare(columns: nat, right: int, families: nat)
    requires families > 0
  {
    var share := (right - 120 - 280 * (families - 1)) as real / families as real;
    var room := if share < 620.0 then 500.0 else share - 120.0;
    && 2 <= columns <= 12 && (columns < 12 ==> room < 250.0 * (columns + 1) as real)
    && (columns > 2 ==> 250.0 * columns as real <= room)
  }

  lemma {:induction false} ColumnsShare(right: int, families: nat)
    requires families > 0
    ensures IsShare(ShelfColumns(right, families), right, families)
  {
  }

  /** The first free x to the right of every shelf. */
  method FreeShelfX(shelves: Shelves) returns (x: int)
    ensures x >= LEFT && forall f :: f in shelves ==> ShelfEnd(shelves[f]) + GAP_X <= x
    ensures IsFreeX(shelves, x)
  {
    x := LEFT;
    var rest := shelves.Keys;
    while rest != {}
      invariant rest <= shelves.Keys && x >= LEFT
      invariant forall f :: f in shelves && f !in rest ==> ShelfEnd(shelves[f]) + GAP_X <= x
      invariant x == LEFT || exists f :: f in shelves && x == ShelfEnd(shelves[f]) + GAP_X
      decreases |rest|
    {
      var f :| f in rest;
      x := Max(x, ShelfEnd(shelves[f]) + GAP_X);
      rest := rest - {f};
    }
  }

  /** Open a family's shelf if it has none, and seat its members on it. */
  method ShelveFamily(f: Family, members: seq<Id>, right: int, families: nat, shelves: Shelves, seats: ShelfSeats)
    returns (shelves': Shelves, seats': ShelfSeats)
    requires families > 0 && Shelved(shelves, seats)
    ensures Shelved(shelves', seats') && ShelvesKept(shelves, shelves', seats, seats')
    ensures shelves'.Keys == shelves.Keys + {f} && seats'.Keys == seats.Keys + {f}
            && forall d :: d in members ==> d in seats'[f]
    ensures forall g :: g in seats && g != f ==> seats'[g] == seats[g]
    ensures ShelvesOne(f, members, right, families, shelves, seats, shelves', seats')
  {
    hide Numbered, Shelved, GivesSeats, IsFreeX, IsShare, OnlyAt, ShelvesOne;
    ShelvedKeys(shelves, seats);
    NumberedOn(shelves, seats);
    shelves', seats' := shelves, seats;
    if f !in shelves {
      var shelf := OpenShelf(f, right, families, shelves, seats);
      shelves', seats' := shelves[f := shelf], seats[f := map[]];
      EmptyNumbered();
    }
    var more := AssignSeats(seats'[f], members);
    MoreOnShelf(shelves', seats', f, more);
    assert forall a :: a in seats'[f] ==>
             a in more && more[a] == seats'[f][a] by { SeatsGiven(seats'[f], more, members); }
    assert forall a :: a in members ==> a in more by { SeatsGiven(seats'[f], more, members); }
    OneShelved(f, members, right, families, shelves, seats, shelves'[f], more);
    seats' := seats'[f := more];
    assert shelves' == shelves[f := shelves'[f]] && seats' == seats[f := more];
  }

  /** What shelving one family does: its members get seats, a shelf is opened if there was none, the rest stays. */
  ghost predicate ShelvesOne(f: Family, members: seq<Id>, right: int, families: nat, shelves: Shelves,
                             seats: ShelfSeats, shelves': Shelves, seats': ShelfSeats)
    requires families > 0
  {
    && OnlyAt(shelves, shelves', f) && OnlyAt(seats, seats', f)
    && (if f in shelves then shelves'[f] == shelves[f]
        else IsFreeX(shelves, shelves'[f].x) && IsShare(shelves'[f].columns, right, families))
    && GivesSeats(if f in seats then seats[f] else map[], seats'[f], members)
  }

  lemma {:induction false} OneShelved(f: Family, members: seq<Id>, right: int, families: nat, shelves: Shelves,
                                      seats: ShelfSeats, shelf: Shelf, more: map<Id, nat>)
    requires families > 0 && GivesSeats(if f in seats then seats[f] else map[], more, members)
    requires if f in shelves then shelf == shelves[f]
             else IsFreeX(shelves, shelf.x) && IsShare(shelf.columns, right, families)
    ensures ShelvesOne(f, members, right, families, shelves, seats, shelves[f := shelf], seats[f := more])
  {
    hide GivesSeats, IsFreeX, IsShare, OnlyAt;
    OnlySet(shelves, f, shelf);
    OnlySet(seats, f, more);
  }

  lemma {:induction false} MoreOnShelf(shelves: Shelves, seats: ShelfSeats, f: Family, more: map<Id, nat>)
    requires Shelved(shelves, seats) && f in shelves && Numbered(more)
    ensures Shelved(shelves, seats[f := more])
  {
    hide ShelvesApart;
  }

  method OpenShelf(f: Family, right: int, families: nat, shelves: Shelves, seats: ShelfSeats) returns (shelf: Shelf)
    requires families > 0 && Shelved(shelves, seats) && f !in shelves
    ensures Shelved(shelves[f := shelf], seats[f := map[]])
    ensures IsFreeX(shelves, shelf.x) && IsShare(shelf.columns, right, families)
  {
    hide Numbered, ShelfEnd, ShelfColumns, IsFreeX, IsShare;
    var x := FreeShelfX(shelves);
    shelf := Shelf(x, ShelfColumns(right, families));
    ColumnsShare(right, families);
    var shelves' := shelves[f := shelf];
    EmptyNumbered();
    forall g, h | g in shelves' && h in shelves' && g != h
      ensures ShelvesApart(shelves'[g], shelves'[h])
    {
      if g != f && h != f {
        assert ShelvesApart(shelves[g], shelves[h]);
      }
    }
  }

  lemma {:induction false} NumberedOn(shelves: Shelves, seats: ShelfSeats)
    requires Shelved(shelves, seats)
    ensures forall f :: f in seats ==> Numbered(seats[f])
  {
  }

  lemma {:induction false} EmptyNumbered()
    ensures Numbered(map[])
  {
  }

  function ShelfSpot(c: Shelf, top: int, slot: nat): Spot
    requires c.columns > 0
  {
    Spot(c.x + 125 + slot % c.columns * CELL, top + 160 + slot / c.columns * STEP)
  }

  function AreaOf(f: Family, c: Shelf, top: int, count: nat): Area
    requires c.columns > 0
  {
    Area(f, c.x, top, c.columns * CELL + SHELF_MARGIN, CeilDiv(count, c.columns) * STEP + 100)
  }

  predicate InArea(a: Area, p: Spot) {
    a.x < p.x < a.x + a.width && a.y < p.y < a.y + a.height
  }

  /** A seated destination lies inside its family's area. */
  lemma {:induction false} DestinationInside(f: Family, c: Shelf, top: int, count: nat, slot: nat)
    requires c.columns > 0 && slot < count
    ensures InArea(AreaOf(f, c, top, count), ShelfSpot(c, top, slot))
  {
    RowBound(slot, count, c.columns);
    Scale(slot / c.columns + 1, CeilDiv(count, c.columns), STEP);
    assert slot % c.columns + 1 <= c.columns;
    Scale(slot % c.columns + 1, c.columns, CELL);
  }

  ghost predicate AtShelf(points: map<Id, Spot>, shelves: Shelves, seats: ShelfSeats, top: int, f: Family, d: Id) {
    && f in shelves && shelves[f].columns > 0 && f in seats && d in seats[f]
    && d in points && points[d] == ShelfSpot(shelves[f], top, seats[f][d])
  }

  method PlaceFamily(f: Family, members: seq<Id>, shelves: Shelves, seats: ShelfSeats, top: int, points: map<Id, Spot>)
    returns (more: map<Id, Spot>)
    requires Shelved(shelves, seats) && f in shelves && forall d :: d in members ==> d in seats[f]
    ensures forall d :: d in members ==> AtShelf(more, shelves, seats, top, f, d)
    ensures forall d :: d !in members ==> (d in more <==> d in points) && (d in points ==> more[d] == points[d])
  {
    hide ShelfSpot, Numbered, ShelvesApart;
    more := points;
    for k := 0 to |members|
      invariant forall d :: d in members[..k] ==> AtShelf(more, shelves, seats, top, f, d)
      invariant forall d :: d !in members ==> (d in more <==> d in points) && (d in points ==> more[d] == points[d])
    {
      var d := members[k];
      assert d in seats[f];
      more := more[d := ShelfSpot(shelves[f], top, seats[f][d])];
      assert members[..k + 1] == members[..k] + [d];
    }
    assert members[..|members|] == members;
  }

  /** Open the shelves this build needs, in the order of the families. */
  method ShelveAll(destinations: seq<Destination>, right: int, shelves: Shelves, seats: ShelfSeats)
    returns (shelves': Shelves, seats': ShelfSeats)
    requires Shelved(shelves, seats)
    ensures Shelved(shelves', seats') && ShelvesKept(shelves, shelves', seats, seats')
    ensures forall f :: MembersOf(destinations, f) != [] ==> f in shelves'
    ensures forall f :: forall d :: d in MembersOf(destinations, f) ==> f in seats' && d in seats'[f]
    ensures ShelvesAll(destinations, right, shelves, seats, shelves', seats')
  {
    hide Shelved, ShelvesKept, MembersOf, ShelvesOne, OnlyAt;
    var families := FamiliesOf(destinations);
    shelves', seats' := shelves, seats;
    ShelvesKeptAtFirst(shelves, seats);
    var mcp, tools := MembersOf(destinations, Mcp), MembersOf(destinations, Tools);
    if mcp != [] {
      shelves', seats' := ShelveFamily(Mcp, mcp, right, |families|, shelves', seats');
    }
    ghost var midway, sat := shelves', seats';
    if tools != [] {
      shelves', seats' := ShelveFamily(Tools, tools, right, |families|, shelves', seats');
      ShelvesKeptTwice(shelves, midway, shelves', seats, sat, seats');
    }
    assert ShelvesNext(Mcp, destinations, right, shelves, seats, midway, sat);
    assert ShelvesNext(Tools, destinations, right, midway, sat, shelves', seats');
    ShelvedKeys(shelves', seats');
    forall f: Family
      ensures MembersOf(destinations, f) != [] ==> f in shelves'
      ensures forall d :: d in MembersOf(destinations, f) ==> f in seats' && d in seats'[f]
    {
      match f
      case Mcp =>
      case Tools =>
    }
  }

  /** A family without destinations changes nothing. */
  ghost predicate ShelvesNext(f: Family, destinations: seq<Destination>, right: int, shelves: Shelves,
                              seats: ShelfSeats, shelves': Shelves, seats': ShelfSeats) {
    if MembersOf(destinations, f) == [] then shelves' == shelves && seats' == seats
    else
      var n := if MembersOf(destinations, Mcp) == [] || MembersOf(destinations, Tools) == [] then 1 else 2;
      ShelvesOne(f, MembersOf(destinations, f), right, n, shelves, seats, shelves', seats')
  }

  /** Connectors first, then tools. */
  ghost predicate ShelvesAll(destinations: seq<Destination>, right: int, shelves: Shelves, seats: ShelfSeats,
                             shelves': Shelves, seats': ShelfSeats) {
    exists midway: Shelves, sat: ShelfSeats ::
      && ShelvesNext(Mcp, destinations, right, shelves, seats, midway, sat)
      && ShelvesNext(Tools, destinations, right, midway, sat, shelves', seats')
  }

  lemma {:induction false} ShelvesKeptAtFirst(shelves: Shelves, seats: ShelfSeats)
    ensures ShelvesKept(shelves, shelves, seats, seats)
  {
  }

  lemma {:induction false} ShelvesKeptTwice(a: Shelves, b: Shelves, c: Shelves, x: ShelfSeats, y: ShelfSeats,
                                            z: ShelfSeats)
    requires ShelvesKept(a, b, x, y) && ShelvesKept(b, c, y, z)
    ensures ShelvesKept(a, c, x, z)
  {
  }

  lemma {:induction false} ShelvedKeys(shelves: Shelves, seats: ShelfSeats)
    requires Shelved(shelves, seats)
    ensures shelves.Keys == seats.Keys
  {
  }

  /** Put every destination on its family's shelf; a name in both families shows with the tools. */
  method PlaceAll(destinations: seq<Destination>, shelves: Shelves, seats: ShelfSeats, top: int, points: map<Id, Spot>)
    returns (more: map<Id, Spot>, areas: seq<Area>)
    requires Shelved(shelves, seats)
    requires forall f :: MembersOf(destinations, f) != [] ==> f in shelves
    requires forall f :: forall d :: d in MembersOf(destinations, f) ==> f in seats && d in seats[f]
    ensures forall d :: d in MembersOf(destinations, Tools) ==> AtShelf(more, shelves, seats, top, Tools, d)
    ensures forall d :: d in MembersOf(destinations, Mcp) && d !in MembersOf(destinations, Tools) ==>
              AtShelf(more, shelves, seats, top, Mcp, d)
    ensures forall d :: d in points && d !in MembersOf(destinations, Mcp) && d !in MembersOf(destinations, Tools) ==>
              d in more && more[d] == points[d]
    ensures |areas| == |FamiliesOf(destinations)|
    ensures forall k :: 0 <= k < |areas| ==> IsArea(areas[k], FamiliesOf(destinations)[k], shelves, seats, top)
  {
    hide Shelved, MembersOf, ShelfSpot;
    ShelvedKeys(shelves, seats);
    ShelvedColumns(shelves, seats);
    more, areas := points, [];
    var mcp, tools := MembersOf(destinations, Mcp), MembersOf(destinations, Tools);
    if mcp != [] {
      more := PlaceFamily(Mcp, mcp, shelves, seats, top, more);
      areas := areas + [AreaOf(Mcp, shelves[Mcp], top, |seats[Mcp]|)];
    }
    if tools != [] {
      more := PlaceFamily(Tools, tools, shelves, seats, top, more);
      areas := areas + [AreaOf(Tools, shelves[Tools], top, |seats[Tools]|)];
    }
  }

  lemma {:induction false} ShelvedColumns(shelves: Shelves, seats: ShelfSeats)
    requires Shelved(shelves, seats)
    ensures forall f :: f in shelves ==> shelves[f].columns > 0
  {
  }

  ghost predicate IsArea(a: Area, f: Family, shelves: Shelves, seats: ShelfSeats, top: int) {
    f in shelves && shelves[f].columns > 0 && f in seats && a == AreaOf(f, shelves[f], top, |seats[f]|)
  }

  /** The right and bottom edges of the teams shown, at least the smallest canvas. */
  method Extent(ordered: seq<Bucket>, groups: Groups) returns (right: int, bottom: int)
    requires forall i :: 0 <= i < |ordered| ==> ordered[i].id in groups
    ensures forall i :: 0 <= i < |ordered| ==> Within(groups[ordered[i].id], right, bottom)
    ensures IsRight(ordered, groups, right) && IsBottom(ordered, groups, bottom)
  {
    right, bottom := 900, 750;
    for i := 0 to |ordered|
      invariant right >= 900 && bottom >= 750
      invariant forall k :: 0 <= k < i ==> Within(groups[ordered[k].id], right, bottom)
      invariant bottom == 750 || exists k :: 0 <= k < i && BottomOf(groups[ordered[k].id]) == bottom
      invariant right == 900 || exists k :: 0 <= k < i && RightOf(groups[ordered[k].id]) == right
    {
      var g := groups[ordered[i].id];
      right, bottom := Max(right, g.x + g.width), Max(bottom, g.y + g.height);
    }
  }

  function RightOf(g: Box): int { g.x + g.width }
  function BottomOf(g: Box): int { g.y + g.height }

  /** The right edge of the teams shown, 900 at least. */
  ghost predicate IsRight(ordered: seq<Bucket>, groups: Groups, right: int)
    requires HasBoxes(ordered, groups)
  {
    && right >= 900 && (forall i :: 0 <= i < |ordered| ==> RightOf(groups[ordered[i].id]) <= right)
    && (right == 900 || exists i :: 0 <= i < |ordered| && RightOf(groups[ordered[i].id]) == right)
  }

  /** The bottom edge of the teams shown, 750 at least. */
  ghost predicate IsBottom(ordered: seq<Bucket>, groups: Groups, bottom: int)
    requires HasBoxes(ordered, groups)
  {
    && bottom >= 750 && (forall i :: 0 <= i < |ordered| ==> BottomOf(groups[ordered[i].id]) <= bottom)
    && (bottom == 750 || exists i :: 0 <= i < |ordered| && BottomOf(groups[ordered[i].id]) == bottom)
  }

  predicate Within(g: Box, right: int, bottom: int) { g.x + g.width <= right && g.y + g.height <= bottom }

  // ---------------------------------------------------------------- sequences of builds

  /** Everything the layout remembers between builds. */
  datatype Geography = Geography(columns: seq<Column>, groups: Groups, slots: Seats, shelves: Shelves,
                                 seats: ShelfSeats, top: int)

  ghost predicate Sound(g: Geography) {
    Settled(g.columns, g.groups, g.slots) && Shelved(g.shelves, g.seats)
  }

  /** What a build may not change: seats, columns, widths and shelves stay; boxes and shelves only move down. */
  ghost predicate Keeps(a: Geography, b: Geography) {
    && (a.columns != [] ==> b.columns == a.columns)
    && Stable(a.groups, b.groups) && SeatsKept(a.slots, b.slots)
    && ShelvesKept(a.shelves, b.shelves, a.seats, b.seats) && a.top <= b.top
  }

  /** One build, as seen between builds. */
  ghost predicate BuildStep(a: Geography, b: Geography) {
    Sound(b) && Keeps(a, b) && CalmStay(a.groups, b.groups)
  }

  lemma {:induction false} KeepsTwice(a: Geography, b: Geography, c: Geography)
    requires Keeps(a, b) && Keeps(b, c)
    ensures Keeps(a, c)
  {
    KeptTwice(a.slots, b.slots, c.slots);
    hide SeatsKept;
    forall id | id in a.groups
      ensures Steady(a.groups[id], c.groups[id])
    {
      assert Steady(a.groups[id], b.groups[id]) && Steady(b.groups[id], c.groups[id]);
    }
  }

  /** Geography is stable over every sequence of builds: from any moment to any later one. */
  lemma {:induction false} GeographyIsStable(states: seq<Geography>, i: nat, j: nat)
    requires i <= j < |states| && Sound(states[i])
    requires forall k :: 0 <= k < |states| - 1 ==> BuildStep(states[k], states[k + 1])
    ensures Sound(states[j]) && Keeps(states[i], states[j])
    decreases j
  {
    hide Sound, ShelvesKept, SeatsKept;
    if i < j {
      GeographyIsStable(states, i, j - 1);
      assert BuildStep(states[j - 1], states[j - 1 + 1]);
      KeepsTwice(states[i], states[j - 1], states[j]);
    } else {
      KeepsItself(states[i]);
    }
  }

  lemma {:induction false} KeepsItself(a: Geography)
    ensures Keeps(a, a)
  {
  }

  // ---------------------------------------------------------------- what a build shows

  ghost predicate Named(destinations: seq<Destination>, d: Id) {
    d in MembersOf(destinations, Mcp) || d in MembersOf(destinations, Tools)
  }

  /** A member whose name no destination takes. */
  ghost predicate Shows(ordered: seq<Bucket>, destinations: seq<Destination>, i: int, a: Id) {
    0 <= i < |ordered| && a in ordered[i].members && !Named(destinations, a)
  }

  /** Every such member stands at its seat in its team's box. */
  ghost predicate Seating(g: Geography, ordered: seq<Bucket>, destinations: seq<Destination>, points: map<Id, Spot>) {
    forall i, a :: Shows(ordered, destinations, i, a) ==> AtSeat(points, g.groups, g.slots, ordered[i].id, a)
  }

  /** Placed agents are inside their boxes and a step apart from each other. */
  ghost predicate WellSeated(g: Geography, ordered: seq<Bucket>, destinations: seq<Destination>,
                             points: map<Id, Spot>) {
    && (forall i, a :: Shows(ordered, destinations, i, a) ==> InHome(g, ordered[i].id, points, a))
    && (forall i, a, j, b :: Shows(ordered, destinations, i, a) && Shows(ordered, destinations, j, b) && a != b ==>
          Spaced(points, a, b))
  }

  ghost predicate InHome(g: Geography, id: Id, points: map<Id, Spot>, a: Id) {
    id in g.groups && a in points && Inside(g.groups[id], points[a])
  }

  ghost predicate Spaced(points: map<Id, Spot>, a: Id, b: Id) {
    a in points && b in points && FarApart(points[a], points[b])
  }

  /** Destinations stand on their shelves, one area per family shown. */
  ghost predicate Shelving(g: Geography, destinations: seq<Destination>, points: map<Id, Spot>, areas: seq<Area>) {
    && (forall d :: d in MembersOf(destinations, Tools) ==> AtShelf(points, g.shelves, g.seats, g.top, Tools, d))
    && (forall d :: d in MembersOf(destinations, Mcp) && d !in MembersOf(destinations, Tools) ==>
          AtShelf(points, g.shelves, g.seats, g.top, Mcp, d))
    && |areas| == |FamiliesOf(destinations)|
    && (forall k :: 0 <= k < |areas| ==> IsArea(areas[k], FamiliesOf(destinations)[k], g.shelves, g.seats, g.top))
  }

  /** Areas are apart from each other and well below every team shown. */
  ghost predicate WellShelved(g: Geography, ordered: seq<Bucket>, areas: seq<Area>) {
    && (forall j, k :: 0 <= j < k < |areas| ==>
          areas[j].x + areas[j].width + GAP_X <= areas[k].x || areas[k].x + areas[k].width + GAP_X <= areas[j].x)
    && (forall k, i :: 0 <= k < |areas| && 0 <= i < |ordered| ==>
          ordered[i].id in g.groups && g.groups[ordered[i].id].y + g.groups[ordered[i].id].height
          + SHELF_GAP <= areas[k].y)
  }

  lemma {:induction false} ReadyToPlace(columns: seq<Column>, groups: Groups, slots: Seats, ordered: seq<Bucket>)
    requires Settled(columns, groups, slots) && BucketIds(ordered) <= groups.Keys
    ensures forall i :: 0 <= i < |ordered| ==> ordered[i].id in groups && groups[ordered[i].id].columns > 0
  {
    hide BucketIds, AllClear;
    forall i | 0 <= i < |ordered|
      ensures ordered[i].id in groups && groups[ordered[i].id].columns > 0
    {
      BucketHasId(ordered, i);
      assert Housed(columns, groups, slots, ordered[i].id);
    }
  }

  lemma {:induction false} SeatingShown(g: Geography, ordered: seq<Bucket>, destinations: seq<Destination>,
                                        agents: map<Id, Spot>, points: map<Id, Spot>)
    requires forall i, a :: 0 <= i < |ordered| && a in ordered[i].members ==>
               AtSeat(agents, g.groups, g.slots, ordered[i].id, a)
    requires forall a :: a in agents && !Named(destinations, a) ==> a in points && points[a] == agents[a]
    ensures Seating(g, ordered, destinations, points)
  {
    hide Named;
    forall i, a | Shows(ordered, destinations, i, a)
      ensures AtSeat(points, g.groups, g.slots, ordered[i].id, a)
    {
      SameSeat(agents, points, g.groups, g.slots, ordered[i].id, a);
    }
  }

  lemma {:induction false} SeatingIsGood(g: Geography, ordered: seq<Bucket>, destinations: seq<Destination>,
                                         points: map<Id, Spot>)
    requires Settled(g.columns, g.groups, g.slots) && Seating(g, ordered, destinations, points)
    ensures WellSeated(g, ordered, destinations, points)
  {
    hide Settled, Named, FarApart, Inside;
    forall i, a | Shows(ordered, destinations, i, a)
      ensures InHome(g, ordered[i].id, points, a)
    {
      AgentInside(points, g.columns, g.groups, g.slots, ordered[i].id, a);
    }
    forall i, a, j, b | Shows(ordered, destinations, i, a) && Shows(ordered, destinations, j, b) && a != b
      ensures Spaced(points, a, b)
    {
      AgentsApart(points, g.columns, g.groups, g.slots, ordered[i].id, a, ordered[j].id, b);
    }
  }

  lemma {:induction false} ShelvingIsGood(g: Geography, ordered: seq<Bucket>, destinations: seq<Destination>,
                                          points: map<Id, Spot>, areas: seq<Area>, right: int, bottom: int)
    requires Shelved(g.shelves, g.seats) && Shelving(g, destinations, points, areas) && bottom + SHELF_GAP <= g.top
    requires forall i :: 0 <= i < |ordered| ==>
               ordered[i].id in g.groups && Within(g.groups[ordered[i].id], right, bottom)
    ensures WellShelved(g, ordered, areas)
  {
    hide MembersOf, Numbered, AtShelf;
    var families := FamiliesOf(destinations);
    forall j, k | 0 <= j < k < |areas|
      ensures areas[j].x + areas[j].width + GAP_X <= areas[k].x || areas[k].x + areas[k].width + GAP_X <= areas[j].x
    {
      assert IsArea(areas[j], families[j], g.shelves, g.seats, g.top)
             && IsArea(areas[k], families[k], g.shelves, g.seats, g.top);
      assert ShelvesApart(g.shelves[families[j]], g.shelves[families[k]]);
    }
    forall k, i | 0 <= k < |areas| && 0 <= i < |ordered|
      ensures g.groups[ordered[i].id].y + g.groups[ordered[i].id].height + SHELF_GAP <= areas[k].y
    {
      assert IsArea(areas[k], families[k], g.shelves, g.seats, g.top);
      assert Within(g.groups[ordered[i].id], right, bottom);
    }
  }

  /** A destination on its shelf lies inside the area drawn for its family. */
  lemma {:induction false} ShelfInArea(g: Geography, points: map<Id, Spot>, f: Family, d: Id, area: Area)
    requires Shelved(g.shelves, g.seats) && AtShelf(points, g.shelves, g.seats, g.top, f, d)
    requires IsArea(area, f, g.shelves, g.seats, g.top)
    ensures InArea(area, points[d])
  {
    DestinationInside(f, g.shelves[f], g.top, |g.seats[f]|, g.seats[f][d]);
  }

  // ---------------------------------------------------------------- what a build comes to

  /** One build: the teams made, the shelves opened for their width, and the areas below their bottom. */
  ghost predicate Builds(aspect: real, a: Geography, b: Geography, ordered: seq<Bucket>,
                         destinations: seq<Destination>) {
    && TeamsMade(ordered, aspect, a.columns, a.groups, a.slots, b.columns, b.groups, b.slots)
    && HasBoxes(ordered, b.groups) && TopFollows(a, b, ordered)
    && (forall i :: 0 <= i < |ordered| ==> Known(ordered[i], b.groups, b.slots))
    && exists right :: IsRight(ordered, b.groups, right)
         && ShelvesAll(destinations, right, a.shelves, a.seats, b.shelves, b.seats)
  }

  /**
   Boxes known before are exactly as tall as the seats need or as they were; seats, new boxes and places are exact.
   */
  ghost predicate TeamsGrow(aspect: real, a: Geography, b: Geography, ordered: seq<Bucket>) {
    TeamsExact(ordered, aspect, a.columns, a.groups, a.slots, b.columns, b.groups, b.slots)
  }

  /** The areas begin 300 below the teams shown, and never higher than before. */
  ghost predicate TopFollows(a: Geography, b: Geography, ordered: seq<Bucket>) {
    && HasBoxes(ordered, b.groups)
    && exists bottom :: IsBottom(ordered, b.groups, bottom)
         && b.top == if a.top < bottom + 300 then bottom + 300 else a.top
  }

  lemma {:induction false} BuiltAs(aspect: real, a: Geography, b: Geography, ordered: seq<Bucket>,
                                   destinations: seq<Destination>, right: int, bottom: int)
    requires WellBucketed(ordered) && Sound(a) && HasBoxes(ordered, b.groups)
    requires TeamsMade(ordered, aspect, a.columns, a.groups, a.slots, b.columns, b.groups, b.slots)
    requires forall i, m :: 0 <= i < |ordered| && m in ordered[i].members ==> Seated(b.slots, ordered[i].id, m)
    requires Settled(b.columns, b.groups, b.slots)
    requires IsRight(ordered, b.groups, right) && IsBottom(ordered, b.groups, bottom)
    requires b.top == if a.top < bottom + 300 then bottom + 300 else a.top
    requires ShelvesAll(destinations, right, a.shelves, a.seats, b.shelves, b.seats)
    ensures Builds(aspect, a, b, ordered, destinations) && TeamsGrow(aspect, a, b, ordered) && TopFollows(a, b, ordered)
  {
    hide TeamsMade, ShelvesAll, TeamsExact, WellBucketed, Laid, AllClear, IsRight, IsBottom;
    TeamsAreExact(ordered, aspect, a.columns, a.groups, a.slots, b.columns, b.groups, b.slots);
    forall i | 0 <= i < |ordered|
      ensures Known(ordered[i], b.groups, b.slots)
    {
      assert ordered[i].id in b.groups;
      assert forall m :: m in ordered[i].members ==> Seated(b.slots, ordered[i].id, m);
    }
  }

  /** Everybody shown has a seat, and every destination a place on an open shelf. */
  ghost predicate AllKnown(g: Geography, ordered: seq<Bucket>, destinations: seq<Destination>) {
    && (forall i :: 0 <= i < |ordered| ==> Known(ordered[i], g.groups, g.slots))
    && forall f :: MembersOf(destinations, f) != [] ==> OnShelf(g, f, MembersOf(destinations, f))
  }

  /** The family has a shelf with a seat for each of these. */
  ghost predicate OnShelf(g: Geography, f: Family, members: seq<Id>) {
    f in g.shelves && f in g.seats && forall d :: d in members ==> d in g.seats[f]
  }

  lemma {:induction false} KnownShelfStays(f: Family, members: seq<Id>, right: int, families: nat, g: Geography,
                                           shelves': Shelves, seats': ShelfSeats)
    requires families > 0 && OnShelf(g, f, members)
    requires ShelvesOne(f, members, right, families, g.shelves, g.seats, shelves', seats')
    ensures shelves' == g.shelves && seats' == g.seats
  {
    hide GivesSeats, IsFreeX, IsShare;
    SeatsAlreadyGiven(g.seats[f], seats'[f], members);
    assert shelves'.Keys == g.shelves.Keys && seats'.Keys == g.seats.Keys;
  }

  lemma {:induction false} KnownShelvesStay(destinations: seq<Destination>, right: int, g: Geography,
                                            shelves': Shelves, seats': ShelfSeats)
    requires forall f :: MembersOf(destinations, f) != [] ==> OnShelf(g, f, MembersOf(destinations, f))
    requires ShelvesAll(destinations, right, g.shelves, g.seats, shelves', seats')
    ensures shelves' == g.shelves && seats' == g.seats
  {
    hide MembersOf, ShelvesOne, OnShelf;
    var midway: Shelves, sat: ShelfSeats :|
      && ShelvesNext(Mcp, destinations, right, g.shelves, g.seats, midway, sat)
      && ShelvesNext(Tools, destinations, right, midway, sat, shelves', seats');
    var mcp, tools := MembersOf(destinations, Mcp), MembersOf(destinations, Tools);
    var n := if mcp == [] || tools == [] then 1 else 2;
    if mcp != [] {
      KnownShelfStays(Mcp, mcp, right, n, g, midway, sat);
    }
    if tools != [] {
      KnownShelfStays(Tools, tools, right, n, g, shelves', seats');
    }
  }

  /** A build that shows only known agents and destinations moves nothing but, downwards, the areas. */
  lemma {:induction false} KnownBuildStays(aspect: real, a: Geography, b: Geography, ordered: seq<Bucket>,
                                           destinations: seq<Destination>)
    requires Sound(a) && AllKnown(a, ordered, destinations) && Builds(aspect, a, b, ordered, destinations)
    ensures b == a.(top := b.top)
  {
    hide TeamsMade, ShelvesAll, Known, Settled, IsRight, MembersOf, OnShelf, HasBoxes;
    KnownTeamsStay(ordered, aspect, a.columns, a.groups, a.slots, b.columns, b.groups, b.slots);
    var right :| IsRight(ordered, b.groups, right)
      && ShelvesAll(destinations, right, a.shelves, a.seats, b.shelves, b.seats);
    KnownShelvesStay(destinations, right, a, b.shelves, b.seats);
  }

  /** What a build has shown is known after it. */
  lemma {:induction false} ShownIsKnown(aspect: real, a: Geography, b: Geography, ordered: seq<Bucket>,
                                        destinations: seq<Destination>)
    requires Builds(aspect, a, b, ordered, destinations)
    ensures AllKnown(b, ordered, destinations)
  {
    hide TeamsMade, MembersOf, Known, IsRight, HasBoxes, ShelvesAll, OnShelf;
    var right :| IsRight(ordered, b.groups, right)
      && ShelvesAll(destinations, right, a.shelves, a.seats, b.shelves, b.seats);
    ShelvesAreKnown(destinations, right, a, b);
  }

  lemma {:induction false} ShelvesAreKnown(destinations: seq<Destination>, right: int, a: Geography, b: Geography)
    requires ShelvesAll(destinations, right, a.shelves, a.seats, b.shelves, b.seats)
    ensures forall f :: MembersOf(destinations, f) != [] ==> OnShelf(b, f, MembersOf(destinations, f))
  {
    hide MembersOf, ShelvesOne, OnShelf;
    var midway: Shelves, sat: ShelfSeats :|
      && ShelvesNext(Mcp, destinations, right, a.shelves, a.seats, midway, sat)
      && ShelvesNext(Tools, destinations, right, midway, sat, b.shelves, b.seats);
    var mcp, tools := MembersOf(destinations, Mcp), MembersOf(destinations, Tools);
    var n := if mcp == [] || tools == [] then 1 else 2;
    var halfway := b.(shelves := midway, seats := sat);
    if mcp != [] {
      ShelfIsKnown(Mcp, mcp, right, n, a.shelves, a.seats, halfway);
      assert OnShelf(halfway, Mcp, mcp);
    }
    if tools != [] {
      ShelfIsKnown(Tools, tools, right, n, midway, sat, b);
      if mcp != [] {
        OtherShelfStays(Mcp, mcp, Tools, tools, right, n, halfway, b);
      }
    } else {
      assert halfway == b;
    }
    forall f | MembersOf(destinations, f) != []
      ensures OnShelf(b, f, MembersOf(destinations, f))
    {
      match f
      case Mcp =>
      case Tools =>
    }
  }

  lemma {:induction false} ShelfIsKnown(f: Family, members: seq<Id>, right: int, families: nat, shelves: Shelves,
                                        seats: ShelfSeats, g: Geography)
    requires families > 0 && ShelvesOne(f, members, right, families, shelves, seats, g.shelves, g.seats)
    ensures OnShelf(g, f, members)
  {
    hide IsFreeX, IsShare;
  }

  lemma {:induction false} OtherShelfStays(f: Family, members: seq<Id>, h: Family, others: seq<Id>, right: int,
                                           families: nat, g: Geography, g': Geography)
    requires families > 0 && ShelvesOne(h, others, right, families, g.shelves, g.seats, g'.shelves, g'.seats)
    requires OnShelf(g, f, members) && f != h
    ensures OnShelf(g', f, members)
  {
    hide IsFreeX, IsShare, GivesSeats;
  }

  /** Building again with the same buckets and destinations changes nothing at all. */
  lemma {:induction false} SameBuildStays(aspect: real, a: Geography, b: Geography, c: Geography, ordered: seq<Bucket>,
                                          destinations: seq<Destination>)
    requires Sound(b) && Builds(aspect, a, b, ordered, destinations) && Builds(aspect, b, c, ordered, destinations)
    ensures c == b
  {
    ShownIsKnown(aspect, a, b, ordered, destinations);
    KnownBuildStays(aspect, b, c, ordered, destinations);
    hide TeamsMade, ShelvesAll, Known, Sound, AllKnown;
    OneBottom(ordered, b.groups);
  }

  lemma {:induction false} OneBottom(ordered: seq<Bucket>, groups: Groups)
    requires HasBoxes(ordered, groups)
    ensures forall y, z :: IsBottom(ordered, groups, y) && IsBottom(ordered, groups, z) ==> y == z
  {
  }

  // ---------------------------------------------------------------- from agents and teams

  /** A record that counts and whose id no destination takes. */
  ghost predicate Drawn(agents: seq<Agent>, destinations: seq<Destination>, k: int) {
    IsLast(agents, k) && !Named(destinations, agents[k].id)
  }

  /** Every agent stands at its seat inside its home team's box, a step from any other. */
  ghost predicate AgentsSeated(g: Geography, agents: seq<Agent>, destinations: seq<Destination>,
                               points: map<Id, Spot>) {
    && (forall k :: Drawn(agents, destinations, k) ==>
          && AtSeat(points, g.groups, g.slots, agents[k].home, agents[k].id)
          && InHome(g, agents[k].home, points, agents[k].id))
    && (forall j, k :: Drawn(agents, destinations, j) && Drawn(agents, destinations, k) ==>
          agents[j].id == agents[k].id || Spaced(points, agents[j].id, agents[k].id))
  }

  /** The team's box ends well above the area. */
  ghost predicate IsAbove(g: Geography, home: Id, area: Area) {
    home in g.groups && g.groups[home].y + g.groups[home].height + SHELF_GAP <= area.y
  }

  /** Every area is well below every agent's home team. */
  ghost predicate AreasBelow(g: Geography, agents: seq<Agent>, areas: seq<Area>) {
    forall k, j :: IsLast(agents, k) && 0 <= j < |areas| ==> IsAbove(g, agents[k].home, areas[j])
  }

  /** Some agent that counts has this id and this home. */
  ghost predicate AtHome(agents: seq<Agent>, home: Id, a: Id) {
    exists k :: IsLast(agents, k) && agents[k].home == home && agents[k].id == a
  }

  /** The bottom edge of the agents' homes, 750 at least. */
  ghost predicate IsHomesBottom(g: Geography, agents: seq<Agent>, bottom: int) {
    && bottom >= 750
    && (forall k :: IsLast(agents, k) ==> agents[k].home in g.groups && BottomOf(g.groups[agents[k].home]) <= bottom)
    && (bottom == 750 || exists k :: IsLast(agents, k) && agents[k].home in g.groups
                           && BottomOf(g.groups[agents[k].home]) == bottom)
  }

  /** Boxes known before grow exactly as their seats need, exactly the agents gain seats, and the areas follow. */
  ghost predicate AgentsGrow(a: Geography, b: Geography, agents: seq<Agent>) {
    && (forall id :: id in a.groups ==>
          id in b.groups && TallAs(a.groups[id], b.groups[id], |SeatsOf(b.slots, id)|))
    && (forall id, m :: Seated(b.slots, id, m) <==> Seated(a.slots, id, m) || AtHome(agents, id, m))
    && exists bottom :: IsHomesBottom(b, agents, bottom)
         && b.top == if a.top < bottom + 300 then bottom + 300 else a.top
  }

  /** The buckets hold the records that count, whatever list they were filled from. */
  ghost predicate Sorts(agents: seq<Agent>, sorted: seq<Agent>, buckets: seq<Bucket>) {
    Holds(sorted, |sorted|, buckets) && (forall a :: a in sorted <==> Counts(agents, a)) && NoneTwice(sorted)
  }

  ghost predicate NoneTwice(sorted: seq<Agent>) {
    forall i, j :: 0 <= i < j < |sorted| ==> sorted[i].id != sorted[j].id
  }

  lemma {:induction false} BucketOf(agents: seq<Agent>, sorted: seq<Agent>, buckets: seq<Bucket>, k: nat)
    returns (i: nat)
    requires Sorts(agents, sorted, buckets) && IsLast(agents, k)
    ensures i < |buckets| && buckets[i].id == agents[k].home && agents[k].id in buckets[i].members
  {
    hide WellBucketed, Belongs;
    assert Counts(agents, agents[k]);
    var j :| 0 <= j < |sorted| && sorted[j] == agents[k];
    assert IsLast(sorted, j) && InBucket(buckets, sorted[j]);
    i :| 0 <= i < |buckets| && buckets[i].id == agents[k].home && agents[k].id in buckets[i].members;
  }

  lemma {:induction false} BucketsSeatAgents(g: Geography, agents: seq<Agent>, sorted: seq<Agent>, buckets: seq<Bucket>,
                                             destinations: seq<Destination>, points: map<Id, Spot>)
    requires Sorts(agents, sorted, buckets)
    requires Seating(g, buckets, destinations, points) && WellSeated(g, buckets, destinations, points)
    ensures AgentsSeated(g, agents, destinations, points)
  {
    hide Sorts, AtSeat, InHome, Spaced, Named;
    forall k | Drawn(agents, destinations, k)
      ensures AtSeat(points, g.groups, g.slots, agents[k].home, agents[k].id)
      ensures InHome(g, agents[k].home, points, agents[k].id)
    {
      var i := BucketOf(agents, sorted, buckets, k);
      assert Shows(buckets, destinations, i, agents[k].id);
    }
    forall j, k | Drawn(agents, destinations, j) && Drawn(agents, destinations, k) && agents[j].id != agents[k].id
      ensures Spaced(points, agents[j].id, agents[k].id)
    {
      var a := BucketOf(agents, sorted, buckets, j);
      var b := BucketOf(agents, sorted, buckets, k);
      assert Shows(buckets, destinations, a, agents[j].id) && Shows(buckets, destinations, b, agents[k].id);
    }
  }

  lemma {:induction false} ListedAtHome(agents: seq<Agent>, sorted: seq<Agent>, buckets: seq<Bucket>, id: Id, m: Id)
    requires Sorts(agents, sorted, buckets)
    ensures Listed(buckets, id, m) <==> AtHome(agents, id, m)
  {
    hide WellBucketed;
    if Listed(buckets, id, m) {
      var i :| 0 <= i < |buckets| && buckets[i].id == id && m in buckets[i].members;
      AgentOf(agents, sorted, buckets, i, m);
    }
    if AtHome(agents, id, m) {
      var k :| IsLast(agents, k) && agents[k].home == id && agents[k].id == m;
      var i := BucketOf(agents, sorted, buckets, k);
    }
  }

  lemma {:induction false} AgentOf(agents: seq<Agent>, sorted: seq<Agent>, buckets: seq<Bucket>, i: nat, m: Id)
    requires Sorts(agents, sorted, buckets) && i < |buckets| && m in buckets[i].members
    ensures AtHome(agents, buckets[i].id, m)
  {
    hide WellBucketed, InBucket;
    assert Belongs(sorted, |sorted|, buckets[i].id, m);
    var j :| 0 <= j < |sorted| && IsLast(sorted, j) && sorted[j] == Agent(m, buckets[i].id);
    assert sorted[j] in sorted && Counts(agents, sorted[j]);
    var k :| IsLast(agents, k) && agents[k] == sorted[j];
  }

  lemma {:induction false} BucketsGrow(aspect: real, a: Geography, b: Geography, agents: seq<Agent>, sorted: seq<Agent>,
                                       buckets: seq<Bucket>)
    requires Sorts(agents, sorted, buckets) && WellBucketed(buckets)
    requires TeamsGrow(aspect, a, b, buckets) && TopFollows(a, b, buckets)
    ensures AgentsGrow(a, b, agents)
  {
    hide Sorts, TallAs, Listed, AtHome, Seated, Gridded, AllSized, SideBySide, Resting, OrderKept, FitsColumn,
      IsBottom, IsHomesBottom, WellBucketed;
    forall id, m
      ensures Seated(b.slots, id, m) <==> Seated(a.slots, id, m) || AtHome(agents, id, m)
    {
      ListedAtHome(agents, sorted, buckets, id, m);
    }
    var bottom :| IsBottom(buckets, b.groups, bottom)
      && b.top == if a.top < bottom + 300 then bottom + 300 else a.top;
    HomesBottom(b, agents, sorted, buckets, bottom);
  }

  lemma {:induction false} HomesBottom(g: Geography, agents: seq<Agent>, sorted: seq<Agent>, buckets: seq<Bucket>,
                                       bottom: int)
    requires Sorts(agents, sorted, buckets) && WellBucketed(buckets)
    requires HasBoxes(buckets, g.groups) && IsBottom(buckets, g.groups, bottom)
    ensures IsHomesBottom(g, agents, bottom)
  {
    hide Sorts, AtHome, IsLast;
    forall k | IsLast(agents, k)
      ensures 0 <= k < |agents| && agents[k].home in g.groups && BottomOf(g.groups[agents[k].home]) <= bottom
    {
      LastInRange(agents, k);
      var i := BucketOf(agents, sorted, buckets, k);
    }
    if bottom != 750 {
      var i :| 0 <= i < |buckets| && BottomOf(g.groups[buckets[i].id]) == bottom;
      HomeOfBucket(agents, sorted, buckets, i);
    }
  }

  lemma {:induction false} LastInRange(agents: seq<Agent>, k: int)
    requires IsLast(agents, k)
    ensures 0 <= k < |agents|
  {
  }

  lemma {:induction false} HomeOfBucket(agents: seq<Agent>, sorted: seq<Agent>, buckets: seq<Bucket>, i: nat)
    requires Sorts(agents, sorted, buckets) && WellBucketed(buckets) && i < |buckets|
    ensures exists k :: IsLast(agents, k) && agents[k].home == buckets[i].id
  {
    assert buckets[i].members != [];
    AgentOf(agents, sorted, buckets, i, buckets[i].members[0]);
    hide Sorts, WellBucketed;
    var k :| IsLast(agents, k) && agents[k].home == buckets[i].id && agents[k].id == buckets[i].members[0];
  }

  lemma {:induction false} BucketsAboveAreas(g: Geography, agents: seq<Agent>, sorted: seq<Agent>, buckets: seq<Bucket>,
                                             areas: seq<Area>)
    requires Sorts(agents, sorted, buckets) && WellShelved(g, buckets, areas)
    ensures AreasBelow(g, agents, areas)
  {
    hide Sorts;
    forall k, j | IsLast(agents, k) && 0 <= j < |areas|
      ensures IsAbove(g, agents[k].home, areas[j])
    {
      var i := BucketOf(agents, sorted, buckets, k);
      var area := areas[j];
      assert buckets[i].id in g.groups
             && g.groups[buckets[i].id].y + g.groups[buckets[i].id].height + SHELF_GAP <= area.y;
    }
  }

  lemma {:induction false} HoldsWell(agents: seq<Agent>, buckets: seq<Bucket>)
    requires Holds(agents, |agents|, buckets)
    ensures WellBucketed(buckets)
  {
    hide WellBucketed, Belongs, InBucket, IsLast;
  }

  lemma {:induction false} AscendingOnce(less: (Id, Id) -> bool, sorted: seq<Agent>)
    requires TotalOrder(less) && Ascending(less, sorted)
    ensures NoneTwice(sorted)
  {
    forall i, j | 0 <= i < j < |sorted|
      ensures sorted[i].id != sorted[j].id
    {
      assert less(sorted[i].id, sorted[j].id);
    }
  }

  // ---------------------------------------------------------------- the order of what is built

  const ByName: Destination -> Id := (d: Destination) => d.id

  function Weakly(collates: (Id, Id) -> bool): (Id, Id) -> bool {
    (a: Id, b: Id) => !collates(b, a)
  }

  /** The destinations by id. */
  function ByIds(collates: (Id, Id) -> bool, destinations: seq<Destination>): (r: seq<Destination>)
    ensures |r| == |destinations| && forall d :: d in r <==> d in destinations
  {
    S.Sorted(Weakly(collates), ByName, destinations)
  }

  /** No id comes before an earlier one. */
  ghost predicate NoneEarlier(collates: (Id, Id) -> bool, m: seq<Id>) {
    forall p, q :: 0 <= p < q < |m| ==> !collates(m[q], m[p])
  }

  lemma {:induction false} WeaklyOrders(collates: (Id, Id) -> bool)
    requires TotalOrder(collates)
    ensures S.Transitive(Weakly(collates)) && forall a, b :: Weakly(collates)(a, b) || Weakly(collates)(b, a)
  {
  }

  /** Within each family the destinations are seated by id. */
  lemma {:induction false} FamilyInOrder(collates: (Id, Id) -> bool, destinations: seq<Destination>, f: Family)
    requires TotalOrder(collates)
    ensures NoneEarlier(collates, MembersOf(ByIds(collates, destinations), f))
  {
    WeaklyOrders(collates);
    assert S.Comparable(Weakly(collates), ByName, destinations);
    S.SortedRises(Weakly(collates), ByName, destinations);
    var sorted := ByIds(collates, destinations);
    forall i, j | 0 <= i < j < |sorted|
      ensures !collates(sorted[j].id, sorted[i].id)
    {
      assert Weakly(collates)(ByName(sorted[i]), ByName(sorted[j]));
    }
    RisingMembers(collates, sorted, f);
  }

  lemma {:induction false} RisingMembers(collates: (Id, Id) -> bool, destinations: seq<Destination>, f: Family)
    requires forall i, j :: 0 <= i < j < |destinations| ==> !collates(destinations[j].id, destinations[i].id)
    ensures NoneEarlier(collates, MembersOf(destinations, f))
  {
    if destinations != [] {
      var n := |destinations| - 1;
      var rest := destinations[..n];
      assert forall i :: 0 <= i < n ==> rest[i] == destinations[i];
      RisingMembers(collates, rest, f);
      MembersAre(rest, f);
      var m, all := MembersOf(rest, f), MembersOf(destinations, f);
      forall p, q | 0 <= p < q < |all|
        ensures !collates(all[q], all[p])
      {
        assert all[p] == m[p];
        if q == |m| {
          assert m[p] in m && Takes(rest, f, m[p]);
          var k :| 0 <= k < |rest| && rest[k].id == m[p] && OfFamily(rest[k], f);
          assert destinations[k].id == m[p] && all[q] == destinations[n].id;
        }
      }
    }
  }

  /** The same destinations in another order have the same families with the same members. */
  lemma {:induction false} SameFamilies(d: seq<Destination>, e: seq<Destination>)
    requires forall x :: x in d <==> x in e
    ensures forall f, m :: m in MembersOf(d, f) <==> m in MembersOf(e, f)
    ensures forall f :: MembersOf(d, f) == [] <==> MembersOf(e, f) == []
    ensures FamiliesOf(d) == FamiliesOf(e)
  {
    forall f, m
      ensures m in MembersOf(d, f) <==> m in MembersOf(e, f)
    {
      MembersAre(d, f);
      MembersAre(e, f);
      SameTaken(d, e, f, m);
      SameTaken(e, d, f, m);
    }
    hide MembersOf;
    forall f
      ensures MembersOf(d, f) == [] <==> MembersOf(e, f) == []
    {
      assert MembersOf(d, f) != [] ==> MembersOf(d, f)[0] in MembersOf(e, f);
      assert MembersOf(e, f) != [] ==> MembersOf(e, f)[0] in MembersOf(d, f);
    }
  }

  lemma {:induction false} SameTaken(d: seq<Destination>, e: seq<Destination>, f: Family, m: Id)
    requires forall x :: x in d ==> x in e
    ensures Takes(d, f, m) ==> Takes(e, f, m)
  {
    if Takes(d, f, m) {
      var k :| 0 <= k < |d| && d[k].id == m && OfFamily(d[k], f);
      assert d[k] in e;
      var j :| 0 <= j < |e| && e[j] == d[k];
    }
  }

  lemma {:induction false} ShownAlike(g: Geography, agents: seq<Agent>, d: seq<Destination>, e: seq<Destination>,
                                      points: map<Id, Spot>, areas: seq<Area>)
    requires forall x :: x in d <==> x in e
    requires Shelving(g, d, points, areas) && AgentsSeated(g, agents, d, points)
    ensures Shelving(g, e, points, areas) && AgentsSeated(g, agents, e, points)
  {
    SameFamilies(d, e);
    hide MembersOf, FamiliesOf, AtShelf, IsArea, AtSeat, InHome, Spaced, IsLast;
    assert forall m :: Named(d, m) <==> Named(e, m);
    assert forall k :: Drawn(agents, d, k) <==> Drawn(agents, e, k) by {
      forall k
        ensures Drawn(agents, d, k) <==> Drawn(agents, e, k)
      {
        if IsLast(agents, k) {
          LastInRange(agents, k);
        }
      }
    }
  }

  /** The buckets of these agents, teams in their order and members by id. */
  ghost predicate IsOrdered(collates: (Id, Id) -> bool, teams: seq<Team>, agents: seq<Agent>, ordered: seq<Bucket>) {
    && WellBucketed(ordered) && InIdOrder(RankOrder(teams, collates), ordered)
    && (forall id, m :: Listed(ordered, id, m) <==> AtHome(agents, id, m))
    && (forall i :: 0 <= i < |ordered| ==> InIds(collates, ordered[i].members))
  }

  ghost predicate InIds(collates: (Id, Id) -> bool, members: seq<Id>) {
    forall p, q :: 0 <= p < q < |members| ==> collates(members[p], members[q])
  }

  lemma {:induction false} BucketsOrdered(collates: (Id, Id) -> bool, teams: seq<Team>, agents: seq<Agent>,
                                          sorted: seq<Agent>, ordered: seq<Bucket>)
    requires Ascending(collates, sorted) && Sorts(agents, sorted, ordered) && ListOrder(sorted, ordered)
    requires WellBucketed(ordered) && InIdOrder(RankOrder(teams, collates), ordered) && TotalOrder(collates)
    ensures IsOrdered(collates, teams, agents, ordered)
  {
    hide WellBucketed, InIdOrder, Sorts, Listed, AtHome;
    forall id, m
      ensures Listed(ordered, id, m) <==> AtHome(agents, id, m)
    {
      ListedAtHome(agents, sorted, ordered, id, m);
    }
    forall i | 0 <= i < |ordered|
      ensures InIds(collates, ordered[i].members)
    {
      var members := ordered[i].members;
      forall p, q | 0 <= p < q < |members|
        ensures collates(members[p], members[q])
      {
        assert ListedBefore(sorted, members[p], members[q]);
        var j, k :| 0 <= j < k < |sorted| && sorted[j].id == members[p] && sorted[k].id == members[q];
        assert collates(sorted[j].id, sorted[k].id);
      }
    }
  }

  /** There is one such order: how the records come in does not reach the build. */
  lemma {:induction false} OneBucketOrder(collates: (Id, Id) -> bool, teams: seq<Team>, a: seq<Agent>, b: seq<Agent>,
                                          o: seq<Bucket>, p: seq<Bucket>)
    requires TotalOrder(collates) && IsOrdered(collates, teams, a, o) && IsOrdered(collates, teams, b, p)
    requires forall id, m :: AtHome(a, id, m) <==> AtHome(b, id, m)
    ensures o == p
  {
    RankOrderTotal(teams, collates);
    forall x
      ensures x in o <==> x in p
    {
      if x in o {
        BucketInBoth(collates, teams, a, b, o, p, x);
      }
      if x in p {
        BucketInBoth(collates, teams, b, a, p, o, x);
      }
    }
    var order := RankOrder(teams, collates);
    IdOrderRises(order, o);
    IdOrderRises(order, p);
    hide IsOrdered, RankOrder, InIdOrder;
    S.OneOrder(order, ByTeam, o, p);
  }

  lemma {:induction false} BucketInBoth(collates: (Id, Id) -> bool, teams: seq<Team>, a: seq<Agent>, b: seq<Agent>,
                                        o: seq<Bucket>, p: seq<Bucket>, x: Bucket)
    requires TotalOrder(collates) && IsOrdered(collates, teams, a, o) && IsOrdered(collates, teams, b, p)
    requires (forall id, m :: AtHome(a, id, m) <==> AtHome(b, id, m)) && x in o
    ensures x in p
  {
    hide AtHome, InIdOrder, InIds;
    var i :| 0 <= i < |o| && o[i] == x;
    assert x.members != [];
    assert Listed(o, x.id, x.members[0]);
    assert Listed(p, x.id, x.members[0]);
    var j :| 0 <= j < |p| && p[j].id == x.id && x.members[0] in p[j].members;
    forall m
      ensures m in x.members <==> m in p[j].members
    {
      ListedIn(o, i, m);
      ListedIn(p, j, m);
    }
    hide WellBucketed;
    SameMembers(collates, x.members, p[j].members);
    assert p[j] == x;
  }

  lemma {:induction false} ListedIn(o: seq<Bucket>, i: nat, m: Id)
    requires WellBucketed(o) && i < |o|
    ensures Listed(o, o[i].id, m) <==> m in o[i].members
  {
  }

  const Itself: Id -> Id := (a: Id) => a

  lemma {:induction false} SameMembers(collates: (Id, Id) -> bool, s: seq<Id>, t: seq<Id>)
    requires TotalOrder(collates) && InIds(collates, s) && InIds(collates, t) && forall m :: m in s <==> m in t
    ensures s == t
  {
    assert S.Rises(collates, Itself, s) && S.Rises(collates, Itself, t);
    S.OneOrder(collates, Itself, s, t);
  }

  /** One build from agents, teams and destinations. */
  ghost predicate BuildsFor(aspect: real, a: Geography, b: Geography, collates: (Id, Id) -> bool, teams: seq<Team>,
                            agents: seq<Agent>, destinations: seq<Destination>) {
    exists ordered :: IsOrdered(collates, teams, agents, ordered)
      && Builds(aspect, a, b, ordered, ByIds(collates, destinations))
  }

  /** Building again from the same agents, in whatever order their records come, changes nothing at all. */
  lemma {:induction false} SameBuildForStays(aspect: real, a: Geography, b: Geography, c: Geography,
                                             collates: (Id, Id) -> bool, teams: seq<Team>, agents: seq<Agent>,
                                             again: seq<Agent>, destinations: seq<Destination>)
    requires Sound(b) && TotalOrder(collates) && forall id, m :: AtHome(agents, id, m) <==> AtHome(again, id, m)
    requires BuildsFor(aspect, a, b, collates, teams, agents, destinations)
    requires BuildsFor(aspect, b, c, collates, teams, again, destinations)
    ensures c == b
  {
    hide IsOrdered, Builds, Sound, AtHome, TotalOrder;
    var dests := ByIds(collates, destinations);
    var o :| IsOrdered(collates, teams, agents, o) && Builds(aspect, a, b, o, dests);
    var p :| IsOrdered(collates, teams, again, p) && Builds(aspect, b, c, p, dests);
    OneBucketOrder(collates, teams, agents, again, o, p);
    SameBuildStays(aspect, a, b, c, o, dests);
  }

  class MapLayout {
    const aspect: real
    var columns: seq<Column>
    var groups: Groups
    var slots: Seats
    var shelves: Shelves
    var seats: ShelfSeats
    var top: int

    ghost function View(): Geography
      reads this
    {
      Geography(columns, groups, slots, shelves, seats, top)
    }

    constructor (aspect: real)
      ensures Sound(View()) && View() == Geography([], map[], map[], map[], map[], 0)
    {
      this.aspect := aspect;
      columns, groups, slots, shelves, seats, top := [], map[], map[], map[], map[], 0;
    }

    method Build(ordered: seq<Bucket>, destinations: seq<Destination>) returns (points: map<Id, Spot>, areas: seq<Area>)
      requires WellBucketed(ordered) && Sound(View())
      modifies this
      ensures BuildStep(old(View()), View())
      ensures Seating(View(), ordered, destinations, points) && WellSeated(View(), ordered, destinations, points)
      ensures Shelving(View(), destinations, points, areas) && WellShelved(View(), ordered, areas)
      ensures Builds(aspect, old(View()), View(), ordered, destinations)
      ensures TeamsGrow(aspect, old(View()), View(), ordered) && TopFollows(old(View()), View(), ordered)
    {
      hide TeamsMade, ShelvesAll, TeamsExact, Listed;
      hide WellBucketed, Settled, Shelved, Stable, CalmStay, SeatsKept, ShelvesKept, Seated, AtSeat, AtShelf, IsArea,
        BucketIds, Within, Seating, WellSeated, WellShelved, MembersOf, FamiliesOf;
      columns, groups, slots := BuildTeams(ordered, aspect, columns, groups, slots);
      ReadyToPlace(columns, groups, slots, ordered);
      points := PlaceMembers(ordered, groups, slots);
      var right, bottom := Extent(ordered, groups);
      top := Max(top, bottom + SHELF_GAP);
      shelves, seats := ShelveAll(destinations, right, shelves, seats);
      ghost var agents := points;
      points, areas := PlaceAll(destinations, shelves, seats, top, points);
      SeatingShown(View(), ordered, destinations, agents, points);
      SeatingIsGood(View(), ordered, destinations, points);
      ShelvingIsGood(View(), ordered, destinations, points, areas, right, bottom);
      BuiltAs(aspect, old(View()), View(), ordered, destinations, right, bottom);
    }

    /** A build from the agents and teams themselves: homes chosen, agents sorted into buckets, the buckets laid out. */
    method BuildFor(less: (Id, Id) -> bool, collates: (Id, Id) -> bool, members: seq<Member>, teams: seq<Team>,
                    destinations: seq<Destination>)
      returns (points: map<Id, Spot>, areas: seq<Area>)
      requires Sound(View()) && TotalOrder(collates) && AllHomed(less, members, teams)
      modifies this
      ensures BuildStep(old(View()), View())
      ensures AgentsSeated(View(), WithHomes(less, members, teams), destinations, points)
      ensures Shelving(View(), destinations, points, areas)
      ensures AreasBelow(View(), WithHomes(less, members, teams), areas)
      ensures AgentsGrow(old(View()), View(), WithHomes(less, members, teams))
      ensures BuildsFor(aspect, old(View()), View(), collates, teams, WithHomes(less, members, teams), destinations)
    {
      hide Builds, TeamsGrow, TopFollows, AgentsGrow, ListOrder, InIdOrder, IsOrdered, RankOrder;
      hide HomeOf, AllHomed, Holds, Sound, BuildStep, Seating, WellSeated, Shelving, WellShelved, AgentsSeated,
        AreasBelow, TotalOrder, Ascending, NoneTwice, Counts;
      var agents := WithHomes(less, members, teams);
      var sorted := SortAgents(collates, agents);
      AscendingOnce(collates, sorted);
      var buckets := SortHome(sorted);
      var order := RankOrder(teams, collates);
      RankOrderTotal(teams, collates);
      HoldsWell(sorted, buckets);
      OrderedRises(order, buckets);
      OrderedHolds(order, sorted, buckets);
      var ordered := Ordered(order, buckets);
      HoldsWell(sorted, ordered);
      var dests := ByIds(collates, destinations);
      points, areas := Build(ordered, dests);
      BucketsSeatAgents(View(), agents, sorted, ordered, dests, points);
      BucketsAboveAreas(View(), agents, sorted, ordered, areas);
      ShownAlike(View(), agents, dests, destinations, points, areas);
      BucketsOrdered(collates, teams, agents, sorted, ordered);
      BucketsGrow(aspect, old(View()), View(), agents, sorted, ordered);
    }
  }
}
