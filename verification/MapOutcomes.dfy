/** What one build of the teams comes to: who has a seat, how tall every box is and where it stands. */
module MapOutcomes {
  import opened Common
  import opened MapGeography
  import opened MapTeams

  lemma {:induction false} NeededMore(m: nat, n: nat, columns: nat)
    requires m <= n && columns > 0
    ensures Needed(m, columns) <= Needed(n, columns)
  {
    QuotientMore(m + columns - 1, n + columns - 1, columns);
  }

  lemma {:induction false} QuotientMore(x: nat, y: nat, c: nat)
    requires x <= y && c > 0
    ensures x / c <= y / c
  {
    assert x == x / c * c + x % c && y == y / c * c + y % c;
    if y / c < x / c {
      Scale(y / c + 1, x / c, c);
    }
  }

  lemma {:induction false} GrownTwice(a: Box, b: Box, c: Box, m: nat, n: nat)
    requires GrownTo(a, b, m) && GrownTo(b, c, n) && m <= n
    ensures GrownTo(a, c, n)
  {
    hide Needed;
    NeededMore(m, n, a.columns);
  }

  lemma {:induction false} RoomyGrown(box: Box, seats: nat)
    requires Roomy(box, seats)
    ensures GrownTo(box, box, seats)
  {
  }

  lemma {:induction false} MoreSeats(slots: map<Id, nat>, after: map<Id, nat>, members: seq<Id>)
    requires GivesSeats(slots, after, members)
    ensures |slots| <= |after|
  {
    assert slots.Keys <= after.Keys;
    SubsetSize(slots.Keys, after.Keys);
  }

  lemma {:induction false} SubsetSize(a: set<Id>, b: set<Id>)
    requires a <= b
    ensures |a| <= |b|
  {
    assert b == a + (b - a);
  }

  /** However many teams are seated, a box that was there grows to what its seats need and does nothing else. */
  lemma {:induction false} SeatedGrow(ordered: seq<Bucket>, columns: seq<Column>, groups: Groups, slots: Seats,
                                      groups': Groups, slots': Seats, id: Id)
    requires SeatsIn(ordered, columns, groups, slots, groups', slots') && id in groups
    requires Roomy(groups[id], |SeatsOf(slots, id)|)
    ensures id in groups' && GrownTo(groups[id], groups'[id], |SeatsOf(slots', id)|)
    decreases |ordered|
  {
    hide GrownTo, GivesSeats, Roomy, IsNewBox;
    if ordered == [] {
      RoomyGrown(groups[id], |SeatsOf(slots, id)|);
    } else {
      var k := |ordered| - 1;
      var g: Groups, s: Seats :|
        SeatsIn(ordered[..k], columns, groups, slots, g, s) && SeatsOne(ordered[k], columns, g, s, groups', slots');
      SeatedGrow(ordered[..k], columns, groups, slots, g, s, id);
      if id == ordered[k].id {
        MoreSeats(SeatsOf(s, id), slots'[id], ordered[k].members);
        GrownTwice(groups[id], g[id], groups'[id], |SeatsOf(s, id)|, |slots'[id]|);
      }
    }
  }

  /** A bucket of this team lists the agent. */
  ghost predicate Listed(ordered: seq<Bucket>, id: Id, a: Id) {
    exists k :: 0 <= k < |ordered| && ordered[k].id == id && a in ordered[k].members
  }

  lemma {:induction false} ListedLast(ordered: seq<Bucket>, id: Id, a: Id)
    requires ordered != []
    ensures var k := |ordered| - 1;
            Listed(ordered, id, a) <==> Listed(ordered[..k], id, a) || (ordered[k].id == id && a in ordered[k].members)
  {
    var k := |ordered| - 1;
    if Listed(ordered[..k], id, a) {
      var i :| 0 <= i < k && ordered[..k][i].id == id && a in ordered[..k][i].members;
      assert ordered[i].id == id && a in ordered[i].members;
    }
    if Listed(ordered, id, a) {
      var i :| 0 <= i < |ordered| && ordered[i].id == id && a in ordered[i].members;
      assert i < k ==> ordered[..k][i].id == id && a in ordered[..k][i].members;
    }
  }

  /** Exactly those who had a seat and those listed have one. */
  lemma {:induction false} SeatedAre(ordered: seq<Bucket>, columns: seq<Column>, groups: Groups, slots: Seats,
                                     groups': Groups, slots': Seats, id: Id, a: Id)
    requires SeatsIn(ordered, columns, groups, slots, groups', slots')
    ensures Seated(slots', id, a) <==> Seated(slots, id, a) || Listed(ordered, id, a)
    decreases |ordered|
  {
    hide SeatsOne, Listed, Seated;
    if ordered == [] {
      NoneListed(id, a);
    } else {
      var k := |ordered| - 1;
      var g: Groups, s: Seats :|
        SeatsIn(ordered[..k], columns, groups, slots, g, s) && SeatsOne(ordered[k], columns, g, s, groups', slots');
      SeatedAre(ordered[..k], columns, groups, slots, g, s, id, a);
      OneMoreSeated(ordered[k], columns, g, s, groups', slots', id, a);
      ListedLast(ordered, id, a);
    }
  }

  lemma {:induction false} OneMoreSeated(b: Bucket, columns: seq<Column>, groups: Groups, slots: Seats, groups': Groups,
                                         slots': Seats, id: Id, a: Id)
    requires SeatsOne(b, columns, groups, slots, groups', slots')
    ensures Seated(slots', id, a) <==> Seated(slots, id, a) || (b.id == id && a in b.members)
  {
    hide HasBox;
  }

  lemma {:induction false} NoneListed(id: Id, a: Id)
    ensures !Listed([], id, a)
  {
  }

  /** The team is on the map and everybody listed has a seat there. */
  ghost predicate Known(b: Bucket, groups: Groups, slots: Seats) {
    b.id in groups && b.id in slots && forall a :: a in b.members ==> a in slots[b.id]
  }

  /** Seating teams that are known changes nothing. */
  lemma {:induction false} KnownStay(ordered: seq<Bucket>, columns: seq<Column>, groups: Groups, slots: Seats,
                                     groups': Groups, slots': Seats)
    requires SeatsIn(ordered, columns, groups, slots, groups', slots')
    requires forall i :: 0 <= i < |ordered| ==> Known(ordered[i], groups, slots)
    requires forall id :: id in groups ==> Roomy(groups[id], |SeatsOf(slots, id)|)
    ensures groups' == groups && slots' == slots
    decreases |ordered|
  {
    hide Roomy, Known, SeatsOne;
    if ordered != [] {
      var k := |ordered| - 1;
      var g: Groups, s: Seats :|
        SeatsIn(ordered[..k], columns, groups, slots, g, s) && SeatsOne(ordered[k], columns, g, s, groups', slots');
      forall i | 0 <= i < k
        ensures Known(ordered[..k][i], groups, slots)
      {
        assert ordered[..k][i] == ordered[i];
      }
      KnownStay(ordered[..k], columns, groups, slots, g, s);
      OneKnown(ordered[k], columns, groups, slots, groups', slots');
    }
  }

  lemma {:induction false} OneKnown(b: Bucket, columns: seq<Column>, groups: Groups, slots: Seats, groups': Groups,
                                    slots': Seats)
    requires SeatsOne(b, columns, groups, slots, groups', slots') && Known(b, groups, slots)
    requires forall id :: id in groups ==> Roomy(groups[id], |SeatsOf(slots, id)|)
    ensures groups' == groups && slots' == slots
  {
    hide IsNewBox, GivesSeats, Roomy, GrownTo;
    SeatsAlreadyGiven(slots[b.id], slots'[b.id], b.members);
    RoomyGrown(groups[b.id], |slots[b.id]|);
    SameGrowth(groups[b.id], groups[b.id], groups'[b.id], |slots[b.id]|);
    assert groups'.Keys == groups.Keys && slots'.Keys == slots.Keys;
  }

  lemma {:induction false} SameGrowth(a: Box, b: Box, c: Box, seats: nat)
    requires GrownTo(a, b, seats) && GrownTo(a, c, seats)
    ensures b == c
  {
  }

  /** The box goes to a column and has the size that fits there. */
  ghost predicate FitsColumn(columns: seq<Column>, count: nat, box: Box) {
    exists c :: 0 <= c < |columns| && box.x == columns[c].x && IsSize(box, count, (columns[c].width - 100) / 230)
  }

  /** The box begins at the top, or no lower than right under some other of its column that begins higher. */
  ghost predicate HeldUp(groups: Groups, id: Id) {
    && id in groups
    && (groups[id].y == 180 || exists j :: j in groups && PropsUp(groups[j], groups[id]))
  }

  predicate PropsUp(a: Box, b: Box) { a.x == b.x && a.y < b.y <= a.y + a.height + 260 }

  /** A team seated for the first time has a box of its size in a column, held up by what was there. */
  lemma {:induction false} SeatedNew(ordered: seq<Bucket>, columns: seq<Column>, groups: Groups, slots: Seats,
                                     groups': Groups, slots': Seats, i: nat)
    requires SeatsIn(ordered, columns, groups, slots, groups', slots') && i < |ordered|
    requires forall i, j :: 0 <= i < j < |ordered| ==> ordered[i].id != ordered[j].id
    requires ordered[i].id !in groups && ordered[i].id !in slots
    requires forall id :: id in groups ==> groups[id].height > 0
    ensures HeldUp(groups', ordered[i].id) && FitsColumn(columns, |ordered[i].members|, groups'[ordered[i].id])
    decreases |ordered|
  {
    hide SeatsOne, HeldUp, FitsColumn;
    var k := |ordered| - 1;
    var g: Groups, s: Seats :|
      SeatsIn(ordered[..k], columns, groups, slots, g, s) && SeatsOne(ordered[k], columns, g, s, groups', slots');
    var id := ordered[i].id;
    SeatedUpright(ordered[..k], columns, groups, slots, g, s);
    if i < k {
      assert ordered[..k][i] == ordered[i];
      SeatedNew(ordered[..k], columns, groups, slots, g, s, i);
      StillHeld(ordered[k], columns, g, s, groups', slots', id);
    } else {
      SeatedKeys(ordered[..k], columns, groups, slots, g, s, id);
      OneNew(ordered[k], columns, g, s, groups', slots');
    }
  }

  /** Boxes keep a positive height while teams are seated. */
  lemma {:induction false} SeatedUpright(ordered: seq<Bucket>, columns: seq<Column>, groups: Groups, slots: Seats,
                                         groups': Groups, slots': Seats)
    requires SeatsIn(ordered, columns, groups, slots, groups', slots')
    requires forall id :: id in groups ==> groups[id].height > 0
    ensures forall id :: id in groups' ==> groups'[id].height > 0
    decreases |ordered|
  {
    hide SeatsOne;
    if ordered != [] {
      var k := |ordered| - 1;
      var g: Groups, s: Seats :|
        SeatsIn(ordered[..k], columns, groups, slots, g, s) && SeatsOne(ordered[k], columns, g, s, groups', slots');
      SeatedUpright(ordered[..k], columns, groups, slots, g, s);
      OneUpright(ordered[k], columns, g, s, groups', slots');
    }
  }

  lemma {:induction false} OneUpright(b: Bucket, columns: seq<Column>, groups: Groups, slots: Seats, groups': Groups,
                                      slots': Seats)
    requires SeatsOne(b, columns, groups, slots, groups', slots')
    requires forall id :: id in groups ==> groups[id].height > 0
    ensures forall id :: id in groups' ==> groups'[id].height > 0
  {
    hide GivesSeats, HasBox;
    BoxUpright(b, columns, groups, groups'[b.id], |slots'[b.id]|);
  }

  lemma {:induction false} BoxUpright(b: Bucket, columns: seq<Column>, groups: Groups, box: Box, seats: nat)
    requires HasBox(b, columns, groups, box, seats)
    ensures box.height > 0
  {
    hide IsNewBox, Needed;
    NeededPositive(seats, box.columns);
  }

  lemma {:induction false} NeededPositive(seats: nat, columns: nat)
    requires columns > 0
    ensures Needed(seats, columns) > 0
  {
    Scale(0, (seats + columns - 1) / columns, 230);
  }

  lemma {:induction false} SeatedKeys(ordered: seq<Bucket>, columns: seq<Column>, groups: Groups, slots: Seats,
                                      groups': Groups, slots': Seats, id: Id)
    requires SeatsIn(ordered, columns, groups, slots, groups', slots')
    requires forall i :: 0 <= i < |ordered| ==> ordered[i].id != id
    ensures (id in groups' <==> id in groups) && (id in slots' <==> id in slots)
    decreases |ordered|
  {
    hide GivesSeats, HasBox;
    if ordered != [] {
      var k := |ordered| - 1;
      var g: Groups, s: Seats :|
        SeatsIn(ordered[..k], columns, groups, slots, g, s) && SeatsOne(ordered[k], columns, g, s, groups', slots');
      SeatedKeys(ordered[..k], columns, groups, slots, g, s, id);
    }
  }

  /** What held a box up still does when a team is seated. */
  lemma {:induction false} StillHeld(b: Bucket, columns: seq<Column>, groups: Groups, slots: Seats, groups': Groups,
                                     slots': Seats, id: Id)
    requires SeatsOne(b, columns, groups, slots, groups', slots') && HeldUp(groups, id) && id != b.id
    ensures HeldUp(groups', id) && groups'[id] == groups[id]
  {
    hide GivesSeats, IsNewBox, Needed;
    if groups[id].y != 180 {
      var j :| j in groups && PropsUp(groups[j], groups[id]);
      assert PropsUp(groups'[j], groups'[id]);
    }
  }

  lemma {:induction false} OneNew(b: Bucket, columns: seq<Column>, groups: Groups, slots: Seats, groups': Groups,
                                  slots': Seats)
    requires SeatsOne(b, columns, groups, slots, groups', slots') && b.id !in groups && b.id !in slots
    requires forall id :: id in groups ==> groups[id].height > 0
    ensures HeldUp(groups', b.id) && FitsColumn(columns, |b.members|, groups'[b.id])
  {
    var box := NewOne(b, columns, groups, slots, groups', slots');
    hide SeatsOne, IsSize;
    var c :| 0 <= c < |columns| && IsEmptiest(groups, columns, c, box.y) && box.x == columns[c].x
      && IsSize(box, |b.members|, (columns[c].width - 100) / 230);
    if box.y != 180 {
      var j :| j in groups && groups[j].x == columns[c].x && groups[j].y + groups[j].height + GAP_Y == box.y;
      assert PropsUp(groups'[j], groups'[b.id]);
    }
  }

  /** A new team is as large as its list; its box is the new one. */
  lemma {:induction false} NewOne(b: Bucket, columns: seq<Column>, groups: Groups, slots: Seats, groups': Groups,
                                  slots': Seats) returns (box: Box)
    requires SeatsOne(b, columns, groups, slots, groups', slots') && b.id !in groups && b.id !in slots
    ensures IsNewBox(groups, columns, |b.members|, box)
    ensures OnlyAt(groups, groups', b.id) && groups'[b.id] == box
  {
    hide IsNewBox, GivesSeats, IsEmptiest;
    box :| IsNewBox(groups, columns, |b.members|, box) && GrownTo(box, groups'[b.id], |slots'[b.id]|);
    AtMostListed(slots'[b.id], b.members);
    assert box.height == Needed(|b.members|, box.columns) by { NewHeight(groups, columns, |b.members|, box); }
    NeededMore(|slots'[b.id]|, |b.members|, box.columns);
  }

  lemma {:induction false} NewHeight(groups: Groups, columns: seq<Column>, count: nat, box: Box)
    requires IsNewBox(groups, columns, count, box)
    ensures box.columns > 0 && box.height == Needed(count, box.columns)
  {
    hide IsEmptiest, Needed;
  }

  lemma {:induction false} AtMostListed(seats: map<Id, nat>, members: seq<Id>)
    requires GivesSeats(map[], seats, members)
    ensures |seats| <= |members|
  {
    assert seats.Keys <= set a | a in members;
    SubsetSize(seats.Keys, set a | a in members);
    DistinctIds(members);
  }

  lemma {:induction false} DistinctIds(members: seq<Id>)
    ensures |set a | a in members| <= |members|
  {
    if members != [] {
      var k := |members| - 1;
      DistinctIds(members[..k]);
      assert members == members[..k] + [members[k]];
      assert (set a | a in members) == (set a | a in members[..k]) + {members[k]};
    }
  }

  /** The same box at another height down the map, as tall as its seats need and never shorter. */
  ghost predicate TallAs(a: Box, b: Box, seats: nat) {
    GrownTo(a, b.(y := a.y), seats)
  }

  /** Stays, begins at the top, or rests right under another. */
  ghost predicate Resting(groups: Groups, after: Groups, id: Id) {
    && id in after
    && (|| after[id].y == (if id in groups then groups[id].y else 180)
        || exists j :: j in after && RestsUnder(after[j], after[id]))
  }

  /** Of two in a column, the one that was there or that was higher stays clear above. */
  ghost predicate OrderKept(groups: Groups, after: Groups, j: Id, k: Id)
    requires j in groups && j in after && k in after
  {
    after[j].x == after[k].x && (k in groups ==> groups[j].y < groups[k].y) ==> Above(after[j], after[k])
  }

  /** What one build makes of the teams: seats, sizes and places. */
  ghost predicate TeamsExact(ordered: seq<Bucket>, aspect: real, columns: seq<Column>, groups: Groups, slots: Seats,
                             columns': seq<Column>, groups': Groups, slots': Seats) {
    && (forall id :: id in groups ==> id in groups' && TallAs(groups[id], groups'[id], |SeatsOf(slots', id)|))
    && (forall id, a :: Seated(slots', id, a) <==> Seated(slots, id, a) || Listed(ordered, id, a))
    && if columns == [] && ordered != [] then
         && SideBySide(columns') && Gridded(ordered, columns', groups') && AllSized(ordered, groups')
         && IsBest(SizesOf(ordered), |columns'|, aspect)
       else
         && columns' == columns
         && (forall id :: id in groups' ==> Resting(groups, groups', id))
         && (forall j, k :: j in groups && k in groups' ==> OrderKept(groups, groups', j, k))
         && forall i :: 0 <= i < |ordered| && ordered[i].id !in groups ==>
              ordered[i].id in groups' && FitsColumn(columns, |ordered[i].members|, groups'[ordered[i].id])
  }

  lemma {:induction false} TeamsAreExact(ordered: seq<Bucket>, aspect: real, columns: seq<Column>, groups: Groups,
                                         slots: Seats, columns': seq<Column>, groups': Groups, slots': Seats)
    requires WellBucketed(ordered) && Settled(columns, groups, slots)
    requires TeamsMade(ordered, aspect, columns, groups, slots, columns', groups', slots')
    ensures TeamsExact(ordered, aspect, columns, groups, slots, columns', groups', slots')
  {
    hide Settles, SeatsIn, Seated, Listed, TallAs, Resting, OrderKept, FitsColumn, Gridded, AllSized, SideBySide,
      IsBest, SizesOf, AllClear, BucketIds, Laid, Grew;
    var start: Groups, g: Groups :|
      && Starts(ordered, aspect, columns, groups, columns', start) && Grew(start, g)
      && SeatsIn(ordered, columns', start, slots, g, slots') && Settles(g, groups');
    forall id, a
      ensures Seated(slots', id, a) <==> Seated(slots, id, a) || Listed(ordered, id, a)
    {
      SeatedAre(ordered, columns', start, slots, g, slots', id, a);
    }
    if columns == [] && ordered != [] {
      FirstIsGrid(ordered, columns', start, g, groups', slots');
    } else {
      forall id | id in groups
        ensures id in groups' && TallAs(groups[id], groups'[id], |SeatsOf(slots', id)|)
      {
        OldIsTall(ordered, columns, groups, slots, g, groups', slots', id);
      }
      forall id | id in groups'
        ensures Resting(groups, groups', id)
      {
        EachRests(ordered, columns, groups, slots, g, groups', slots', id);
      }
      forall j, k | j in groups && k in groups'
        ensures OrderKept(groups, groups', j, k)
      {
        KeptInOrder(columns, groups, slots, g, groups', j, k);
      }
      forall i | 0 <= i < |ordered| && ordered[i].id !in groups
        ensures ordered[i].id in groups' && FitsColumn(columns, |ordered[i].members|, groups'[ordered[i].id])
      {
        NewFits(ordered, columns, groups, slots, g, groups', slots', i);
      }
    }
  }

  lemma {:induction false} OldIsTall(ordered: seq<Bucket>, columns: seq<Column>, groups: Groups, slots: Seats,
                                     g: Groups, groups': Groups, slots': Seats, id: Id)
    requires Settled(columns, groups, slots) && id in groups
    requires SeatsIn(ordered, columns, groups, slots, g, slots') && Settles(g, groups')
    ensures id in groups' && TallAs(groups[id], groups'[id], |SeatsOf(slots', id)|)
  {
    hide SeatsIn, AllClear, AllSnug, Undisturbed, Roomy, Numbered, InColumn, ColumnsApart;
    assert Housed(columns, groups, slots, id);
    SeatedGrow(ordered, columns, groups, slots, g, slots', id);
    assert Lowered(g[id], groups'[id]);
    assert groups'[id].(y := groups[id].y) == g[id];
  }

  lemma {:induction false} KeptInOrder(columns: seq<Column>, groups: Groups, slots: Seats, g: Groups, groups': Groups,
                                       j: Id, k: Id)
    requires Settled(columns, groups, slots) && Grew(groups, g) && Settles(g, groups')
    requires j in groups && k in groups'
    ensures j in groups' && OrderKept(groups, groups', j, k)
  {
    assert groups[j].height > 0 by { LaidUpright(columns, groups, slots); }
    hide Settled, AllClear, Undisturbed;
    assert Taller(groups[j], g[j]) && Lowered(g[j], groups'[j]) && Lowered(g[k], groups'[k]);
    assert InTurn(g, groups', j, k);
    if k in groups {
      assert Taller(groups[k], g[k]);
    } else if groups[j].x == g[k].x {
      assert Above(groups[j], g[k]);
    }
  }

  lemma {:induction false} NewFits(ordered: seq<Bucket>, columns: seq<Column>, groups: Groups, slots: Seats, g: Groups,
                                   groups': Groups, slots': Seats, i: nat)
    requires WellBucketed(ordered) && Settled(columns, groups, slots) && i < |ordered| && ordered[i].id !in groups
    requires SeatsIn(ordered, columns, groups, slots, g, slots') && Settles(g, groups')
    ensures HeldUp(g, ordered[i].id) && ordered[i].id in groups'
    ensures FitsColumn(columns, |ordered[i].members|, groups'[ordered[i].id])
  {
    assert forall id :: id in groups ==> groups[id].height > 0 by { LaidUpright(columns, groups, slots); }
    assert ordered[i].id !in slots;
    SeatedNew(ordered, columns, groups, slots, g, slots', i);
    hide SeatsIn, WellBucketed, Settled, IsSize, HeldUp, AllClear, AllSnug, Undisturbed;
    var a, b := g[ordered[i].id], groups'[ordered[i].id];
    assert Lowered(a, b);
    var c :| 0 <= c < |columns| && a.x == columns[c].x
      && IsSize(a, |ordered[i].members|, (columns[c].width - 100) / 230);
    assert b.x == columns[c].x && IsSize(b, |ordered[i].members|, (columns[c].width - 100) / 230) by {
      SameSize(a, b, |ordered[i].members|, (columns[c].width - 100) / 230);
    }
  }

  lemma {:induction false} SameSize(a: Box, b: Box, count: nat, most: int)
    requires IsSize(a, count, most) && b.columns == a.columns && b.width == a.width && b.height == a.height
    ensures IsSize(b, count, most)
  {
    hide Needed, IsRoot;
  }

  lemma {:induction false} EachRests(ordered: seq<Bucket>, columns: seq<Column>, groups: Groups, slots: Seats,
                                     g: Groups, groups': Groups, slots': Seats, id: Id)
    requires WellBucketed(ordered) && Settled(columns, groups, slots) && id in groups' && Grew(groups, g)
    requires SeatsIn(ordered, columns, groups, slots, g, slots') && Settles(g, groups')
    ensures Resting(groups, groups', id)
  {
    hide SeatsIn, WellBucketed, Settled, HeldUp, AllClear, Undisturbed;
    assert id in g && Snug(g, groups', g.Keys, id);
    if id in groups {
      assert Taller(groups[id], g[id]);
    } else {
      assert HeldUp(g, id) by {
        var i := NewBucket(ordered, columns, groups, slots, g, slots', id);
        NewFits(ordered, columns, groups, slots, g, groups', slots', i);
      }
      HeldRests(g, groups', id);
    }
  }

  lemma {:induction false} NewBucket(ordered: seq<Bucket>, columns: seq<Column>, groups: Groups, slots: Seats,
                                     groups': Groups, slots': Seats, id: Id) returns (i: nat)
    requires SeatsIn(ordered, columns, groups, slots, groups', slots') && id in groups' && id !in groups
    ensures i < |ordered| && ordered[i].id == id
  {
    hide SeatsIn;
    if forall i :: 0 <= i < |ordered| ==> ordered[i].id != id {
      SeatedKeys(ordered, columns, groups, slots, groups', slots', id);
    }
    i :| 0 <= i < |ordered| && ordered[i].id == id;
  }

  /** What another box held up begins at the top or rests right under another once settled. */
  lemma {:induction false} HeldRests(g: Groups, after: Groups, id: Id)
    requires HeldUp(g, id) && Settles(g, after)
    ensures id in after && (after[id].y == 180 || exists j :: j in after && RestsUnder(after[j], after[id]))
  {
    hide AllClear, Undisturbed;
    assert Snug(g, after, g.Keys, id);
    if after[id].y == g[id].y && g[id].y != 180 {
      var j :| j in g && PropsUp(g[j], g[id]);
      assert Lowered(g[j], after[j]) && Lowered(g[id], after[id]) && InTurn(g, after, j, id);
      assert RestsUnder(after[j], after[id]);
    }
  }

  /** The first build leaves the grid as it was drawn. */
  lemma {:induction false} FirstIsGrid(ordered: seq<Bucket>, columns: seq<Column>, start: Groups, g: Groups,
                                       after: Groups, slots': Seats)
    requires Gridded(ordered, columns, start) && AllSized(ordered, start) && WellBucketed(ordered)
    requires start.Keys == BucketIds(ordered) && AllClear(start, start.Keys) && Upright(start)
    requires SeatsIn(ordered, columns, start, map[], g, slots') && Grew(start, g) && Settles(g, after)
    ensures after == start
  {
    hide Gridded, SeatsIn, IsSize, WellBucketed, AllClear, Undisturbed, BucketIds;
    assert g.Keys == start.Keys by {
      forall id | id in g && id !in start
        ensures false
      {
        var i := NewBucket(ordered, columns, start, map[], g, slots', id);
        BucketHasId(ordered, i);
      }
    }
    forall id | id in start
      ensures g[id] == start[id]
    {
      GridKept(ordered, columns, start, g, slots', id);
    }
    assert g == start;
    forall id | id in start
      ensures after[id] == start[id]
    {
      CalmAbove(start, g, id);
    }
    assert after == start;
  }

  lemma {:induction false} GridKept(ordered: seq<Bucket>, columns: seq<Column>, start: Groups, g: Groups,
                                    slots': Seats, id: Id)
    requires AllSized(ordered, start) && WellBucketed(ordered)
    requires id in start && id in BucketIds(ordered)
    requires SeatsIn(ordered, columns, start, map[], g, slots')
    ensures id in g && g[id] == start[id]
  {
    hide SeatsIn, BucketIds, WellBucketed;
    var i := BucketOf(ordered, id);
    var box, count := start[id], |ordered[i].members|;
    assert IsSize(box, count, 4);
    hide IsSize, AllSized;
    assert Roomy(box, 0) && box.columns > 0 && box.height == Needed(count, box.columns) by { SizeRoomy(box, count); }
    SeatedGrow(ordered, columns, start, map[], g, slots', id);
    ListedOnce(ordered, columns, start, g, slots', i);
    NeededMore(|SeatsOf(slots', id)|, count, box.columns);
  }

  lemma {:induction false} SizeRoomy(box: Box, count: nat)
    requires IsSize(box, count, 4)
    ensures Roomy(box, 0) && box.columns > 0 && box.height == Needed(count, box.columns)
  {
    var root: nat :| IsRoot(root, count)
      && box.columns == (if 4 < root then 4 else if root < 2 then 2 else root)
      && box.height == Needed(count, box.columns);
    hide IsRoot;
    NeededMore(0, count, box.columns);
  }

  /** Seated for the first time, a team has no more seats than its list is long. */
  lemma {:induction false} ListedOnce(ordered: seq<Bucket>, columns: seq<Column>, start: Groups, g: Groups,
                                      slots': Seats, i: nat)
    requires WellBucketed(ordered) && i < |ordered| && SeatsIn(ordered, columns, start, map[], g, slots')
    ensures |SeatsOf(slots', ordered[i].id)| <= |ordered[i].members|
  {
    hide SeatsIn;
    var id, members := ordered[i].id, ordered[i].members;
    var seats := SeatsOf(slots', id);
    forall a | a in seats
      ensures a in members
    {
      SeatedAre(ordered, columns, start, map[], g, slots', id, a);
      var k :| 0 <= k < |ordered| && ordered[k].id == id && a in ordered[k].members;
      assert k == i;
    }
    assert seats.Keys <= set a | a in members;
    SubsetSize(seats.Keys, set a | a in members);
    DistinctIds(members);
  }

  /** Teams that are all known stay as they are, box for box and seat for seat. */
  lemma {:induction false} KnownTeamsStay(ordered: seq<Bucket>, aspect: real, columns: seq<Column>, groups: Groups,
                                          slots: Seats, columns': seq<Column>, groups': Groups, slots': Seats)
    requires Settled(columns, groups, slots) && forall i :: 0 <= i < |ordered| ==> Known(ordered[i], groups, slots)
    requires TeamsMade(ordered, aspect, columns, groups, slots, columns', groups', slots')
    ensures columns' == columns && groups' == groups && slots' == slots
  {
    hide Settles, SeatsIn, AllClear, Grew, Known;
    var start: Groups, g: Groups :|
      && Starts(ordered, aspect, columns, groups, columns', start) && Grew(start, g)
      && SeatsIn(ordered, columns', start, slots, g, slots') && Settles(g, groups');
    assert columns == [] ==> ordered == [] by { NobodyKnown(ordered, columns, groups, slots); }
    assert forall id :: id in groups ==> Roomy(groups[id], |SeatsOf(slots, id)|) by {
      forall id | id in groups
        ensures Roomy(groups[id], |SeatsOf(slots, id)|)
      {
        assert Housed(columns, groups, slots, id);
      }
    }
    KnownStay(ordered, columns, groups, slots, g, slots');
    SettledStays(columns, groups, slots, groups');
  }

  lemma {:induction false} NobodyKnown(ordered: seq<Bucket>, columns: seq<Column>, groups: Groups, slots: Seats)
    requires Settled(columns, groups, slots) && forall i :: 0 <= i < |ordered| ==> Known(ordered[i], groups, slots)
    ensures columns == [] ==> ordered == []
  {
    hide Laid, AllClear;
    assert ordered != [] ==> Known(ordered[0], groups, slots);
  }

  lemma {:induction false} SettledStays(columns: seq<Column>, groups: Groups, slots: Seats, after: Groups)
    requires Settled(columns, groups, slots) && Settles(groups, after)
    ensures after == groups
  {
    LaidUpright(columns, groups, slots);
    GrewAtFirst(columns, groups, slots);
    hide AllClear, Laid, Undisturbed, AllSnug;
    forall id | id in groups
      ensures after[id] == groups[id]
    {
      CalmAbove(groups, groups, id);
    }
  }
}
