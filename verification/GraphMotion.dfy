/** The recorded interaction events that drive every motion view. */
module Interactions {
  import opened Common

  datatype Outcome = Completed | Failed | Cancelled

  datatype Interaction = Interaction(id: Id, agentId: Id, targetId: Id, retryOf: Option<Id>)

  /** Event identities: those of a recorded trace, or the numbered ones the local lens mints. */
  datatype EventId = Recorded(name: string) | Minted(revision: nat)

  datatype Event =
    | Start(id: EventId, at: real, interaction: Interaction)
    | End(id: EventId, at: real, agentId: Id, interactionId: Id, outcome: Outcome)
    | Wait(id: EventId, at: real, agentId: Id, interactionId: Id)
    | Resume(id: EventId, at: real, agentId: Id, interactionId: Id)

  /** The agent an event is about. */
  function Subject(e: Event): Id {
    if e.Start? then e.interaction.agentId else e.agentId
  }

  /** What an agent is doing, as every view must show it. */
  datatype Intent = Intent(interaction: Option<Interaction>, waiting: bool)

  const Idle := Intent(None, false)

  predicate Names(work: Option<Interaction>, id: Id) {
    work.Some? && work.value.id == id
  }

  /** The plain reading of one event by the agent it is about. */
  function Heard(i: Intent, e: Event): Intent {
    if e.Start? then Intent(Some(e.interaction), false)
    else if !Names(i.interaction, e.interactionId) then i
    else if e.End? then Idle
    else i.(waiting := e.Wait?)
  }
}

/**
 The motion world as a value: bodies in insertion order, with the discrete part of
 every operation written out and the physics left arbitrary but deterministic.
 */
module MotionWorld {
  import opened Common
  import opened Interactions

  const STEP: real := 1.0 / 120.0
  const SLACK: real := 0.000000001
  const RELEASE_SECONDS: real := 0.32
  const LONGEST_FRAME: real := 0.25

  datatype Phase = Resting | Approaching | Docking | Engaged | Waiting | Detaching | Returning
  datatype Kind = Agent | Destination
  datatype Entity = Entity(id: Id, kind: Kind, home: Point)
  datatype Attachment = Attachment(interaction: Interaction, slot: nat)

  datatype Body = Body(
    kind: Kind, home: Point, position: Point, velocity: Point, phase: Phase, age: real,
    attachment: Option<Attachment>, departing: Option<Attachment>,
    queued: Option<Interaction>, queuedWaiting: bool, waiting: bool,
    releaseGoal: Option<Point>, outcome: Option<Outcome>, outcomeAge: real)

  type Bodies = map<Id, Body>

  datatype Motion = Motion(position: Point, velocity: Point)

  /** Every numeric judgement of the springs, as arbitrary functions of the bodies and the clock. */
  datatype Physics = Physics(
    releaseGoal: (Bodies, Id) -> Point,
    captured: (Bodies, real, Id) -> bool,
    held: (Bodies, real, Id) -> bool,
    arrived: (Bodies, real, Id) -> bool,
    nudge: (Bodies, Id) -> Point,
    force: (Bodies, real, Id) -> Point,
    move: (Body, Point) -> Motion,
    orbit: (Bodies, Id) -> Point)

  datatype World = World(order: seq<Id>, bodies: Bodies, seen: set<EventId>, time: real, accumulator: real)

  const Empty := World([], map[], {}, 0.0, 0.0)

  function NewBody(e: Entity): Body {
    Body(e.kind, e.home, e.home, Point(0.0, 0.0), Resting, 0.0, None, None, None, false, false, None, None, 0.0)
  }

  // ---------------------------------------------------------------- slots

  function SlotsAt(b: Body, host: Id): set<nat> {
    (if b.attachment.Some? && b.attachment.value.interaction.targetId == host then {b.attachment.value.slot} else {})
    + (if b.departing.Some? && b.departing.value.interaction.targetId == host then {b.departing.value.slot} else {})
  }

  function Occupied(bodies: Bodies, host: Id): set<nat> {
    set id, s | id in bodies && s in SlotsAt(bodies[id], host) :: s
  }

  /** The least number from `k` upwards outside `taken`; the search stops by pigeonhole. */
  function FreeFrom(taken: set<nat>, k: nat): (slot: nat)
    ensures k <= slot <= k + |taken| && slot !in taken
    ensures forall j :: k <= j < slot ==> j in taken
    decreases |taken|
  {
    if k in taken then
      var rest := taken - {k};
      var slot := FreeFrom(rest, k + 1);
      assert forall j :: k + 1 <= j < slot ==> j in rest && j in taken;
      slot
    else k
  }

  // ---------------------------------------------------------------- attach and release

  function Attach(bodies: Bodies, id: Id, action: Interaction): Bodies
    requires id in bodies
  {
    bodies[id := bodies[id].(
      attachment := Some(Attachment(action, FreeFrom(Occupied(bodies, action.targetId), 0))),
      departing := None, queued := None, queuedWaiting := false,
      phase := Approaching, age := 0.0, waiting := false, outcome := None)]
  }

  function Release(ph: Physics, bodies: Bodies, id: Id, outcome: Option<Outcome>): Bodies
    requires id in bodies
  {
    var b := bodies[id];
    if b.attachment.None? then bodies
    else bodies[id := b.(
      releaseGoal := Some(ph.releaseGoal(bodies, id)),
      departing := b.attachment, attachment := None, queued := None,
      phase := Detaching, age := 0.0, waiting := false, outcome := outcome, outcomeAge := 0.0)]
  }

  /** A departure is over: take up the queued redirection, keeping its waiting flag. */
  function TakeUp(bodies: Bodies, id: Id): Bodies
    requires id in bodies && bodies[id].queued.Some?
  {
    var waiting := bodies[id].queuedWaiting;
    var attached := Attach(bodies, id, bodies[id].queued.value);
    attached[id := attached[id].(waiting := waiting)]
  }

  // ---------------------------------------------------------------- dispatch

  predicate Startable(bodies: Bodies, action: Interaction) {
    && action.agentId in bodies && bodies[action.agentId].kind == Agent
    && action.targetId in bodies && action.targetId != action.agentId
  }

  function Started(ph: Physics, bodies: Bodies, action: Interaction): Bodies
    requires Startable(bodies, action)
  {
    var id := action.agentId;
    var b := bodies[id];
    if (b.attachment.Some? && b.attachment.value.interaction.id == action.id) || Names(b.queued, action.id) then bodies
    else if b.attachment.Some? || b.departing.Some? then
      var released := Release(ph, bodies, id, None);
      released[id := released[id].(queued := Some(action), queuedWaiting := false)]
    else Attach(bodies, id, action)
  }

  function Told(ph: Physics, bodies: Bodies, e: Event): Bodies
    requires !e.Start? && e.agentId in bodies
  {
    var b := bodies[e.agentId];
    if Names(b.queued, e.interactionId) then
      bodies[e.agentId :=
        if e.End? then b.(queued := None, queuedWaiting := false, outcome := Some(e.outcome), outcomeAge := 0.0)
        else b.(queuedWaiting := e.Wait?)]
    else if b.attachment.None? || b.attachment.value.interaction.id != e.interactionId then bodies
    else if e.End? then Release(ph, bodies, e.agentId, Some(e.outcome))
    else
      bodies[e.agentId := b.(
        waiting := e.Wait?,
        phase := if b.phase in {Engaged, Waiting} then (if e.Wait? then Waiting else Engaged) else b.phase)]
  }

  function Dispatch(ph: Physics, w: World, e: Event): World {
    if e.id in w.seen then w
    else
      var w := w.(seen := w.seen + {e.id});
      if e.Start? then
        if Startable(w.bodies, e.interaction) then w.(bodies := Started(ph, w.bodies, e.interaction)) else w
      else if e.agentId in w.bodies then w.(bodies := Told(ph, w.bodies, e)) else w
  }

  // ---------------------------------------------------------------- sync

  function Ids(entities: seq<Entity>): set<Id> {
    set e | e in entities :: e.id
  }

  function Kept(order: seq<Id>, ids: set<Id>): seq<Id> {
    if order == [] then []
    else
      var init := Kept(order[..|order| - 1], ids);
      var last := order[|order| - 1];
      if last in ids then init + [last] else init
  }

  function Remembered(bodies: Bodies, ids: set<Id>): Bodies {
    bodies - (bodies.Keys - ids)
  }

  /** One entity refreshes its body, or adds a resting one at the end. */
  function Placed(w: World, e: Entity): World {
    if e.id in w.bodies then w.(bodies := w.bodies[e.id := w.bodies[e.id].(home := e.home, kind := e.kind)])
    else w.(order := w.order + [e.id], bodies := w.bodies[e.id := NewBody(e)])
  }

  function PlacedAll(w: World, entities: seq<Entity>): World {
    if entities == [] then w
    else Placed(PlacedAll(w, entities[..|entities| - 1]), entities[|entities| - 1])
  }

  /** A body still attached to a host that is gone lets go; an empty host id is never looked up. */
  function Orphaned(ph: Physics, bodies: Bodies, ids: set<Id>, id: Id): Bodies
    requires id in bodies
  {
    var held := bodies[id].attachment;
    if held.Some? && held.value.interaction.targetId != "" && held.value.interaction.targetId !in ids
    then Release(ph, bodies, id, Some(Cancelled)) else bodies
  }

  function OrphanedAll(ph: Physics, bodies: Bodies, ids: set<Id>, order: seq<Id>): (r: Bodies)
    requires forall id :: id in order ==> id in bodies
    ensures r.Keys == bodies.Keys
  {
    if order == [] then bodies
    else Orphaned(ph, OrphanedAll(ph, bodies, ids, order[..|order| - 1]), ids, order[|order| - 1])
  }

  function Sync(ph: Physics, w: World, entities: seq<Entity>): World
    requires Listed(w)
  {
    var ids := Ids(entities);
    var kept := w.(order := Kept(w.order, ids), bodies := Remembered(w.bodies, ids));
    KeptListed(w, ids);
    var placed := PlacedAll(kept, entities);
    PlacedAllListed(kept, entities);
    placed.(bodies := OrphanedAll(ph, placed.bodies, ids, placed.order))
  }

  // ---------------------------------------------------------------- integrate and advance

  datatype Tick = Tick(bodies: Bodies, forces: map<Id, Point>)

  /** One body's share of a fixed step, before anything moves. */
  function Judged(ph: Physics, t: Tick, time: real, id: Id): (r: Tick)
    requires id in t.bodies
    ensures r.bodies.Keys == t.bodies.Keys
    ensures r.forces.Keys == t.forces.Keys + {id}
  {
    var aged := Aged(t.bodies, id);
    var phased := Phased(ph, aged, time, id);
    Tick(phased, t.forces[id := ph.force(phased, time, id)])
  }

  function Aged(bodies: Bodies, id: Id): (r: Bodies)
    requires id in bodies
    ensures r.Keys == bodies.Keys
  {
    var b := bodies[id].(age := bodies[id].age + STEP, outcomeAge := bodies[id].outcomeAge + STEP);
    if b.phase == Detaching && b.age >= RELEASE_SECONDS then
      var freed := bodies[id := b.(departing := None)];
      if b.queued.Some? then TakeUp(freed, id)
      else freed[id := freed[id].(phase := Returning, age := 0.0)]
    else bodies[id := b]
  }

  function Phased(ph: Physics, bodies: Bodies, time: real, id: Id): (r: Bodies)
    requires id in bodies
    ensures r.Keys == bodies.Keys
  {
    var b := bodies[id];
    if b.attachment.Some? then
      var docked := if b.phase == Approaching && ph.captured(bodies, time, id) then Docked(ph, bodies, id) else bodies;
      var d := docked[id];
      if d.phase == Docking && ph.held(docked, time, id)
      then docked[id := d.(phase := if d.waiting then Waiting else Engaged, age := 0.0)]
      else docked
    else if b.phase == Returning && ph.arrived(bodies, time, id) then
      bodies[id := b.(phase := Resting, age := 0.0)]
    else bodies
  }

  /** Capture: the body docks and a destination host feels the arrival. */
  function Docked(ph: Physics, bodies: Bodies, id: Id): (r: Bodies)
    requires id in bodies && bodies[id].attachment.Some?
    ensures r.Keys == bodies.Keys
  {
    var docking := bodies[id := bodies[id].(phase := Docking, age := 0.0)];
    var host := bodies[id].attachment.value.interaction.targetId;
    if host in docking && docking[host].kind == Destination
    then docking[host := docking[host].(velocity := ph.nudge(docking, id))]
    else docking
  }

  function JudgedAll(ph: Physics, bodies: Bodies, time: real, order: seq<Id>): (r: Tick)
    requires forall id :: id in order ==> id in bodies
    ensures r.bodies.Keys == bodies.Keys
    ensures r.forces.Keys == set id | id in order
  {
    if order == [] then Tick(bodies, map[])
    else Judged(ph, JudgedAll(ph, bodies, time, order[..|order| - 1]), time, order[|order| - 1])
  }

  function Moved(ph: Physics, b: Body, force: Point): Body {
    var m := ph.move(b, force);
    b.(position := m.position, velocity := m.velocity)
  }

  function MovedAll(ph: Physics, t: Tick): Bodies
    requires t.forces.Keys == t.bodies.Keys
  {
    map id | id in t.bodies :: Moved(ph, t.bodies[id], t.forces[id])
  }

  function Integrate(ph: Physics, w: World): (r: World)
    requires Listed(w)
    ensures Listed(r)
  {
    var time := w.time + STEP;
    w.(time := time, bodies := MovedAll(ph, JudgedAll(ph, w.bodies, time, w.order)))
  }

  /** Run fixed steps while at least one is due. */
  function Drained(ph: Physics, w: World): (r: World)
    requires Listed(w)
    ensures Listed(r) && r.accumulator + SLACK < STEP
    decreases ((w.accumulator + SLACK) * 120.0).Floor
  {
    if w.accumulator + SLACK >= STEP then
      DueShrinks(w.accumulator);
      Drained(ph, Integrate(ph, w).(accumulator := w.accumulator - STEP))
    else w
  }

  function Clamped(seconds: real): real {
    if seconds < 0.0 then 0.0 else if seconds > LONGEST_FRAME then LONGEST_FRAME else seconds
  }

  function Advance(ph: Physics, w: World, seconds: real, reduced: bool): World
    requires Listed(w)
  {
    if reduced then Settle(ph, w.(bodies := Outlasted(w.bodies, seconds)))
    else Drained(ph, w.(accumulator := w.accumulator + Clamped(seconds)))
  }

  function Outlasted(bodies: Bodies, seconds: real): Bodies {
    map id | id in bodies :: bodies[id].(outcomeAge := bodies[id].outcomeAge + seconds)
  }

  // ---------------------------------------------------------------- settle

  function Grounded(bodies: Bodies, id: Id): (r: Bodies)
    requires id in bodies
    ensures r.Keys == bodies.Keys
  {
    var b := bodies[id];
    var freed := if b.departing.None? then bodies
                 else
                   var let := bodies[id := b.(departing := None)];
                   if b.queued.Some? then TakeUp(let, id) else let;
    var f := freed[id];
    freed[id := f.(position := f.home, velocity := Point(0.0, 0.0),
                   phase := if f.attachment.None? then Resting else f.phase)]
  }

  function GroundedAll(bodies: Bodies, order: seq<Id>): (r: Bodies)
    requires forall id :: id in order ==> id in bodies
    ensures r.Keys == bodies.Keys
  {
    if order == [] then bodies
    else Grounded(GroundedAll(bodies, order[..|order| - 1]), order[|order| - 1])
  }

  datatype Seating = Seating(bodies: Bodies, visited: set<Id>)

  /** Place a body on its orbit after the host it circles, visiting every body once. */
  function Seated(ph: Physics, s: Seating, id: Id): (r: Seating)
    requires id in s.bodies && s.visited <= s.bodies.Keys
    ensures r.bodies.Keys == s.bodies.Keys && s.visited + {id} <= r.visited <= r.bodies.Keys
    decreases |s.bodies.Keys - s.visited|
  {
    if id in s.visited then s
    else
      var entered := s.(visited := s.visited + {id});
      assert s.bodies.Keys - s.visited == (s.bodies.Keys - entered.visited) + {id};
      var b := s.bodies[id];
      if b.attachment.None? then entered
      else
        var host := b.attachment.value.interaction.targetId;
        var hosted := if host in s.bodies then Seated(ph, entered, host) else entered;
        hosted.(bodies := Orbiting(ph, hosted.bodies, id))
  }

  function Orbiting(ph: Physics, bodies: Bodies, id: Id): (r: Bodies)
    requires id in bodies
    ensures r.Keys == bodies.Keys
  {
    bodies[id := bodies[id].(position := ph.orbit(bodies, id),
                             phase := if bodies[id].waiting then Waiting else Engaged)]
  }

  function SeatedAll(ph: Physics, bodies: Bodies, order: seq<Id>): (r: Seating)
    requires forall id :: id in order ==> id in bodies
    ensures r.bodies.Keys == bodies.Keys && (set id | id in order) <= r.visited <= r.bodies.Keys
  {
    if order == [] then Seating(bodies, {})
    else Seated(ph, SeatedAll(ph, bodies, order[..|order| - 1]), order[|order| - 1])
  }

  function Settle(ph: Physics, w: World): World
    requires Listed(w)
  {
    w.(bodies := SeatedAll(ph, GroundedAll(w.bodies, w.order), w.order).bodies)
  }

  // ---------------------------------------------------------------- bookkeeping of the order

  /** The insertion order lists every body once. */
  ghost predicate Listed(w: World) {
    Distinct(w.order) && w.bodies.Keys == set id | id in w.order
  }

  lemma {:induction false} KeptListed(w: World, ids: set<Id>)
    requires Listed(w)
    ensures Listed(w.(order := Kept(w.order, ids), bodies := Remembered(w.bodies, ids)))
  {
    KeptDistinct(w.order, ids);
  }

  lemma {:induction false} KeptDistinct(order: seq<Id>, ids: set<Id>)
    requires Distinct(order)
    ensures Distinct(Kept(order, ids))
    ensures forall id :: id in Kept(order, ids) <==> id in order && id in ids
  {
    if order != [] {
      KeptDistinct(order[..|order| - 1], ids);
    }
  }

  lemma {:induction false} PlacedAllListed(w: World, entities: seq<Entity>)
    requires Listed(w)
    ensures Listed(PlacedAll(w, entities))
    ensures PlacedAll(w, entities).bodies.Keys == w.bodies.Keys + Ids(entities)
    ensures PlacedAll(w, entities).seen == w.seen
  {
    if entities != [] {
      PlacedAllListed(w, entities[..|entities| - 1]);
      assert entities == entities[..|entities| - 1] + [entities[|entities| - 1]];
    }
  }

  lemma {:induction false} DueShrinks(accumulator: real)
    requires accumulator + SLACK >= STEP
    ensures 0 <= ((accumulator - STEP + SLACK) * 120.0).Floor < ((accumulator + SLACK) * 120.0).Floor
  {
    assert (accumulator - STEP + SLACK) * 120.0 == (accumulator + SLACK) * 120.0 - 1.0;
  }
}
