/** The local map lens: a bounded world kept in line with the operational work states. */
module LocalLens {
  import opened Common
  import opened Interactions
  import opened W = MotionWorld
  import opened MotionRuns
  import Steps = MotionSteps
  import opened WorkScene

  const REWIND_SLACK: real := 0.001
  const TRAVEL_RADIUS: real := 1200.0

  datatype Held = Held(action: Interaction, waiting: bool)

  datatype Lens = Lens(world: World, keys: seq<Id>, current: map<Id, Held>, revision: nat, time: real, epoch: string)

  const Closed := Lens(Empty, [], map[], 0, 0.0, "")

  predicate Near(a: Point, b: Point) {
    (a.x - b.x) * (a.x - b.x) + (a.y - b.y) * (a.y - b.y) <= TRAVEL_RADIUS * TRAVEL_RADIUS
  }

  function Actors(entities: seq<Entity>): seq<Id> {
    if entities == [] then []
    else
      var init := Actors(entities[..|entities| - 1]);
      var last := entities[|entities| - 1];
      if last.kind == Agent then init + [last.id] else init
  }

  function Dropping(keys: seq<Id>, id: Id): seq<Id> {
    if keys == [] then []
    else
      var init := Dropping(keys[..|keys| - 1], id);
      if keys[|keys| - 1] == id then init else init + [keys[|keys| - 1]]
  }

  type States = map<Id, WorkState>

  /** The work an actor should be seen doing: its own, when the target is present and near. */
  function Wanted(bodies: Bodies, actors: seq<Id>, states: States, id: Id): Option<Interaction> {
    if id !in actors || id !in states || states[id].interaction.None? then None
    else
      var action := states[id].interaction.value;
      if id in bodies && action.targetId in bodies && Near(bodies[id].home, bodies[action.targetId].home)
      then Some(action) else None
  }

  function Expected(bodies: Bodies, actors: seq<Id>, states: States, id: Id): Intent {
    var action := Wanted(bodies, actors, states, id);
    if action.Some? then Intent(action, states[id].waiting) else Idle
  }

  function OutcomeFor(states: States, id: Id, interactionId: Id): Outcome {
    if id in states && states[id].previous.Some? && states[id].previous.value.interaction.id == interactionId
    then states[id].previous.value.outcome else Cancelled
  }

  function Tell(ph: Physics, l: Lens, e: Event): Lens {
    l.(world := Dispatch(ph, l.world, e), revision := l.revision + 1)
  }

  /** Work that is no longer wanted is ended and forgotten. */
  function LetGo(ph: Physics, l: Lens, states: States, id: Id): Lens
    requires id in l.current
  {
    var name := l.current[id].action.id;
    var told := Tell(ph, l, End(Minted(l.revision + 1), l.time, id, name, OutcomeFor(states, id, name)));
    told.(keys := Dropping(l.keys, id), current := l.current - {id})
  }

  function TellWaiting(ph: Physics, l: Lens, id: Id, action: Interaction, waiting: bool): Lens {
    Tell(ph, l, if waiting then Wait(Minted(l.revision + 1), l.time, id, action.id)
                else Resume(Minted(l.revision + 1), l.time, id, action.id))
  }

  function TakeOn(ph: Physics, l: Lens, before: Option<Held>, id: Id, action: Interaction, waiting: bool): Lens {
    var renewed := before.None? || before.value.action.id != action.id;
    var started := if renewed then Tell(ph, l, Start(Minted(l.revision + 1), l.time, action)) else l;
    var told := if renewed || before.value.waiting != waiting then TellWaiting(ph, started, id, action, waiting)
                else started;
    told.(keys := if id in told.current then told.keys else told.keys + [id],
          current := told.current[id := Held(action, waiting)])
  }

  /** Bring one agent in line. */
  function Aligned(ph: Physics, l: Lens, actors: seq<Id>, states: States, id: Id): Lens {
    var before := if id in l.current then Some(l.current[id]) else None;
    var action := Wanted(l.world.bodies, actors, states, id);
    var let := if before.Some? && NameOf(action) != Some(before.value.action.id) then LetGo(ph, l, states, id) else l;
    if action.Some? then TakeOn(ph, let, before, id, action.value, states[id].waiting) else let
  }

  function AlignedAll(ph: Physics, l: Lens, actors: seq<Id>, states: States, ids: seq<Id>): Lens {
    if ids == [] then l
    else Aligned(ph, AlignedAll(ph, l, actors, states, ids[..|ids| - 1]), actors, states, ids[|ids| - 1])
  }

  /** A new epoch or a rewind starts an empty world. */
  function Turned(l: Lens, time: real, epoch: string): Lens {
    if epoch != l.epoch || time < l.time - REWIND_SLACK
    then l.(world := Empty, keys := [], current := map[], epoch := epoch, time := time)
    else l.(time := time)
  }

  function Brought(ph: Physics, l: Lens, entities: seq<Entity>, time: real, epoch: string): Lens
    requires Listed(l.world)
  {
    var turned := Turned(l, time, epoch);
    turned.(world := Sync(ph, turned.world, entities))
  }

  function LensSync(ph: Physics, l: Lens, entities: seq<Entity>, states: States, time: real, epoch: string): Lens
    requires Listed(l.world)
  {
    var synced := Brought(ph, l, entities, time, epoch);
    AlignedAll(ph, synced, Actors(entities), states, Firsts(Actors(entities) + synced.keys))
  }

  // ---------------------------------------------------------------- what holds between syncs

  function HeldIntent(current: map<Id, Held>, id: Id): Intent {
    if id in current then Intent(Some(current[id].action), current[id].waiting) else Idle
  }

  ghost predicate Orderly(l: Lens) {
    && Valid(l.world)
    && (forall id :: id in l.current <==> id in l.keys)
    && (forall e :: e in l.world.seen ==> e.Minted? && e.revision <= l.revision)
  }

  /** The world shows exactly the work the lens holds. */
  ghost predicate Linked(l: Lens) {
    && Orderly(l) && l.current.Keys <= l.world.bodies.Keys
    && forall id :: id in l.world.bodies ==> IntentOf(l.world.bodies[id]) == HeldIntent(l.current, id)
  }

  /** What the callers of the lens provide: work is keyed by its agent. */
  ghost predicate WellKeyed(states: States) {
    forall id :: id in states && states[id].interaction.Some? ==> states[id].interaction.value.agentId == id
  }

  ghost predicate NoneOnItself(states: States) {
    forall id :: id in states && states[id].interaction.Some? ==> states[id].interaction.value.targetId != id
  }

  ghost predicate KindsAgree(entities: seq<Entity>) {
    forall e, f :: e in entities && f in entities && e.id == f.id ==> e.kind == f.kind
  }

  /** The state of one agent before it is brought in line: as held, or let go because the host vanished. */
  predicate Pending(l: Lens, id: Id) {
    id in l.world.bodies ==>
      || IntentOf(l.world.bodies[id]) == HeldIntent(l.current, id)
      || (IntentOf(l.world.bodies[id]) == Idle && id in l.current && l.current[id].action.targetId !in l.world.bodies)
  }

  /** The lens keeps an old record because the new one bears the same name. */
  predicate Relabelled(l: Lens, actors: seq<Id>, states: States, id: Id) {
    var action := Wanted(l.world.bodies, actors, states, id);
    action.Some? && id in l.current && l.current[id].action.id == action.value.id
    && l.current[id].action != action.value
  }

  /** Work the lens starts but the world will not: the actor is also listed as a destination, or is its own target. */
  predicate Unplaceable(l: Lens, actors: seq<Id>, states: States, id: Id) {
    var action := Wanted(l.world.bodies, actors, states, id);
    && action.Some? && !(id in l.current && l.current[id].action.id == action.value.id)
    && !Startable(l.world.bodies, action.value)
  }

  predicate Overlooked(l: Lens, actors: seq<Id>, states: States, id: Id) {
    Relabelled(l, actors, states, id) || Unplaceable(l, actors, states, id)
  }

  /** The same bodies of the same kinds at the same homes, under the same clock. */
  ghost predicate SameStage(l: Lens, m: Lens) {
    && m.world.bodies.Keys == l.world.bodies.Keys && m.time == l.time && m.epoch == l.epoch
    && (forall j :: j in l.world.bodies ==>
          m.world.bodies[j].kind == l.world.bodies[j].kind && m.world.bodies[j].home == l.world.bodies[j].home)
  }

  /** One agent's share of the lens is as it was. */
  predicate SameFor(l: Lens, m: Lens, j: Id) {
    && (j in m.world.bodies <==> j in l.world.bodies)
    && (j in l.world.bodies ==> m.world.bodies[j] == l.world.bodies[j])
    && (j in m.current <==> j in l.current) && (j in l.current ==> m.current[j] == l.current[j])
  }

  /** Nothing but the one agent's share of the lens has changed. */
  ghost predicate OnlyTouches(l: Lens, m: Lens, id: Id) {
    SameStage(l, m) && forall j :: j != id ==> SameFor(l, m, j)
  }

  // ---------------------------------------------------------------- telling the world

  lemma {:induction false} TellKeeps(ph: Physics, l: Lens, e: Event)
    requires Orderly(l) && e.id == Minted(l.revision + 1)
    ensures Orderly(Tell(ph, l, e)) && OnlyTouches(l, Tell(ph, l, e), Subject(e)) && Tell(ph, l, e).current == l.current
    ensures Subject(e) in l.world.bodies ==>
              IntentOf(Tell(ph, l, e).world.bodies[Subject(e)])
              == if PassedOver(l.world.bodies, e) then IntentOf(l.world.bodies[Subject(e)])
                 else Heard(IntentOf(l.world.bodies[Subject(e)]), e)
  {
    hide Dispatch, Sound, Listed, IntentOf;
    DispatchKeeps(ph, l.world, e);
    DispatchHomes(ph, l.world, e);
    if Subject(e) in l.world.bodies {
      DispatchHeard(ph, l.world, e);
    }
  }

  lemma {:induction false} DispatchHomes(ph: Physics, w: World, e: Event)
    requires Valid(w)
    ensures Dispatch(ph, w, e).bodies.Keys == w.bodies.Keys
    ensures forall id :: id in w.bodies ==> Dispatch(ph, w, e).bodies[id].home == w.bodies[id].home
  {
    hide Started, Told, Sound;
    if e.id !in w.seen && e.Start? && Startable(w.bodies, e.interaction) {
      StartedHomes(ph, w.bodies, e.interaction);
    } else if e.id !in w.seen && !e.Start? && e.agentId in w.bodies {
      ToldHomes(ph, w.bodies, e);
    }
  }

  lemma {:induction false} StartedHomes(ph: Physics, bodies: Bodies, action: Interaction)
    requires Startable(bodies, action)
    ensures Started(ph, bodies, action).Keys == bodies.Keys
    ensures forall id :: id in bodies ==> Started(ph, bodies, action)[id].home == bodies[id].home
  {
    hide Occupied;
  }

  lemma {:induction false} ToldHomes(ph: Physics, bodies: Bodies, e: Event)
    requires !e.Start? && e.agentId in bodies
    ensures Told(ph, bodies, e).Keys == bodies.Keys
    ensures forall id :: id in bodies ==> Told(ph, bodies, e)[id].home == bodies[id].home
  {
  }

  lemma {:induction false} DroppingKeeps(keys: seq<Id>, id: Id)
    ensures forall j :: j in Dropping(keys, id) <==> j in keys && j != id
  {
    if keys != [] {
      DroppingKeeps(keys[..|keys| - 1], id);
      assert keys == keys[..|keys| - 1] + [keys[|keys| - 1]];
    }
  }

  lemma {:induction false} LetGoKeeps(ph: Physics, l: Lens, states: States, id: Id)
    requires Orderly(l) && id in l.current && Pending(l, id)
    ensures var m := LetGo(ph, l, states, id);
            && Orderly(m) && OnlyTouches(l, m, id) && id !in m.current
            && (id in l.world.bodies ==> IntentOf(m.world.bodies[id]) == Idle)
  {
    hide Tell, Valid, IntentOf, Dropping;
    var name := l.current[id].action.id;
    var end := End(Minted(l.revision + 1), l.time, id, name, OutcomeFor(states, id, name));
    TellKeeps(ph, l, end);
    DroppingKeeps(l.keys, id);
    forall j | j != id
      ensures SameFor(l, LetGo(ph, l, states, id), j)
    {
      assert SameFor(l, Tell(ph, l, end), j);
    }
  }

  lemma {:induction false} TellWaitingKeeps(ph: Physics, l: Lens, id: Id, action: Interaction, waiting: bool)
    requires Orderly(l) && id in l.world.bodies
    ensures var m := TellWaiting(ph, l, id, action, waiting);
            && Orderly(m) && OnlyTouches(l, m, id) && m.current == l.current
            && IntentOf(m.world.bodies[id]) == (if Names(IntentOf(l.world.bodies[id]).interaction, action.id)
                                                then IntentOf(l.world.bodies[id]).(waiting := waiting)
                                                else IntentOf(l.world.bodies[id]))
  {
    hide Tell, Valid, IntentOf;
    TellKeeps(ph, l, if waiting then Wait(Minted(l.revision + 1), l.time, id, action.id)
                     else Resume(Minted(l.revision + 1), l.time, id, action.id));
  }

  /** New work taken on from idle shows, if the world can place it. */
  lemma {:induction false} TakeOnNew(ph: Physics, l: Lens, before: Option<Held>, id: Id, action: Interaction,
                                     waiting: bool)
    requires Orderly(l) && id in l.world.bodies && action.agentId == id && IntentOf(l.world.bodies[id]) == Idle
    requires before.None? || before.value.action.id != action.id
    ensures var m := TakeOn(ph, l, before, id, action, waiting);
            && Orderly(m) && OnlyTouches(l, m, id) && HeldIntent(m.current, id) == Intent(Some(action), waiting)
            && IntentOf(m.world.bodies[id]) ==
               if Startable(l.world.bodies, action) then Intent(Some(action), waiting) else Idle
  {
    hide Tell, Orderly, IntentOf, TellWaiting, OnlyTouches;
    var start := Start(Minted(l.revision + 1), l.time, action);
    var started := Tell(ph, l, start);
    TellKeeps(ph, l, start);
    StageStays(l, started, id);
    TellWaitingKeeps(ph, started, id, action, waiting);
    var told := TellWaiting(ph, started, id, action, waiting);
    OnlyTouchesJoin(l, started, told, id);
    TakenOn(l, told, id, Held(action, waiting));
  }

  /** Work kept under the same name only has its waiting flag told. */
  lemma {:induction false} TakeOnKept(ph: Physics, l: Lens, before: Held, id: Id, action: Interaction, waiting: bool)
    requires Orderly(l) && id in l.world.bodies && id in l.current && before.action.id == action.id
    requires IntentOf(l.world.bodies[id]) in {Idle, Intent(Some(before.action), before.waiting)}
    ensures var m := TakeOn(ph, l, Some(before), id, action, waiting);
            && Orderly(m) && OnlyTouches(l, m, id) && HeldIntent(m.current, id) == Intent(Some(action), waiting)
            && IntentOf(m.world.bodies[id]) ==
               if IntentOf(l.world.bodies[id]) == Idle then Idle else Intent(Some(before.action), waiting)
  {
    hide Tell, Orderly, IntentOf, TellWaiting, OnlyTouches;
    TellWaitingKeeps(ph, l, id, action, waiting);
    OnlyTouchesItself(l, id);
    var told := if before.waiting != waiting then TellWaiting(ph, l, id, action, waiting) else l;
    TakenOn(l, told, id, Held(action, waiting));
  }

  /** Filing an agent's work keeps the lens orderly and touches that agent only. */
  lemma {:induction false} TakenOn(l: Lens, told: Lens, id: Id, held: Held)
    requires Orderly(told) && OnlyTouches(l, told, id)
    ensures var m := told.(keys := if id in told.current then told.keys else told.keys + [id],
                           current := told.current[id := held]);
            Orderly(m) && OnlyTouches(l, m, id)
  {
    hide Valid;
    var m := told.(keys := if id in told.current then told.keys else told.keys + [id],
                   current := told.current[id := held]);
    forall j | j != id
      ensures SameFor(l, m, j)
    {
      assert SameFor(l, told, j);
    }
  }

  lemma {:induction false} OnlyTouchesItself(l: Lens, id: Id)
    ensures OnlyTouches(l, l, id)
  {
  }

  lemma {:induction false} StageStays(l: Lens, m: Lens, id: Id)
    requires OnlyTouches(l, m, id)
    ensures SameStage(l, m)
  {
  }

  lemma {:induction false} StartableStays(l: Lens, m: Lens, action: Interaction)
    requires SameStage(l, m)
    ensures Startable(m.world.bodies, action) == Startable(l.world.bodies, action)
  {
  }

  lemma {:induction false} OnlyTouchesJoin(l: Lens, m: Lens, n: Lens, id: Id)
    requires OnlyTouches(l, m, id) && OnlyTouches(m, n, id)
    ensures OnlyTouches(l, n, id)
  {
    forall j | j != id
      ensures SameFor(l, n, j)
    {
      assert SameFor(l, m, j) && SameFor(m, n, j);
    }
  }

  /** One agent brought in line shows the expected intent exactly when it was not overlooked. */
  lemma {:induction false} AlignedShows(ph: Physics, l: Lens, actors: seq<Id>, states: States, id: Id)
    requires Orderly(l) && Pending(l, id) && WellKeyed(states)
    ensures var m := Aligned(ph, l, actors, states, id);
            && Orderly(m) && OnlyTouches(l, m, id)
            && HeldIntent(m.current, id) == Expected(l.world.bodies, actors, states, id)
            && (id in l.world.bodies ==>
                  (IntentOf(m.world.bodies[id]) == Expected(l.world.bodies, actors, states, id) <==>
                   !Overlooked(l, actors, states, id)))
  {
    hide LetGo, TakeOn, Orderly, IntentOf, Near, OnlyTouches, Startable;
    var before := if id in l.current then Some(l.current[id]) else None;
    var action := Wanted(l.world.bodies, actors, states, id);
    var let := if before.Some? && NameOf(action) != Some(before.value.action.id) then LetGo(ph, l, states, id) else l;
    if before.Some? && NameOf(action) != Some(before.value.action.id) {
      LetGoKeeps(ph, l, states, id);
    } else {
      OnlyTouchesItself(l, id);
    }
    if action.Some? {
      StageStays(l, let, id);
      StartableStays(l, let, action.value);
      if before.Some? && before.value.action.id == action.value.id {
        TakeOnKept(ph, let, before.value, id, action.value, states[id].waiting);
      } else {
        TakeOnNew(ph, let, before, id, action.value, states[id].waiting);
      }
      OnlyTouchesJoin(l, let, Aligned(ph, l, actors, states, id), id);
    }
  }

  // ---------------------------------------------------------------- the whole pass

  /** Expectations look only at homes and presence, so they do not move during the pass. */
  lemma {:induction false} ExpectedStable(l: Lens, m: Lens, actors: seq<Id>, states: States, id: Id)
    requires l.world.bodies.Keys == m.world.bodies.Keys
    requires forall j :: j in l.world.bodies ==> m.world.bodies[j].home == l.world.bodies[j].home
    ensures Wanted(m.world.bodies, actors, states, id) == Wanted(l.world.bodies, actors, states, id)
    ensures Expected(m.world.bodies, actors, states, id) == Expected(l.world.bodies, actors, states, id)
  {
    hide Near;
  }

  /** The lens holds what is expected of one agent, and shows it exactly when that agent was not overlooked. */
  predicate DoneFor(l: Lens, m: Lens, actors: seq<Id>, states: States, j: Id) {
    && HeldIntent(m.current, j) == Expected(l.world.bodies, actors, states, j)
    && (j in l.world.bodies ==> j in m.world.bodies)
    && (j in l.world.bodies ==>
          (IntentOf(m.world.bodies[j]) == Expected(l.world.bodies, actors, states, j) <==>
           !Overlooked(l, actors, states, j)))
  }

  /** The pass so far: the agents seen are in line, the others are untouched. */
  ghost predicate Passed(l: Lens, m: Lens, actors: seq<Id>, states: States, ids: seq<Id>) {
    && Orderly(m) && SameStage(l, m)
    && (forall j :: j in ids ==> DoneFor(l, m, actors, states, j))
    && (forall j :: j !in ids ==> SameFor(l, m, j))
  }

  lemma {:induction false} OverlookedStable(l: Lens, m: Lens, actors: seq<Id>, states: States, id: Id)
    requires SameStage(l, m) && SameFor(l, m, id)
    ensures Overlooked(m, actors, states, id) == Overlooked(l, actors, states, id)
  {
    hide Wanted, Startable;
    ExpectedStable(l, m, actors, states, id);
    if Wanted(l.world.bodies, actors, states, id).Some? {
      StartableStays(l, m, Wanted(l.world.bodies, actors, states, id).value);
    }
  }

  lemma {:induction false} PassedStep(l: Lens, m: Lens, n: Lens, actors: seq<Id>, states: States, ids: seq<Id>, id: Id)
    requires Passed(l, m, actors, states, ids) && id !in ids
    requires Orderly(n) && OnlyTouches(m, n, id) && DoneFor(m, n, actors, states, id)
    ensures Passed(l, n, actors, states, ids + [id])
  {
    hide Orderly, IntentOf, Expected, Wanted, Overlooked;
    ExpectedStable(l, m, actors, states, id);
    assert SameFor(l, m, id);
    OverlookedStable(l, m, actors, states, id);
    forall j | j in ids
      ensures DoneFor(l, n, actors, states, j)
    {
      assert DoneFor(l, m, actors, states, j) && SameFor(m, n, j);
    }
    forall j | j !in ids + [id]
      ensures SameFor(l, n, j)
    {
      assert SameFor(l, m, j) && SameFor(m, n, j);
    }
  }

  lemma {:induction false} AlignedAllPass(ph: Physics, l: Lens, actors: seq<Id>, states: States, ids: seq<Id>)
    requires Orderly(l) && WellKeyed(states) && Distinct(ids)
    requires forall id :: Pending(l, id)
    ensures Passed(l, AlignedAll(ph, l, actors, states, ids), actors, states, ids)
  {
    hide Aligned, IntentOf, Valid, Expected, Wanted;
    if ids != [] {
      var init, id := ids[..|ids| - 1], ids[|ids| - 1];
      AlignedAllPass(ph, l, actors, states, init);
      var m := AlignedAll(ph, l, actors, states, init);
      assert Pending(l, id) && id !in init && SameFor(l, m, id);
      AlignedShows(ph, m, actors, states, id);
      PassedStep(l, m, Aligned(ph, m, actors, states, id), actors, states, init, id);
      assert init + [id] == ids;
    }
  }

  // ---------------------------------------------------------------- sync, then the pass

  lemma {:induction false} PlacedAllKinds(w: World, entities: seq<Entity>, e: Entity)
    requires KindsAgree(entities) && e in entities
    ensures e.id in PlacedAll(w, entities).bodies && PlacedAll(w, entities).bodies[e.id].kind == e.kind
    ensures (forall f :: f in entities && f.id == e.id ==> f.home == e.home) ==>
            PlacedAll(w, entities).bodies[e.id].home == e.home
  {
    var init, last := entities[..|entities| - 1], entities[|entities| - 1];
    assert forall f :: f in init ==> f in entities;
    assert last in entities;
    if e.id != last.id {
      assert e in init;
      PlacedAllKinds(w, init, e);
    }
  }

  lemma {:induction false} SyncKinds(ph: Physics, w: World, entities: seq<Entity>, e: Entity)
    requires Valid(w) && KindsAgree(entities) && e in entities
    ensures e.id in Sync(ph, w, entities).bodies && Sync(ph, w, entities).bodies[e.id].kind == e.kind
    ensures (forall f :: f in entities && f.id == e.id ==> f.home == e.home) ==>
            Sync(ph, w, entities).bodies[e.id].home == e.home
  {
    hide OrphanedAll;
    var ids := Ids(entities);
    var kept := w.(order := Kept(w.order, ids), bodies := Remembered(w.bodies, ids));
    KeptListed(w, ids);
    PlacedAllKinds(kept, entities, e);
    PlacedAllListed(kept, entities);
    SyncPlacedSound(w, ids, entities);
    OrphanedAllSound(ph, PlacedAll(kept, entities).bodies, ids, PlacedAll(kept, entities).order);
  }

  lemma {:induction false} ActorsListed(entities: seq<Entity>, id: Id)
    ensures id in Actors(entities) <==> exists e :: e in entities && e.id == id && e.kind == Agent
  {
    if entities != [] {
      var init, last := entities[..|entities| - 1], entities[|entities| - 1];
      ActorsListed(init, id);
      assert entities == init + [last];
    }
  }

  lemma {:induction false} BroughtReady(ph: Physics, l: Lens, entities: seq<Entity>, time: real, epoch: string)
    requires Linked(l)
    ensures var m := Brought(ph, l, entities, time, epoch);
            Orderly(m) && m.world.bodies.Keys == Ids(entities) && forall id :: Pending(m, id)
  {
    hide Sync, Sound, Listed;
    var turned := Turned(l, time, epoch);
    assert Valid(Empty) by { EmptyValid(); }
    SyncKeeps(ph, turned.world, entities);
    var m := Brought(ph, l, entities, time, epoch);
    forall id
      ensures Pending(m, id)
    {
      if id in m.world.bodies && id in turned.world.bodies {
        assert IntentOf(turned.world.bodies[id]) == HeldIntent(turned.current, id);
        assert Valid(turned.world);
        SoundBody(turned.world.bodies, id);
      }
    }
  }

  /** Where kinds agree and nobody targets themselves, the world can place all work. */
  lemma {:induction false} AllPlaceable(ph: Physics, l: Lens, entities: seq<Entity>, states: States, time: real,
                                        epoch: string, id: Id)
    requires Linked(l) && WellKeyed(states) && KindsAgree(entities) && NoneOnItself(states)
    ensures !Unplaceable(Brought(ph, l, entities, time, epoch), Actors(entities), states, id)
  {
    hide Sync, Sound, Listed, Near, Actors;
    assert Valid(Empty) by { EmptyValid(); }
    if id in Actors(entities) {
      ActorsListed(entities, id);
      var e :| e in entities && e.id == id && e.kind == Agent;
      SyncKinds(ph, Turned(l, time, epoch).world, entities, e);
    }
  }

  lemma {:induction false} EmptyValid()
    ensures Valid(Empty)
  {
  }

  lemma {:induction false} SoundBody(bodies: Bodies, id: Id)
    requires Sound(bodies) && id in bodies
    ensures Coherent(bodies[id])
  {
  }

  /**
   After a sync from a linked lens, every body shows exactly what its work state wants,
   unless the lens was handed another record under a name it already holds or work the world cannot place.
   */
  lemma {:induction false} SyncShows(ph: Physics, l: Lens, entities: seq<Entity>, states: States, time: real,
                                     epoch: string, id: Id)
    requires Linked(l) && WellKeyed(states) && id in Ids(entities)
    ensures var m := Brought(ph, l, entities, time, epoch);
            var n := LensSync(ph, l, entities, states, time, epoch);
            && id in n.world.bodies
            && (IntentOf(n.world.bodies[id]) == Expected(m.world.bodies, Actors(entities), states, id)
                <==> !Overlooked(m, Actors(entities), states, id))
  {
    hide AlignedAll, Brought, IntentOf, Sound, Listed, Expected;
    var m := Brought(ph, l, entities, time, epoch);
    var actors := Actors(entities);
    var ids := Firsts(actors + m.keys);
    BroughtReady(ph, l, entities, time, epoch);
    AlignedAllPass(ph, m, actors, states, ids);
    if id in ids {
      assert DoneFor(m, LensSync(ph, l, entities, states, time, epoch), actors, states, id);
    } else {
      assert SameFor(m, LensSync(ph, l, entities, states, time, epoch), id) && Pending(m, id);
      UnseenIdle(m, actors, states, id);
    }
  }

  lemma {:induction false} UnseenIdle(m: Lens, actors: seq<Id>, states: States, id: Id)
    requires id !in actors && id !in m.current && id in m.world.bodies && Pending(m, id)
    ensures IntentOf(m.world.bodies[id]) == Expected(m.world.bodies, actors, states, id) == HeldIntent(m.current, id)
  {
  }

  /** How work that is let go ends: as the work state last recorded it, or cancelled if that is other work. */
  ghost predicate EndsAs(states: States, id: Id, work: Interaction, outcome: Option<Outcome>) {
    && outcome.Some?
    && if id in states && states[id].previous.Some? && states[id].previous.value.interaction.id == work.id
       then outcome.value == states[id].previous.value.outcome else outcome.value == Cancelled
  }

  lemma {:induction false} LetGoEnds(ph: Physics, l: Lens, states: States, id: Id)
    requires Orderly(l) && id in l.current && id in l.world.bodies
    requires IntentOf(l.world.bodies[id]) == HeldIntent(l.current, id)
    ensures var m := LetGo(ph, l, states, id);
            && id in m.world.bodies && IntentOf(m.world.bodies[id]) == Idle
            && EndsAs(states, id, l.current[id].action, m.world.bodies[id].outcome)
  {
    LetGoKeeps(ph, l, states, id);
    var name := l.current[id].action.id;
    var end := End(Minted(l.revision + 1), l.time, id, name, OutcomeFor(states, id, name));
    Steps.DispatchOutcomes(ph, l.world, end);
    hide Dispatch, Orderly, OnlyTouches, IntentOf;
    assert LetGo(ph, l, states, id).world == Dispatch(ph, l.world, end);
  }

  /** Each agent of the pass is brought in line once, from what it was before the pass. */
  lemma {:induction false} AlignedOnce(ph: Physics, l: Lens, actors: seq<Id>, states: States, ids: seq<Id>, id: Id)
    returns (m: Lens)
    requires Orderly(l) && WellKeyed(states) && Distinct(ids) && id in ids && id in l.world.bodies
    requires forall j :: Pending(l, j)
    ensures Orderly(m) && SameStage(l, m) && SameFor(l, m, id)
    ensures var n := AlignedAll(ph, l, actors, states, ids);
            && id in n.world.bodies && id in Aligned(ph, m, actors, states, id).world.bodies
            && n.world.bodies[id] == Aligned(ph, m, actors, states, id).world.bodies[id]
  {
    hide Aligned, IntentOf, Valid, Expected, Wanted;
    var init, last := ids[..|ids| - 1], ids[|ids| - 1];
    AlignedAllPass(ph, l, actors, states, init);
    var before := AlignedAll(ph, l, actors, states, init);
    assert last !in init && SameFor(l, before, last) && Pending(l, last);
    AlignedShows(ph, before, actors, states, last);
    if last == id {
      m := before;
    } else {
      assert id in init;
      m := AlignedOnce(ph, l, actors, states, init, id);
      assert SameFor(before, Aligned(ph, before, actors, states, last), id);
    }
  }

  /** Work a sync lets go, of a body that still showed it, ends as the work state recorded it or else cancelled. */
  lemma {:induction false} SyncEnds(ph: Physics, l: Lens, entities: seq<Entity>, states: States, time: real,
                                    epoch: string, id: Id)
    requires Linked(l) && WellKeyed(states)
    requires var m := Brought(ph, l, entities, time, epoch);
             && id in m.current && id in m.world.bodies && IntentOf(m.world.bodies[id]) == HeldIntent(m.current, id)
             && Wanted(m.world.bodies, Actors(entities), states, id).None?
    ensures var m := Brought(ph, l, entities, time, epoch);
            var n := LensSync(ph, l, entities, states, time, epoch);
            id in n.world.bodies && EndsAs(states, id, m.current[id].action, n.world.bodies[id].outcome)
  {
    hide AlignedAll, Brought, IntentOf, Sound, Listed, LetGo, EndsAs, Wanted;
    var m := Brought(ph, l, entities, time, epoch);
    var actors := Actors(entities);
    var ids := Firsts(actors + m.keys);
    BroughtReady(ph, l, entities, time, epoch);
    assert id in m.keys && id in actors + m.keys && id in ids;
    var at := AlignedOnce(ph, m, actors, states, ids, id);
    ExpectedStable(m, at, actors, states, id);
    LetGoEnds(ph, at, states, id);
    assert Aligned(ph, at, actors, states, id) == LetGo(ph, at, states, id);
  }

  /** With no work overlooked the lens is linked again, so the guarantee carries to the next sync. */
  lemma {:induction false} SyncLinks(ph: Physics, l: Lens, entities: seq<Entity>, states: States, time: real,
                                     epoch: string)
    requires Linked(l) && WellKeyed(states)
    requires forall id :: !Overlooked(Brought(ph, l, entities, time, epoch), Actors(entities), states, id)
    ensures Linked(LensSync(ph, l, entities, states, time, epoch))
  {
    hide AlignedAll, Brought, IntentOf, Sound, Listed, Expected, Overlooked;
    var m := Brought(ph, l, entities, time, epoch);
    var actors := Actors(entities);
    var ids := Firsts(actors + m.keys);
    BroughtReady(ph, l, entities, time, epoch);
    AlignedAllPass(ph, m, actors, states, ids);
    var n := LensSync(ph, l, entities, states, time, epoch);
    forall id | id in n.world.bodies
      ensures IntentOf(n.world.bodies[id]) == HeldIntent(n.current, id)
    {
      if id in ids {
        assert DoneFor(m, n, actors, states, id);
      } else {
        assert SameFor(m, n, id) && Pending(m, id);
        UnseenIdle(m, actors, states, id);
      }
    }
    forall id | id in n.current
      ensures id in n.world.bodies
    {
      if id in ids {
        assert DoneFor(m, n, actors, states, id);
        WantedPresent(m.world.bodies, actors, states, id);
      }
    }
  }

  lemma {:induction false} WantedPresent(bodies: Bodies, actors: seq<Id>, states: States, id: Id)
    requires Expected(bodies, actors, states, id) != Idle
    ensures id in bodies
  {
  }

  /** What the lens holds after a sync is what the work states want, on an unchanged stage. */
  lemma {:induction false} SyncHolds(ph: Physics, l: Lens, entities: seq<Entity>, states: States, time: real,
                                     epoch: string, id: Id)
    requires Linked(l) && WellKeyed(states)
    ensures var m := Brought(ph, l, entities, time, epoch);
            var n := LensSync(ph, l, entities, states, time, epoch);
            && n.epoch == epoch && n.time == time && n.world.bodies.Keys == Ids(entities)
            && (id in n.current ==> HeldIntent(n.current, id) == Expected(m.world.bodies, Actors(entities), states, id))
            && (id in Actors(entities) ==>
                HeldIntent(n.current, id) == Expected(m.world.bodies, Actors(entities), states, id))
            && Expected(n.world.bodies, Actors(entities), states, id)
               == Expected(m.world.bodies, Actors(entities), states, id)
  {
    hide AlignedAll, IntentOf, Sound, Listed, Expected, Sync;
    var m := Brought(ph, l, entities, time, epoch);
    var n := LensSync(ph, l, entities, states, time, epoch);
    var ids := Firsts(Actors(entities) + m.keys);
    BroughtReady(ph, l, entities, time, epoch);
    AlignedAllPass(ph, m, Actors(entities), states, ids);
    ExpectedStable(m, n, Actors(entities), states, id);
    if id in ids {
      assert DoneFor(m, n, Actors(entities), states, id);
    } else {
      assert SameFor(m, n, id);
    }
  }

  // ---------------------------------------------------------------- whole runs of the lens

  datatype LensOp =
    | OpSync(entities: seq<Entity>, states: States, time: real, epoch: string)
    | OpAdvance(seconds: real, reduced: bool)

  function LensApply(ph: Physics, l: Lens, op: LensOp): Lens
    requires Listed(l.world)
  {
    match op
    case OpSync(entities, states, time, epoch) => LensSync(ph, l, entities, states, time, epoch)
    case OpAdvance(seconds, reduced) => l.(world := Advance(ph, l.world, seconds, reduced))
  }

  /** Work on others, agreeing kinds, and within one epoch a name that always means one interaction. */
  ghost predicate Reliable(book: (string, Id) -> Interaction, op: LensOp) {
    op.OpSync? ==>
      && NoneOnItself(op.states) && KindsAgree(op.entities)
      && forall id :: id in op.states && op.states[id].interaction.Some? ==>
                        op.states[id].interaction.value == book(op.epoch, op.states[id].interaction.value.id)
  }

  ghost predicate Booked(book: (string, Id) -> Interaction, l: Lens) {
    forall id :: id in l.current ==> l.current[id].action == book(l.epoch, l.current[id].action.id)
  }

  /** A run of the lens on any entities and any work states filed under their agents. */
  ghost predicate IsLensRun(ph: Physics, lenses: seq<Lens>, ops: seq<LensOp>) {
    && |lenses| == |ops| + 1 && lenses[0] == Closed
    && forall k :: 0 <= k < |ops| ==> LensStep(ph, lenses[k], ops[k], lenses[k + 1])
  }

  ghost predicate LensStep(ph: Physics, l: Lens, op: LensOp, m: Lens) {
    (op.OpSync? ==> WellKeyed(op.states)) && Listed(l.world) && m == LensApply(ph, l, op)
  }

  /** Nothing this operation is handed is relabelled or refused by the world. */
  ghost predicate OverlooksNone(ph: Physics, l: Lens, op: LensOp)
    requires Listed(l.world)
  {
    op.OpSync? ==>
      forall id :: !Overlooked(Brought(ph, l, op.entities, op.time, op.epoch), Actors(op.entities), op.states, id)
  }

  lemma {:induction false} NeverOverlooked(ph: Physics, book: (string, Id) -> Interaction, l: Lens, op: LensOp, id: Id)
    requires Linked(l) && Booked(book, l) && op.OpSync? && WellKeyed(op.states) && Reliable(book, op)
    ensures !Overlooked(Brought(ph, l, op.entities, op.time, op.epoch), Actors(op.entities), op.states, id)
  {
    hide Sync, Near, Linked, Unplaceable, KindsAgree;
    AllPlaceable(ph, l, op.entities, op.states, op.time, op.epoch, id);
  }

  lemma {:induction false} SyncBooked(ph: Physics, book: (string, Id) -> Interaction, l: Lens, op: LensOp)
    requires Linked(l) && Booked(book, l) && op.OpSync? && WellKeyed(op.states) && Reliable(book, op)
    ensures Booked(book, LensSync(ph, l, op.entities, op.states, op.time, op.epoch))
  {
    hide LensSync, Brought, Sound, Listed, Near;
    var n := LensSync(ph, l, op.entities, op.states, op.time, op.epoch);
    forall id | id in n.current
      ensures n.current[id].action == book(n.epoch, n.current[id].action.id)
    {
      SyncHolds(ph, l, op.entities, op.states, op.time, op.epoch, id);
    }
  }

  lemma {:induction false} AdvanceLinked(ph: Physics, l: Lens, seconds: real, reduced: bool)
    requires Linked(l)
    ensures Linked(l.(world := Advance(ph, l.world, seconds, reduced)))
  {
    hide Advance, Sound, Listed, IntentOf;
    AdvanceKeeps(ph, l.world, seconds, reduced);
  }

  /** Overlooked work is held by the lens and not shown, so the lens is no longer linked. */
  lemma {:induction false} OverlookedUnlinks(ph: Physics, l: Lens, op: LensOp, id: Id)
    requires Linked(l) && op.OpSync? && WellKeyed(op.states)
    requires Overlooked(Brought(ph, l, op.entities, op.time, op.epoch), Actors(op.entities), op.states, id)
    ensures !Linked(LensSync(ph, l, op.entities, op.states, op.time, op.epoch))
  {
    BroughtReady(ph, l, op.entities, op.time, op.epoch);
    OverlookedIsActor(Brought(ph, l, op.entities, op.time, op.epoch), Actors(op.entities), op.states, id);
    hide LensSync, Brought, IntentOf, Sound, Listed, Expected, Overlooked;
    SyncShows(ph, l, op.entities, op.states, op.time, op.epoch, id);
    SyncHolds(ph, l, op.entities, op.states, op.time, op.epoch, id);
  }

  lemma {:induction false} OverlookedIsActor(l: Lens, actors: seq<Id>, states: States, id: Id)
    requires Overlooked(l, actors, states, id)
    ensures id in actors && id in l.world.bodies
  {
    hide Near;
  }

  lemma {:induction false} LensStepLinks(ph: Physics, l: Lens, op: LensOp, m: Lens)
    requires Linked(l) && LensStep(ph, l, op, m)
    ensures Linked(m) <==> OverlooksNone(ph, l, op)
  {
    hide LensSync, Linked, Brought, Advance, Overlooked;
    if op.OpAdvance? {
      AdvanceLinked(ph, l, op.seconds, op.reduced);
    } else if OverlooksNone(ph, l, op) {
      SyncLinks(ph, l, op.entities, op.states, op.time, op.epoch);
    } else {
      var id :| Overlooked(Brought(ph, l, op.entities, op.time, op.epoch), Actors(op.entities), op.states, id);
      OverlookedUnlinks(ph, l, op, id);
    }
  }

  lemma {:induction false} LinkedSoFar(ph: Physics, lenses: seq<Lens>, ops: seq<LensOp>, n: nat)
    requires IsLensRun(ph, lenses, ops) && n < |lenses|
    requires forall k :: 0 <= k < n ==> Listed(lenses[k].world) && OverlooksNone(ph, lenses[k], ops[k])
    ensures Linked(lenses[n])
  {
    hide Linked, LensStep, OverlooksNone;
    if n == 0 {
      ClosedLinked((e, i) => Interaction("", "", "", None));
    } else {
      LinkedSoFar(ph, lenses, ops, n - 1);
      assert LensStep(ph, lenses[n - 1], ops[n - 1], lenses[n - 1 + 1]);
      LensStepLinks(ph, lenses[n - 1], ops[n - 1], lenses[n]);
    }
  }

  /**
   In every run, with entities removed, returned and listed under any kinds, advances, epoch changes and rewinds: the
   world shows exactly the work the lens holds at every moment, exactly if no sync overlooks any.
   */
  lemma {:induction false} EveryLensRunLinked(ph: Physics, lenses: seq<Lens>, ops: seq<LensOp>)
    requires IsLensRun(ph, lenses, ops)
    ensures (forall n :: 0 <= n < |lenses| ==> Linked(lenses[n])) <==>
            (forall k :: 0 <= k < |ops| ==> Listed(lenses[k].world) && OverlooksNone(ph, lenses[k], ops[k]))
  {
    hide Linked, LensStep, OverlooksNone;
    if forall n :: 0 <= n < |lenses| ==> Linked(lenses[n]) {
      forall k | 0 <= k < |ops|
        ensures Listed(lenses[k].world) && OverlooksNone(ph, lenses[k], ops[k])
      {
        assert LensStep(ph, lenses[k], ops[k], lenses[k + 1]) && Linked(lenses[k]) && Linked(lenses[k + 1]);
        LinkedListed(lenses[k]);
        LensStepLinks(ph, lenses[k], ops[k], lenses[k + 1]);
      }
    }
    if forall k :: 0 <= k < |ops| ==> Listed(lenses[k].world) && OverlooksNone(ph, lenses[k], ops[k]) {
      forall n | 0 <= n < |lenses|
        ensures Linked(lenses[n])
      {
        LinkedSoFar(ph, lenses, ops, n);
      }
    }
  }

  lemma {:induction false} LinkedListed(l: Lens)
    requires Linked(l)
    ensures Listed(l.world)
  {
  }

  /** Where names mean one interaction, kinds agree and nobody works on themselves, nothing is ever overlooked. */
  lemma {:induction false} ReliableRunsOverlookNone(ph: Physics, book: (string, Id) -> Interaction, lenses: seq<Lens>,
                                                    ops: seq<LensOp>, n: nat)
    requires IsLensRun(ph, lenses, ops) && n < |lenses| && forall k :: 0 <= k < |ops| ==> Reliable(book, ops[k])
    ensures Linked(lenses[n]) && Booked(book, lenses[n])
    ensures forall k :: 0 <= k < n ==> Listed(lenses[k].world) && OverlooksNone(ph, lenses[k], ops[k])
  {
    hide LensSync, Linked, Booked, Advance, Overlooked, Brought;
    if n == 0 {
      ClosedLinked(book);
    } else {
      var l, op := lenses[n - 1], ops[n - 1];
      ReliableRunsOverlookNone(ph, book, lenses, ops, n - 1);
      assert LensStep(ph, l, op, lenses[n - 1 + 1]);
      LinkedListed(l);
      if op.OpSync? {
        forall id
          ensures !Overlooked(Brought(ph, l, op.entities, op.time, op.epoch), Actors(op.entities), op.states, id)
        {
          NeverOverlooked(ph, book, l, op, id);
        }
        SyncBooked(ph, book, l, op);
      } else {
        StillBooked(book, l, lenses[n]);
      }
      LensStepLinks(ph, l, op, lenses[n]);
    }
  }

  lemma {:induction false} ClosedLinked(book: (string, Id) -> Interaction)
    ensures Linked(Closed) && Booked(book, Closed)
  {
    EmptyValid();
  }

  lemma {:induction false} StillBooked(book: (string, Id) -> Interaction, l: Lens, m: Lens)
    requires Booked(book, l) && m.current == l.current && m.epoch == l.epoch
    ensures Booked(book, m)
  {
  }

  /**
   In every run that has overlooked nothing so far, a body listed in the next sync then shows its work state's
   interaction and waiting flag when the target is present and near, and nothing otherwise, exactly if that sync does
   not overlook it.
   */
  lemma {:induction false} LensMirrorsWork(ph: Physics, lenses: seq<Lens>, ops: seq<LensOp>, n: nat, id: Id)
    requires IsLensRun(ph, lenses, ops) && n < |ops| && ops[n].OpSync? && id in Ids(ops[n].entities)
    requires forall k :: 0 <= k < n ==> Listed(lenses[k].world) && OverlooksNone(ph, lenses[k], ops[k])
    ensures Listed(lenses[n].world)
    ensures var op, after := ops[n], lenses[n + 1].world.bodies;
            id in after &&
            (IntentOf(after[id]) == Expected(after, Actors(op.entities), op.states, id) <==>
             !Overlooked(Brought(ph, lenses[n], op.entities, op.time, op.epoch), Actors(op.entities), op.states, id))
  {
    hide LensSync, Linked, IntentOf, Expected, Overlooked, OverlooksNone, Brought;
    var l, op := lenses[n], ops[n];
    LinkedSoFar(ph, lenses, ops, n);
    LinkedListed(l);
    assert LensStep(ph, l, op, lenses[n + 1]);
    SyncShows(ph, l, op.entities, op.states, op.time, op.epoch, id);
    SyncHolds(ph, l, op.entities, op.states, op.time, op.epoch, id);
  }

  /** Work states read from a trace are filed under their own agents. */
  lemma {:induction false} ScenesAreKeyed(events: seq<Event>)
    ensures WellKeyed(SceneOf(events))
  {
    if events != [] {
      ScenesAreKeyed(events[..|events| - 1]);
    }
  }

  /** A sync in which one actor's work is next to it is wanted as it stands. */
  lemma {:induction false} WantedHere(ph: Physics, l: Lens, entities: seq<Entity>, states: States, actor: Entity,
                                      host: Entity)
    requires Linked(l) && actor in entities && host in entities && actor.kind == Agent && actor.home == host.home
    requires forall e, f :: e in entities && f in entities && e.id == f.id ==> e == f
    requires actor.id in states && states[actor.id].interaction.Some?
             && states[actor.id].interaction.value.targetId == host.id
    ensures actor.id in Actors(entities)
    ensures Wanted(Brought(ph, l, entities, 0.0, "").world.bodies, Actors(entities), states, actor.id)
            == states[actor.id].interaction
  {
    hide Sync, Sound, Listed;
    EmptyValid();
    ActorsListed(entities, actor.id);
    SyncKinds(ph, Turned(l, 0.0, "").world, entities, actor);
    SyncKinds(ph, Turned(l, 0.0, "").world, entities, host);
  }

  /** Work to be seen, from the inputs alone: the actor is listed as an agent, its target too, at most 1200 apart. */
  ghost predicate InReach(entities: seq<Entity>, states: States, id: Id, action: Interaction) {
    && id in states && states[id].interaction == Some(action)
    && exists e, t :: e in entities && t in entities && e.id == id && e.kind == Agent && t.id == action.targetId
         && WithinReach(e.home, t.home)
  }

  predicate WithinReach(a: Point, b: Point) {
    (a.x - b.x) * (a.x - b.x) + (a.y - b.y) * (a.y - b.y) <= 1440000.0
  }

  /** Every entity has its body at its own home. */
  ghost predicate AtHomes(bodies: Bodies, entities: seq<Entity>) {
    && bodies.Keys == Ids(entities)
    && forall e :: e in entities ==> e.id in bodies && bodies[e.id].home == e.home
  }

  lemma {:induction false} BroughtHome(ph: Physics, l: Lens, entities: seq<Entity>, time: real, epoch: string)
    requires Linked(l) && forall e, f :: e in entities && f in entities && e.id == f.id ==> e == f
    ensures AtHomes(Brought(ph, l, entities, time, epoch).world.bodies, entities)
  {
    hide Sync, Sound, Listed;
    EmptyValid();
    var w := Turned(l, time, epoch).world;
    SyncKeeps(ph, w, entities);
    forall e | e in entities
      ensures e.id in Sync(ph, w, entities).bodies && Sync(ph, w, entities).bodies[e.id].home == e.home
    {
      SyncKinds(ph, w, entities, e);
    }
  }

  /** With bodies at their homes, what the lens wants of an agent is its work in reach. */
  lemma {:induction false} WantedInReach(bodies: Bodies, entities: seq<Entity>, states: States, id: Id,
                                         action: Interaction)
    requires AtHomes(bodies, entities)
    ensures Wanted(bodies, Actors(entities), states, id) == Some(action) <==> InReach(entities, states, id, action)
  {
    hide Actors;
    ActorsListed(entities, id);
    if InReach(entities, states, id, action) {
      var e, t :| e in entities && t in entities && e.id == id && e.kind == Agent && t.id == action.targetId
        && WithinReach(e.home, t.home);
      assert bodies[e.id].home == e.home && bodies[t.id].home == t.home;
      assert Near(bodies[id].home, bodies[action.targetId].home);
    }
    if Wanted(bodies, Actors(entities), states, id) == Some(action) {
      var e :| e in entities && e.id == id && e.kind == Agent;
      var t :| t in entities && t.id == action.targetId;
      assert bodies[e.id].home == e.home && bodies[t.id].home == t.home;
      assert WithinReach(e.home, t.home);
    }
  }

  /** After a sync that does not overlook it, a listed body shows exactly its work in reach, with its waiting flag. */
  lemma {:induction false} SyncShowsReach(ph: Physics, l: Lens, entities: seq<Entity>, states: States, time: real,
                                          epoch: string, id: Id)
    requires Linked(l) && WellKeyed(states) && id in Ids(entities)
    requires forall e, f :: e in entities && f in entities && e.id == f.id ==> e == f
    requires !Overlooked(Brought(ph, l, entities, time, epoch), Actors(entities), states, id)
    ensures var n := LensSync(ph, l, entities, states, time, epoch).world.bodies;
            && id in n
            && (forall action :: InReach(entities, states, id, action) ==>
                  IntentOf(n[id]) == Intent(Some(action), states[id].waiting))
            && ((forall action :: !InReach(entities, states, id, action)) ==> IntentOf(n[id]) == Idle)
  {
    hide LensSync, IntentOf, Overlooked, Brought, InReach, Wanted, AtHomes, Sound, Listed;
    SyncShows(ph, l, entities, states, time, epoch, id);
    BroughtHome(ph, l, entities, time, epoch);
    var bodies := Brought(ph, l, entities, time, epoch).world.bodies;
    hide Linked;
    forall action
      ensures Wanted(bodies, Actors(entities), states, id) == Some(action) <==> InReach(entities, states, id, action)
    {
      WantedInReach(bodies, entities, states, id, action);
    }
  }

  /** A sync with sound inputs after which an agent is not seen doing its work. */
  ghost predicate Missed(ph: Physics, l: Lens, entities: seq<Entity>, states: States, id: Id) {
    && Linked(l) && WellKeyed(states)
    && var n := LensSync(ph, l, entities, states, 0.0, "").world.bodies;
       id in n && IntentOf(n[id]) != Expected(n, Actors(entities), states, id)
  }

  /** Next to its actor, new work under a name the lens already holds is missed. */
  lemma {:induction false} RelabelledIsMissed(ph: Physics, l: Lens, entities: seq<Entity>, states: States,
                                              actor: Entity, host: Entity)
    requires Linked(l) && WellKeyed(states) && l.epoch == "" && l.time == 0.0
    requires actor in entities && host in entities && actor.kind == Agent && actor.home == host.home
    requires forall e, f :: e in entities && f in entities && e.id == f.id ==> e == f
    requires actor.id in states && states[actor.id].interaction.Some?
             && states[actor.id].interaction.value.targetId == host.id
    requires actor.id in l.current && l.current[actor.id].action.id == states[actor.id].interaction.value.id
    requires l.current[actor.id].action != states[actor.id].interaction.value
    ensures Missed(ph, l, entities, states, actor.id)
  {
    WantedHere(ph, l, entities, states, actor, host);
    hide LensSync, IntentOf, Near, Sync, Listed, Sound, KindsAgree, WellKeyed, Linked, Wanted;
    SyncShows(ph, l, entities, states, 0.0, "", actor.id);
    SyncHolds(ph, l, entities, states, 0.0, "", actor.id);
  }

  /** The lens after its first sync with one agent at work next to it. */
  lemma {:induction false} FirstSync(ph: Physics, entities: seq<Entity>, states: States, actor: Entity, host: Entity)
    requires WellKeyed(states) && NoneOnItself(states)
    requires actor in entities && host in entities && actor.kind == Agent && actor.home == host.home
    requires forall e, f :: e in entities && f in entities && e.id == f.id ==> e == f
    requires actor.id in states && states[actor.id].interaction.Some?
             && states[actor.id].interaction.value.targetId == host.id
    ensures Listed(Closed.world)
    ensures var l := LensSync(ph, Closed, entities, states, 0.0, "");
            && Linked(l) && l.epoch == "" && l.time == 0.0
            && actor.id in l.current && l.current[actor.id].action == states[actor.id].interaction.value
  {
    ClosedLinked((e, i) => states[actor.id].interaction.value);
    WantedHere(ph, Closed, entities, states, actor, host);
    forall id
      ensures !Overlooked(Brought(ph, Closed, entities, 0.0, ""), Actors(entities), states, id)
    {
      AllPlaceable(ph, Closed, entities, states, 0.0, "", id);
    }
    hide LensSync, IntentOf, Near, Sync, Sound, KindsAgree, WellKeyed, Wanted, Brought;
    SyncLinks(ph, Closed, entities, states, 0.0, "");
    SyncHolds(ph, Closed, entities, states, 0.0, "", actor.id);
  }

  /** Handing the lens a new target under a name it already holds leaves the new work unseen. */
  lemma {:induction false} RetargetingIsMissed(ph: Physics)
    ensures exists l, entities, states, id :: Missed(ph, l, entities, states, id)
  {
    hide LensSync, Missed, Linked, Listed;
    var home := Point(0.0, 0.0);
    var actor, host, next := Entity("a", Agent, home), Entity("h", Destination, home), Entity("n", Destination, home);
    var entities := [actor, host, next];
    var first, second := Interaction("w", "a", "h", None), Interaction("w", "a", "n", None);
    var before := map["a" := Unseen.(interaction := Some(first))];
    var after := map["a" := Unseen.(interaction := Some(second))];
    FirstSync(ph, entities, before, actor, host);
    var l := LensSync(ph, Closed, entities, before, 0.0, "");
    RelabelledIsMissed(ph, l, entities, after, actor, next);
  }

  /** An agent at work on itself is held by the lens as working and never seen at it. */
  lemma {:induction false} SelfWorkIsMissed(ph: Physics)
    ensures exists entities, states, id :: Missed(ph, Closed, entities, states, id)
  {
    var actor := Entity("a", Agent, Point(0.0, 0.0));
    var action := Interaction("w", "a", "a", None);
    var states := map["a" := Unseen.(interaction := Some(action))];
    ClosedLinked((e, i) => action);
    WantedHere(ph, Closed, [actor], states, actor, actor);
    hide LensSync, IntentOf, Sync, Listed, Sound, Linked, Wanted, Brought;
    SyncShows(ph, Closed, [actor], states, 0.0, "", "a");
    SyncHolds(ph, Closed, [actor], states, 0.0, "", "a");
    assert Missed(ph, Closed, [actor], states, "a");
  }
}
