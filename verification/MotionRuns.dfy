/** What every run of the motion world keeps, whatever the physics does. */
module MotionRuns {
  import opened Common
  import opened Interactions
  import opened MotionWorld

  /** The queued-else-attached interaction and its waiting flag. */
  function IntentOf(b: Body): Intent {
    if b.queued.Some? then Intent(b.queued, b.queuedWaiting)
    else if b.attachment.Some? then Intent(Some(b.attachment.value.interaction), b.waiting)
    else Idle
  }

  /** The host link a body occupies a slot with, if any. */
  function Anchor(b: Body): Option<Attachment> {
    if b.attachment.Some? then b.attachment else b.departing
  }

  /** The consistency of one body's phase, links and flags. */
  predicate Coherent(b: Body) {
    && !(b.attachment.Some? && b.departing.Some?)
    && (b.departing.Some? <==> b.phase == Detaching)
    && (b.departing.Some? ==> b.releaseGoal.Some?)
    && (b.queued.Some? ==> b.departing.Some?)
    && (b.queuedWaiting ==> b.queued.Some?)
    && (b.attachment.Some? <==> b.phase in {Approaching, Docking, Engaged, Waiting})
    && (b.phase == Waiting ==> b.waiting)
    && (b.phase == Engaged ==> !b.waiting)
    && (b.waiting ==> b.attachment.Some?)
    && b.age >= 0.0 && (b.phase == Detaching ==> b.age < 0.32)
  }

  /** Two bodies anchored to one host never share a slot. */
  ghost predicate SlotsApart(bodies: Bodies) {
    forall i, j {:trigger Clear(bodies[i], bodies[j])} :: i in bodies && j in bodies && i != j ==>
      Clear(bodies[i], bodies[j])
  }

  predicate Clear(a: Body, b: Body) {
    Anchor(a).Some? && Anchor(b).Some? && Anchor(a).value.interaction.targetId == Anchor(b).value.interaction.targetId
    ==> Anchor(a).value.slot != Anchor(b).value.slot
  }

  /** Nobody is linked to itself, and every link belongs to the body that carries it. */
  predicate OwnWork(id: Id, b: Body) {
    && (Anchor(b).Some? ==> Anchor(b).value.interaction.agentId == id != Anchor(b).value.interaction.targetId)
    && (b.queued.Some? ==> b.queued.value.agentId == id != b.queued.value.targetId)
  }

  ghost predicate Sound(bodies: Bodies) {
    && (forall id :: id in bodies ==> Coherent(bodies[id]) && OwnWork(id, bodies[id]))
    && SlotsApart(bodies)
  }

  ghost predicate Valid(w: World) {
    Listed(w) && Sound(w.bodies)
  }

  /** Same bodies of the same kinds, with the same intents. */
  ghost predicate SameIntents(before: Bodies, after: Bodies) {
    && before.Keys == after.Keys
    && forall id :: id in before ==> IntentOf(after[id]) == IntentOf(before[id]) && after[id].kind == before[id].kind
  }

  // ---------------------------------------------------------------- single operations

  lemma {:induction false} AttachKeeps(bodies: Bodies, id: Id, action: Interaction)
    requires id in bodies && Anchor(bodies[id]).None? && action.agentId == id != action.targetId
    requires forall j :: j in bodies && j != id ==> Coherent(bodies[j]) && OwnWork(j, bodies[j])
    requires SlotsApart(bodies)
    ensures Sound(Attach(bodies, id, action))
  {
    var after := Attach(bodies, id, action);
    var taken := Occupied(bodies, action.targetId);
    forall i, j | i in after && j in after && i != j
      ensures Clear(after[i], after[j])
    {
      assert Clear(bodies[i], bodies[j]);
      if i == id && Anchor(bodies[j]).Some? && Anchor(bodies[j]).value.interaction.targetId == action.targetId {
        assert Anchor(bodies[j]).value.slot in SlotsAt(bodies[j], action.targetId);
        assert Anchor(bodies[j]).value.slot in taken;
      }
      if j == id && Anchor(bodies[i]).Some? && Anchor(bodies[i]).value.interaction.targetId == action.targetId {
        assert Anchor(bodies[i]).value.slot in SlotsAt(bodies[i], action.targetId);
        assert Anchor(bodies[i]).value.slot in taken;
      }
    }
  }

  /** The bodies other than `id` that hold a slot at `host`. */
  ghost function OthersAt(bodies: Bodies, id: Id, host: Id): set<Id> {
    set j | j in bodies && j != id && Anchor(bodies[j]).Some? && Anchor(bodies[j]).value.interaction.targetId == host
  }

  /** Attaching takes the least free slot, never beyond the number of other bodies already there. */
  lemma {:induction false} SlotBound(bodies: Bodies, id: Id, action: Interaction)
    requires Sound(bodies) && id in bodies && Anchor(bodies[id]).None?
    ensures Attach(bodies, id, action)[id].attachment.value.slot <= |OthersAt(bodies, id, action.targetId)|
  {
    var others := OthersAt(bodies, id, action.targetId);
    var taken := Occupied(bodies, action.targetId);
    forall s | s in taken
      ensures exists j :: j in others && Anchor(bodies[j]).value.slot == s
    {
      var j :| j in bodies && s in SlotsAt(bodies[j], action.targetId);
      SlotIsAnchor(bodies[j], action.targetId, s);
      assert j in others;
    }
    ImageNoLarger(bodies, others, taken);
  }

  lemma {:induction false} SlotIsAnchor(b: Body, host: Id, s: nat)
    requires Coherent(b) && s in SlotsAt(b, host)
    ensures Anchor(b).Some? && Anchor(b).value.interaction.targetId == host && Anchor(b).value.slot == s
  {
  }

  lemma {:induction false} ImageNoLarger(bodies: Bodies, others: set<Id>, taken: set<nat>)
    requires forall j :: j in others ==> j in bodies && Anchor(bodies[j]).Some?
    requires forall s :: s in taken ==> exists j :: j in others && Anchor(bodies[j]).value.slot == s
    ensures |taken| <= |others|
    decreases |taken|
  {
    if taken != {} {
      var s :| s in taken;
      var j :| j in others && Anchor(bodies[j]).value.slot == s;
      forall t | t in taken - {s}
        ensures exists k :: k in others - {j} && Anchor(bodies[k]).value.slot == t
      {
        var k :| k in others && Anchor(bodies[k]).value.slot == t;
        assert k in others - {j};
      }
      ImageNoLarger(bodies, others - {j}, taken - {s});
    }
  }

  /** Replacing one body by a coherent one with the same or no anchor keeps everything sound. */
  lemma {:induction false} ReplaceKeeps(bodies: Bodies, id: Id, b: Body)
    requires Sound(bodies) && id in bodies && Coherent(b) && OwnWork(id, b)
    requires Anchor(b) == Anchor(bodies[id]) || Anchor(b).None?
    ensures Sound(bodies[id := b])
  {
    var after := bodies[id := b];
    forall i, j | i in after && j in after && i != j
      ensures Clear(after[i], after[j])
    {
      assert Clear(bodies[i], bodies[j]);
    }
  }

  /** Everything but home, motion and outcome is as it was. */
  predicate SameLinks(a: Body, b: Body) {
    && a.kind == b.kind && a.attachment == b.attachment && a.departing == b.departing && a.phase == b.phase
    && a.queued == b.queued && a.queuedWaiting == b.queuedWaiting
    && a.waiting == b.waiting && a.releaseGoal == b.releaseGoal && a.age == b.age
  }

  /** Moving or ageing bodies touches nothing a run must keep. */
  lemma {:induction false} SameLinksKeep(before: Bodies, after: Bodies)
    requires Sound(before) && before.Keys == after.Keys
    requires forall id :: id in before ==> SameLinks(before[id], after[id])
    ensures Sound(after) && SameIntents(before, after)
  {
    forall id | id in before
      ensures after[id].kind == before[id].kind
      ensures Coherent(after[id]) && OwnWork(id, after[id]) && IntentOf(after[id]) == IntentOf(before[id])
      ensures Anchor(after[id]) == Anchor(before[id])
    {
      assert SameLinks(before[id], after[id]);
    }
    forall i, j | i in after && j in after && i != j
      ensures Clear(after[i], after[j])
    {
      assert Clear(before[i], before[j]);
    }
  }

  lemma {:induction false} ReleaseKeeps(ph: Physics, bodies: Bodies, id: Id, outcome: Option<Outcome>)
    requires Sound(bodies) && id in bodies
    ensures Sound(Release(ph, bodies, id, outcome))
    ensures Release(ph, bodies, id, outcome).Keys == bodies.Keys
    ensures forall j :: j in bodies && j != id ==> Release(ph, bodies, id, outcome)[j] == bodies[j]
    ensures bodies[id].attachment.Some? ==> IntentOf(Release(ph, bodies, id, outcome)[id]) == Idle
  {
    if bodies[id].attachment.Some? {
      ReplaceKeeps(bodies, id, Release(ph, bodies, id, outcome)[id]);
    }
  }

  /** The end of a departure keeps soundness and what the body is about to do. */
  lemma {:induction false} TakeUpKeeps(bodies: Bodies, id: Id, b: Body)
    requires Sound(bodies) && id in bodies && b.queued.Some?
    requires b.queued == bodies[id].queued && b.queuedWaiting == bodies[id].queuedWaiting
    requires b.departing == bodies[id].departing && b.attachment == bodies[id].attachment && b.kind == bodies[id].kind
    ensures var freed := bodies[id := b.(departing := None)];
            Sound(TakeUp(freed, id)) && SameIntents(bodies, TakeUp(freed, id))
  {
    var freed := bodies[id := b.(departing := None)];
    assert Coherent(bodies[id]) && OwnWork(id, bodies[id]);
    assert SlotsApart(freed) by {
      forall i, j | i in freed && j in freed && i != j
        ensures Clear(freed[i], freed[j])
      {
        assert Clear(bodies[i], bodies[j]);
      }
    }
    var action := b.queued.value;
    AttachKeeps(freed, id, action);
    var attached := Attach(freed, id, action);
    ReplaceKeeps(attached, id, attached[id].(waiting := b.queuedWaiting));
  }

  // ---------------------------------------------------------------- dispatch

  /** An event changes only the body it is about, and changes its intent as the plain reading says. */
  lemma {:induction false} StartedKeeps(ph: Physics, bodies: Bodies, action: Interaction)
    requires Sound(bodies) && Startable(bodies, action)
    ensures Sound(Started(ph, bodies, action))
    ensures Started(ph, bodies, action).Keys == bodies.Keys
    ensures forall j :: j in bodies && j != action.agentId ==> Started(ph, bodies, action)[j] == bodies[j]
    ensures !Names(IntentOf(bodies[action.agentId]).interaction, action.id) ==>
              IntentOf(Started(ph, bodies, action)[action.agentId]) == Intent(Some(action), false)
    ensures Names(IntentOf(bodies[action.agentId]).interaction, action.id) ==> Started(ph, bodies, action) == bodies
    ensures Started(ph, bodies, action)[action.agentId].kind == bodies[action.agentId].kind
  {
    var id := action.agentId;
    var b := bodies[id];
    assert Coherent(b);
    if (b.attachment.Some? && b.attachment.value.interaction.id == action.id) || Names(b.queued, action.id) {
    } else if b.attachment.Some? || b.departing.Some? {
      ReleaseKeeps(ph, bodies, id, None);
      var released := Release(ph, bodies, id, None);
      ReplaceKeeps(released, id, released[id].(queued := Some(action), queuedWaiting := false));
    } else {
      AttachKeeps(bodies, id, action);
    }
  }

  lemma {:induction false} ToldKeeps(ph: Physics, bodies: Bodies, e: Event)
    requires Sound(bodies) && !e.Start? && e.agentId in bodies
    ensures Sound(Told(ph, bodies, e))
    ensures Told(ph, bodies, e).Keys == bodies.Keys
    ensures forall j :: j in bodies && j != e.agentId ==> Told(ph, bodies, e)[j] == bodies[j]
    ensures IntentOf(Told(ph, bodies, e)[e.agentId]) == Heard(IntentOf(bodies[e.agentId]), e)
    ensures Told(ph, bodies, e)[e.agentId].kind == bodies[e.agentId].kind
  {
    var b := bodies[e.agentId];
    assert Coherent(b);
    if !Names(b.queued, e.interactionId) && b.attachment.Some? && e.End? {
      ReleaseKeeps(ph, bodies, e.agentId, Some(e.outcome));
    } else {
      ReplaceKeeps(bodies, e.agentId, Told(ph, bodies, e)[e.agentId]);
    }
  }

  lemma {:induction false} DispatchKeeps(ph: Physics, w: World, e: Event)
    requires Valid(w)
    ensures Valid(Dispatch(ph, w, e))
    ensures Dispatch(ph, w, e).seen == w.seen + {e.id}
    ensures Dispatch(ph, w, e).order == w.order
    ensures Dispatch(ph, w, e).bodies.Keys == w.bodies.Keys
    ensures forall id :: id in w.bodies && id != Subject(e) ==> Dispatch(ph, w, e).bodies[id] == w.bodies[id]
    ensures forall id :: id in w.bodies ==> Dispatch(ph, w, e).bodies[id].kind == w.bodies[id].kind
  {
    if e.id !in w.seen {
      if e.Start? && Startable(w.bodies, e.interaction) {
        StartedKeeps(ph, w.bodies, e.interaction);
      } else if !e.Start? && e.agentId in w.bodies {
        ToldKeeps(ph, w.bodies, e);
      }
    }
  }

  /** A start that changes nothing: it cannot be placed, or its agent is on that work already. */
  predicate PassedOver(bodies: Bodies, e: Event)
    requires Subject(e) in bodies
  {
    e.Start? && (!Startable(bodies, e.interaction) || Names(IntentOf(bodies[Subject(e)]).interaction, e.interaction.id))
  }

  /**
   An event is heard by its agent exactly as the plain reading has it, unless it was seen before or is passed over.
   */
  lemma {:induction false} DispatchHeard(ph: Physics, w: World, e: Event)
    requires Valid(w) && Subject(e) in w.bodies
    ensures Subject(e) in Dispatch(ph, w, e).bodies
    ensures IntentOf(Dispatch(ph, w, e).bodies[Subject(e)])
            == if e.id in w.seen || PassedOver(w.bodies, e) then IntentOf(w.bodies[Subject(e)])
               else Heard(IntentOf(w.bodies[Subject(e)]), e)
  {
    hide Started, Told, Sound, IntentOf;
    if e.id !in w.seen {
      if e.Start? && Startable(w.bodies, e.interaction) {
        StartedKeeps(ph, w.bodies, e.interaction);
      } else if !e.Start? {
        ToldKeeps(ph, w.bodies, e);
      }
    }
  }

  // ---------------------------------------------------------------- sync

  /** The bodies of `before` keep links and intents; any other body of `after` is idle. */
  ghost predicate Extends(before: Bodies, after: Bodies) {
    && before.Keys <= after.Keys
    && (forall id :: id in before ==>
          IntentOf(after[id]) == IntentOf(before[id]) && after[id].attachment == before[id].attachment)
    && (forall id :: id in after && id !in before ==> IntentOf(after[id]) == Idle && after[id].attachment.None?)
  }

  lemma {:induction false} PlacedKeeps(w: World, e: Entity)
    requires Sound(w.bodies)
    ensures Sound(Placed(w, e).bodies) && Extends(w.bodies, Placed(w, e).bodies)
  {
    var after := Placed(w, e).bodies;
    if e.id in w.bodies {
      ReplaceKeeps(w.bodies, e.id, after[e.id]);
    } else {
      forall i, j | i in after && j in after && i != j
        ensures Clear(after[i], after[j])
      {
        if i != e.id && j != e.id {
          assert Clear(w.bodies[i], w.bodies[j]);
        }
      }
    }
  }

  lemma {:induction false} PlacedAllKeeps(w: World, entities: seq<Entity>)
    requires Sound(w.bodies)
    ensures Sound(PlacedAll(w, entities).bodies) && Extends(w.bodies, PlacedAll(w, entities).bodies)
  {
    if entities != [] {
      PlacedAllKeeps(w, entities[..|entities| - 1]);
      PlacedKeeps(PlacedAll(w, entities[..|entities| - 1]), entities[|entities| - 1]);
    }
  }

  /** The host an attached body would be looked up under has vanished. */
  predicate Abandoned(b: Body, ids: set<Id>) {
    && b.attachment.Some? && b.attachment.value.interaction.targetId != ""
    && b.attachment.value.interaction.targetId !in ids
  }

  lemma {:induction false} OrphanedAllSound(ph: Physics, bodies: Bodies, ids: set<Id>, order: seq<Id>)
    requires Sound(bodies) && Distinct(order) && forall id :: id in order ==> id in bodies
    ensures Sound(OrphanedAll(ph, bodies, ids, order))
    ensures forall id :: id in bodies && id !in order ==> OrphanedAll(ph, bodies, ids, order)[id] == bodies[id]
    ensures forall id :: id in order ==>
              IntentOf(OrphanedAll(ph, bodies, ids, order)[id]) ==
                  if Abandoned(bodies[id], ids) then Idle else IntentOf(bodies[id])
    ensures forall id :: id in bodies ==> OrphanedAll(ph, bodies, ids, order)[id].kind == bodies[id].kind
    ensures forall id :: id in bodies ==> OrphanedAll(ph, bodies, ids, order)[id].home == bodies[id].home
  {
    if order != [] {
      var init, last := order[..|order| - 1], order[|order| - 1];
      OrphanedAllSound(ph, bodies, ids, init);
      assert last !in init;
      ReleaseKeeps(ph, OrphanedAll(ph, bodies, ids, init), last, Some(Cancelled));
    }
  }

  lemma {:induction false} SyncPlacedSound(w: World, ids: set<Id>, entities: seq<Entity>)
    requires Valid(w)
    ensures var kept := w.(order := Kept(w.order, ids), bodies := Remembered(w.bodies, ids));
            Sound(PlacedAll(kept, entities).bodies) && Extends(kept.bodies, PlacedAll(kept, entities).bodies)
  {
    var kept := w.(order := Kept(w.order, ids), bodies := Remembered(w.bodies, ids));
    assert SlotsApart(kept.bodies) by {
      forall i, j | i in kept.bodies && j in kept.bodies && i != j
        ensures Clear(kept.bodies[i], kept.bodies[j])
      {
        assert Clear(w.bodies[i], w.bodies[j]);
      }
    }
    PlacedAllKeeps(kept, entities);
  }

  /** Sync keeps validity; a body that stays keeps its intent unless its host vanished, a new one is idle. */
  lemma {:induction false} SyncKeeps(ph: Physics, w: World, entities: seq<Entity>)
    requires Valid(w)
    ensures Valid(Sync(ph, w, entities))
    ensures Sync(ph, w, entities).seen == w.seen
    ensures Sync(ph, w, entities).bodies.Keys == Ids(entities)
    ensures forall id :: id in Ids(entities) ==>
              IntentOf(Sync(ph, w, entities).bodies[id])
              == if id !in w.bodies || Abandoned(w.bodies[id], Ids(entities)) then Idle else IntentOf(w.bodies[id])
  {
    hide Sound, IntentOf, PlacedAll, OrphanedAll, Kept;
    var ids := Ids(entities);
    var kept := w.(order := Kept(w.order, ids), bodies := Remembered(w.bodies, ids));
    KeptListed(w, ids);
    SyncPlacedSound(w, ids, entities);
    PlacedAllListed(kept, entities);
    var placed := PlacedAll(kept, entities);
    OrphanedAllSound(ph, placed.bodies, ids, placed.order);
  }

  // ---------------------------------------------------------------- integrate

  lemma {:induction false} AgedKeeps(bodies: Bodies, id: Id)
    requires Sound(bodies) && id in bodies
    ensures Sound(Aged(bodies, id)) && SameIntents(bodies, Aged(bodies, id))
  {
    var b := bodies[id].(age := bodies[id].age + STEP, outcomeAge := bodies[id].outcomeAge + STEP);
    assert Coherent(bodies[id]) && OwnWork(id, bodies[id]);
    if b.phase == Detaching && b.age >= RELEASE_SECONDS && b.queued.Some? {
      TakeUpKeeps(bodies, id, b);
    } else {
      ReplaceKeeps(bodies, id, Aged(bodies, id)[id]);
    }
  }

  lemma {:induction false} DockedKeeps(ph: Physics, bodies: Bodies, id: Id)
    requires Sound(bodies) && id in bodies && bodies[id].attachment.Some?
    ensures Sound(Docked(ph, bodies, id)) && SameIntents(bodies, Docked(ph, bodies, id))
    ensures Docked(ph, bodies, id)[id].attachment.Some? && Docked(ph, bodies, id)[id].phase == Docking
  {
    var docking := bodies[id := bodies[id].(phase := Docking, age := 0.0)];
    ReplaceKeeps(bodies, id, docking[id]);
    SameLinksKeep(docking, Docked(ph, bodies, id));
  }

  lemma {:induction false} HeldKeeps(bodies: Bodies, id: Id)
    requires Sound(bodies) && id in bodies && bodies[id].attachment.Some?
    ensures var held := bodies[id := bodies[id].(phase := if bodies[id].waiting then Waiting else Engaged, age := 0.0)];
            Sound(held) && SameIntents(bodies, held)
  {
    ReplaceKeeps(bodies, id, bodies[id].(phase := if bodies[id].waiting then Waiting else Engaged, age := 0.0));
  }

  lemma {:induction false} PhasedKeeps(ph: Physics, bodies: Bodies, time: real, id: Id)
    requires Sound(bodies) && id in bodies
    ensures Sound(Phased(ph, bodies, time, id)) && SameIntents(bodies, Phased(ph, bodies, time, id))
  {
    hide Sound, Docked, Coherent, OwnWork, IntentOf, SameIntents;
    SameIntentsAlways(bodies);
    var b := bodies[id];
    if b.attachment.Some? {
      var docked := if b.phase == Approaching && ph.captured(bodies, time, id) then Docked(ph, bodies, id) else bodies;
      if b.phase == Approaching && ph.captured(bodies, time, id) {
        DockedKeeps(ph, bodies, id);
      }
      HeldKeeps(docked, id);
      SameIntentsJoin(bodies, docked, Phased(ph, bodies, time, id));
    } else if b.phase == Returning {
      RestedKeeps(bodies, id);
    }
  }

  lemma {:induction false} RestedKeeps(bodies: Bodies, id: Id)
    requires Sound(bodies) && id in bodies && bodies[id].attachment.None? && bodies[id].phase == Returning
    ensures var rested := bodies[id := bodies[id].(phase := Resting, age := 0.0)];
            Sound(rested) && SameIntents(bodies, rested)
  {
    ReplaceKeeps(bodies, id, bodies[id].(phase := Resting, age := 0.0));
  }

  lemma {:induction false} JudgedAllKeeps(ph: Physics, bodies: Bodies, time: real, order: seq<Id>)
    requires Sound(bodies) && forall id :: id in order ==> id in bodies
    ensures Sound(JudgedAll(ph, bodies, time, order).bodies)
    ensures SameIntents(bodies, JudgedAll(ph, bodies, time, order).bodies)
  {
    if order != [] {
      var init, last := order[..|order| - 1], order[|order| - 1];
      JudgedAllKeeps(ph, bodies, time, init);
      var before := JudgedAll(ph, bodies, time, init).bodies;
      AgedKeeps(before, last);
      PhasedKeeps(ph, Aged(before, last), time, last);
    }
  }

  lemma {:induction false} IntegrateKeeps(ph: Physics, w: World)
    requires Valid(w)
    ensures Valid(Integrate(ph, w)) && SameIntents(w.bodies, Integrate(ph, w).bodies)
    ensures Integrate(ph, w).seen == w.seen
  {
    hide MovedAll, JudgedAll, Sound, SameIntents;
    var t := JudgedAll(ph, w.bodies, w.time + STEP, w.order);
    JudgedAllKeeps(ph, w.bodies, w.time + STEP, w.order);
    MovedKeeps(ph, t);
    SameIntentsJoin(w.bodies, t.bodies, MovedAll(ph, t));
  }

  lemma {:induction false} SameIntentsAlways(bodies: Bodies)
    ensures SameIntents(bodies, bodies)
  {
  }

  lemma {:induction false} SameIntentsJoin(a: Bodies, b: Bodies, c: Bodies)
    requires SameIntents(a, b) && SameIntents(b, c)
    ensures SameIntents(a, c)
  {
  }

  lemma {:induction false} MovedKeeps(ph: Physics, t: Tick)
    requires Sound(t.bodies) && t.forces.Keys == t.bodies.Keys
    ensures Sound(MovedAll(ph, t)) && SameIntents(t.bodies, MovedAll(ph, t))
  {
    SameLinksKeep(t.bodies, MovedAll(ph, t));
  }

  lemma {:induction false} DrainedKeeps(ph: Physics, w: World)
    requires Valid(w)
    ensures Valid(Drained(ph, w)) && SameIntents(w.bodies, Drained(ph, w).bodies)
    ensures Drained(ph, w).seen == w.seen
    decreases ((w.accumulator + SLACK) * 120.0).Floor
  {
    hide Integrate, Sound, SameIntents, IntentOf;
    if w.accumulator + SLACK >= STEP {
      DueShrinks(w.accumulator);
      IntegrateKeeps(ph, w);
      var next := Integrate(ph, w).(accumulator := w.accumulator - STEP);
      DrainedKeeps(ph, next);
      SameIntentsJoin(w.bodies, next.bodies, Drained(ph, next).bodies);
    } else {
      SameIntentsAlways(w.bodies);
    }
  }

  // ---------------------------------------------------------------- settle

  /** Coming to rest at home without a departure keeps everything. */
  lemma {:induction false} StilledKeeps(bodies: Bodies, id: Id, b: Body)
    requires Sound(bodies) && id in bodies
    requires b == bodies[id].(position := b.position, velocity := b.velocity, phase := b.phase, departing := None)
    requires b.phase == if b.attachment.None? then Resting else bodies[id].phase
    requires bodies[id].departing.Some? ==> bodies[id].queued.None?
    ensures Sound(bodies[id := b]) && SameIntents(bodies, bodies[id := b])
  {
    hide SlotsApart;
    assert Coherent(bodies[id]) && OwnWork(id, bodies[id]);
    ReplaceKeeps(bodies, id, b);
  }

  /** A settling body ends its departure and comes to rest at home. */
  lemma {:induction false} GroundedKeeps(bodies: Bodies, id: Id)
    requires Sound(bodies) && id in bodies
    ensures Sound(Grounded(bodies, id)) && SameIntents(bodies, Grounded(bodies, id))
    ensures Grounded(bodies, id)[id].departing.None?
    ensures forall j :: j in bodies && j != id ==> Grounded(bodies, id)[j] == bodies[j]
  {
    var b := bodies[id];
    if b.departing.Some? && b.queued.Some? {
      TakeUpKeeps(bodies, id, b);
      var taken := TakeUp(bodies[id := b.(departing := None)], id);
      hide Sound, SameIntents, IntentOf, Occupied;
      StilledKeeps(taken, id, Grounded(bodies, id)[id]);
      SameIntentsJoin(bodies, taken, Grounded(bodies, id));
    } else {
      hide Sound, SameIntents, IntentOf, TakeUp;
      StilledKeeps(bodies, id, Grounded(bodies, id)[id]);
      assert bodies[id := b.(departing := None)][id := Grounded(bodies, id)[id]]
             == bodies[id := Grounded(bodies, id)[id]];
    }
  }

  lemma {:induction false} GroundedAllKeeps(bodies: Bodies, order: seq<Id>)
    requires Sound(bodies) && forall id :: id in order ==> id in bodies
    ensures Sound(GroundedAll(bodies, order)) && SameIntents(bodies, GroundedAll(bodies, order))
    ensures forall id :: id in order ==> GroundedAll(bodies, order)[id].departing.None?
  {
    if order != [] {
      GroundedAllKeeps(bodies, order[..|order| - 1]);
      GroundedKeeps(GroundedAll(bodies, order[..|order| - 1]), order[|order| - 1]);
    }
  }

  /** Seating moves bodies and settles phases; links, flags and queues stay. */
  ghost predicate Reseated(before: Bodies, after: Bodies) {
    && before.Keys == after.Keys
    && forall id :: id in before ==>
         after[id] == before[id].(position := after[id].position, phase := after[id].phase)
  }

  lemma {:induction false} SeatedKeeps(ph: Physics, s: Seating, id: Id)
    requires Sound(s.bodies) && id in s.bodies && s.visited <= s.bodies.Keys
    ensures Sound(Seated(ph, s, id).bodies) && Reseated(s.bodies, Seated(ph, s, id).bodies)
    decreases |s.bodies.Keys - s.visited|
  {
    if id !in s.visited && s.bodies[id].attachment.Some? {
      var entered := s.(visited := s.visited + {id});
      assert s.bodies.Keys - s.visited == (s.bodies.Keys - entered.visited) + {id};
      var host := s.bodies[id].attachment.value.interaction.targetId;
      var hosted := if host in s.bodies then Seated(ph, entered, host) else entered;
      if host in s.bodies {
        SeatedKeeps(ph, entered, host);
      }
      OrbitingKeeps(ph, hosted.bodies, id);
    }
  }

  lemma {:induction false} OrbitingKeeps(ph: Physics, bodies: Bodies, id: Id)
    requires Sound(bodies) && id in bodies && bodies[id].attachment.Some?
    ensures Sound(Orbiting(ph, bodies, id)) && Reseated(bodies, Orbiting(ph, bodies, id))
  {
    ReplaceKeeps(bodies, id, Orbiting(ph, bodies, id)[id]);
  }

  lemma {:induction false} SeatedAllKeeps(ph: Physics, bodies: Bodies, order: seq<Id>)
    requires Sound(bodies) && forall id :: id in order ==> id in bodies
    ensures Sound(SeatedAll(ph, bodies, order).bodies) && Reseated(bodies, SeatedAll(ph, bodies, order).bodies)
  {
    if order != [] {
      SeatedAllKeeps(ph, bodies, order[..|order| - 1]);
      SeatedKeeps(ph, SeatedAll(ph, bodies, order[..|order| - 1]), order[|order| - 1]);
    }
  }

  lemma {:induction false} SettleKeeps(ph: Physics, w: World)
    requires Valid(w)
    ensures Valid(Settle(ph, w)) && SameIntents(w.bodies, Settle(ph, w).bodies)
    ensures Settle(ph, w).seen == w.seen
  {
    hide Sound, SameIntents, GroundedAll, SeatedAll, Reseated;
    var grounded := GroundedAll(w.bodies, w.order);
    GroundedAllKeeps(w.bodies, w.order);
    SeatedAllKeeps(ph, grounded, w.order);
    ReseatedSame(grounded, SeatedAll(ph, grounded, w.order).bodies);
    SameIntentsJoin(w.bodies, grounded, SeatedAll(ph, grounded, w.order).bodies);
  }

  lemma {:induction false} ReseatedSame(before: Bodies, after: Bodies)
    requires Reseated(before, after)
    ensures SameIntents(before, after)
  {
    forall id | id in before
      ensures IntentOf(after[id]) == IntentOf(before[id]) && after[id].kind == before[id].kind
    {
      assert after[id] == before[id].(position := after[id].position, phase := after[id].phase);
    }
  }

  lemma {:induction false} AdvanceKeeps(ph: Physics, w: World, seconds: real, reduced: bool)
    requires Valid(w)
    ensures Valid(Advance(ph, w, seconds, reduced)) && SameIntents(w.bodies, Advance(ph, w, seconds, reduced).bodies)
    ensures Advance(ph, w, seconds, reduced).seen == w.seen
  {
    if reduced {
      var aged := w.(bodies := Outlasted(w.bodies, seconds));
      SameLinksKeep(w.bodies, aged.bodies);
      SettleKeeps(ph, aged);
    } else {
      DrainedKeeps(ph, w.(accumulator := w.accumulator + Clamped(seconds)));
    }
  }

  // ---------------------------------------------------------------- whole runs

  datatype Operation =
    | OpSync(entities: seq<Entity>)
    | OpDispatch(event: Event)
    | OpAdvance(seconds: real, reduced: bool)
    | OpSettle

  function Apply(ph: Physics, w: World, op: Operation): World
    requires Listed(w)
  {
    match op
    case OpSync(entities) => Sync(ph, w, entities)
    case OpDispatch(event) => Dispatch(ph, w, event)
    case OpAdvance(seconds, reduced) => Advance(ph, w, seconds, reduced)
    case OpSettle => Settle(ph, w)
  }

  lemma {:induction false} ApplyKeeps(ph: Physics, w: World, op: Operation)
    requires Valid(w)
    ensures Valid(Apply(ph, w, op))
  {
    match op
    case OpSync(entities) => SyncKeeps(ph, w, entities);
    case OpDispatch(event) => DispatchKeeps(ph, w, event);
    case OpAdvance(seconds, reduced) => AdvanceKeeps(ph, w, seconds, reduced);
    case OpSettle => SettleKeeps(ph, w);
  }

  /** A run: each world follows from the one before by one operation. */
  ghost predicate IsRun(ph: Physics, worlds: seq<World>, ops: seq<Operation>) {
    && |worlds| == |ops| + 1 && worlds[0] == Empty
    && forall k :: 0 <= k < |ops| ==> Listed(worlds[k]) && worlds[k + 1] == Apply(ph, worlds[k], ops[k])
  }

  /** Every world of every run is valid: phases, links, queues and slots agree throughout. */
  lemma {:induction false} EveryRunStaysValid(ph: Physics, worlds: seq<World>, ops: seq<Operation>, n: nat)
    requires IsRun(ph, worlds, ops) && n < |worlds|
    ensures Valid(worlds[n])
  {
    hide Apply;
    if n > 0 {
      EveryRunStaysValid(ph, worlds, ops, n - 1);
      ApplyKeeps(ph, worlds[n - 1], ops[n - 1]);
    }
  }

  /** Between operations no fixed step is due. */
  lemma {:induction false} EveryRunIsCaughtUp(ph: Physics, worlds: seq<World>, ops: seq<Operation>, n: nat)
    requires IsRun(ph, worlds, ops) && n < |worlds|
    ensures worlds[n].accumulator + SLACK < STEP
  {
    hide Drained, Sync, Dispatch, Settle, PlacedAll, OrphanedAll;
    if n > 0 {
      EveryRunIsCaughtUp(ph, worlds, ops, n - 1);
      AppliedCaughtUp(ph, worlds[n - 1], ops[n - 1]);
    }
  }

  lemma {:induction false} AppliedCaughtUp(ph: Physics, w: World, op: Operation)
    requires Listed(w) && w.accumulator + SLACK < STEP
    ensures Apply(ph, w, op).accumulator + SLACK < STEP
  {
    match op
    case OpSync(entities) =>
      PlacedAllClock(w.(order := Kept(w.order, Ids(entities)), bodies := Remembered(w.bodies, Ids(entities))),
                     entities);
    case OpDispatch(event) =>
    case OpAdvance(seconds, reduced) =>
    case OpSettle =>
  }

  lemma {:induction false} PlacedAllClock(w: World, entities: seq<Entity>)
    ensures PlacedAll(w, entities).accumulator == w.accumulator
  {
    if entities != [] {
      PlacedAllClock(w, entities[..|entities| - 1]);
    }
  }

  // ---------------------------------------------------------------- frame-rate independence

  function Total(frames: seq<real>): real {
    if frames == [] then 0.0 else Total(frames[..|frames| - 1]) + frames[|frames| - 1]
  }

  function Frames(ph: Physics, w: World, frames: seq<real>): World
    requires Listed(w)
    ensures Listed(Frames(ph, w, frames))
  {
    if frames == [] then w
    else Advance(ph, Frames(ph, w, frames[..|frames| - 1]), frames[|frames| - 1], false)
  }

  /** A due step may be taken before or after more time is added. */
  lemma {:induction false} StepThenWait(ph: Physics, w: World, more: real)
    requires Listed(w) && more >= 0.0 && w.accumulator + SLACK >= STEP
    ensures var next := Integrate(ph, w).(accumulator := w.accumulator - STEP);
            Drained(ph, w.(accumulator := w.accumulator + more))
                == Drained(ph, next.(accumulator := next.accumulator + more))
  {
    hide MovedAll, JudgedAll;
    var late := w.(accumulator := w.accumulator + more);
    assert Integrate(ph, late).(accumulator := late.accumulator - STEP)
      == Integrate(ph, w).(accumulator := w.accumulator - STEP + more);
  }

  /** Draining, waiting a while and draining again is draining once at the end. */
  lemma {:induction false} DrainTwice(ph: Physics, w: World, more: real)
    requires Listed(w) && more >= 0.0
    ensures Drained(ph, Drained(ph, w).(accumulator := Drained(ph, w).accumulator + more))
            == Drained(ph, w.(accumulator := w.accumulator + more))
    decreases ((w.accumulator + SLACK) * 120.0).Floor
  {
    hide MovedAll, JudgedAll;
    if w.accumulator + SLACK >= STEP {
      DueShrinks(w.accumulator);
      var next := Integrate(ph, w).(accumulator := w.accumulator - STEP);
      StepThenWait(ph, w, 0.0);
      assert w.(accumulator := w.accumulator + 0.0) == w && next.(accumulator := next.accumulator + 0.0) == next;
      StepThenWait(ph, w, more);
      DrainTwice(ph, next, more);
    }
  }

  lemma {:induction false} OneMoreFrame(ph: Physics, w: World, frames: seq<real>, last: real)
    requires Listed(w) && 0.0 <= last <= LONGEST_FRAME && Total(frames) >= 0.0
    requires Frames(ph, w, frames) ==
             if frames == [] then w else Drained(ph, w.(accumulator := w.accumulator + Total(frames)))
    ensures Frames(ph, w, frames + [last]) == Drained(ph, w.(accumulator := w.accumulator + (Total(frames) + last)))
  {
    assert (frames + [last])[..|frames|] == frames;
    var before := Frames(ph, w, frames);
    assert Frames(ph, w, frames + [last]) == Drained(ph, before.(accumulator := before.accumulator + last));
    if frames != [] {
      var base := w.(accumulator := w.accumulator + Total(frames));
      DrainTwice(ph, base, last);
      assert base.(accumulator := base.accumulator + last) == w.(accumulator := w.accumulator + (Total(frames) + last));
    }
  }

  lemma {:induction false} FramesDrain(ph: Physics, w: World, frames: seq<real>)
    requires Listed(w) && forall f :: f in frames ==> 0.0 <= f <= LONGEST_FRAME
    ensures Total(frames) >= 0.0
    ensures Frames(ph, w, frames) ==
            if frames == [] then w else Drained(ph, w.(accumulator := w.accumulator + Total(frames)))
  {
    if frames != [] {
      var init, last := frames[..|frames| - 1], frames[|frames| - 1];
      assert last in frames && forall f :: f in init ==> f in frames;
      FramesDrain(ph, w, init);
      OneMoreFrame(ph, w, init, last);
      assert frames == init + [last];
    }
  }

  /** However the same elapsed time is cut into frames, the world that results is the same. */
  lemma {:induction false} FrameRateIndependent(ph: Physics, w: World, a: seq<real>, b: seq<real>)
    requires Listed(w) && w.accumulator + SLACK < STEP && Total(a) == Total(b)
    requires forall f :: f in a + b ==> 0.0 <= f <= LONGEST_FRAME
    ensures Frames(ph, w, a) == Frames(ph, w, b)
  {
    hide Integrate;
    assert w.(accumulator := w.accumulator + 0.0) == w && Drained(ph, w) == w;
    assert forall f :: f in a ==> f in a + b;
    assert forall f :: f in b ==> f in a + b;
    FramesDrain(ph, w, a);
    FramesDrain(ph, w, b);
  }
}
