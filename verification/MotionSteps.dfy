/** What time does to every body: each fixed step by a table of phases, and the end of every departure. */
module MotionSteps {
  import opened Common
  import opened Interactions
  import opened MotionWorld
  import opened MotionRuns

  // ---------------------------------------------------------------- one fixed step

  ghost predicate Always(judge: (Bodies, real, Id) -> bool, id: Id) {
    forall bodies, time :: judge(bodies, time, id)
  }

  ghost predicate Never(judge: (Bodies, real, Id) -> bool, id: Id) {
    forall bodies, time :: !judge(bodies, time, id)
  }

  predicate SameWork(a: Body, b: Body) {
    && b.attachment == a.attachment && b.departing == a.departing
    && b.queued == a.queued && b.queuedWaiting == a.queuedWaiting && b.waiting == a.waiting
  }

  /** The phase a step leaves a body in, by what the springs say of it. */
  ghost predicate PhaseFrom(ph: Physics, id: Id, phase: Phase, age: real, b: Body) {
    var settled := if b.waiting then Waiting else Engaged;
    match phase
    case Approaching =>
      || (b.phase == Approaching && b.age == age && !Always(ph.captured, id))
      || (b.phase == Docking && b.age == 0.0 && !Never(ph.captured, id) && !Always(ph.held, id))
      || (b.phase == settled && b.age == 0.0 && !Never(ph.captured, id) && !Never(ph.held, id))
    case Docking =>
      || (b.phase == Docking && b.age == age && !Always(ph.held, id))
      || (b.phase == settled && b.age == 0.0 && !Never(ph.held, id))
    case Returning =>
      || (b.phase == Returning && b.age == age && !Always(ph.arrived, id))
      || (b.phase == Resting && b.age == 0.0 && !Never(ph.arrived, id))
    case _ => b.phase == phase && b.age == age
  }

  /** The departure is over: on to the queued work with its waiting flag, or on the way home. */
  predicate Left(b: Body, after: Body) {
    && after.departing.None? && after.queued.None? && !after.queuedWaiting
    && if b.queued.Some?
       then after.attachment.Some? && after.attachment.value.interaction == b.queued.value
            && after.waiting == b.queuedWaiting
       else after.attachment.None? && !after.waiting && after.phase in {Returning, Resting}
  }

  /** What one step of 1/120 s makes of a body. */
  ghost predicate StepOf(ph: Physics, id: Id, b: Body, after: Body) {
    var age := b.age + 1.0 / 120.0;
    && after.kind == b.kind && after.home == b.home && after.releaseGoal == b.releaseGoal
    && after.outcomeAge == b.outcomeAge + 1.0 / 120.0
    && if b.departing.Some? && age >= 0.32 then
         && Left(b, after) && after.outcome == (if b.queued.Some? then None else b.outcome)
         && PhaseFrom(ph, id, if b.queued.Some? then Approaching else Returning, 0.0, after)
       else SameWork(b, after) && after.outcome == b.outcome && PhaseFrom(ph, id, b.phase, age, after)
  }

  /** Nothing but where it is and how fast it goes. */
  predicate SameButMotion(a: Body, b: Body) {
    b == a.(position := b.position, velocity := b.velocity)
  }

  lemma {:induction false} MotionIsNoStep(ph: Physics, id: Id, a: Body, b: Body, c: Body, d: Body)
    requires SameButMotion(a, b) && StepOf(ph, id, b, c) && SameButMotion(c, d)
    ensures StepOf(ph, id, a, d)
  {
    hide Always, Never;
  }

  /** The part of a step before the springs are asked. */
  ghost predicate Waned(b: Body, m: Body) {
    var age := b.age + 1.0 / 120.0;
    && m.kind == b.kind && m.home == b.home && m.releaseGoal == b.releaseGoal
    && m.outcomeAge == b.outcomeAge + 1.0 / 120.0
    && if b.departing.Some? && age >= 0.32 then
         && Left(b, m) && m.outcome == (if b.queued.Some? then None else b.outcome)
         && m.phase == (if b.queued.Some? then Approaching else Returning) && m.age == 0.0
       else SameWork(b, m) && m.outcome == b.outcome && m.phase == b.phase && m.age == age
  }

  lemma {:induction false} AgedWanes(bodies: Bodies, id: Id)
    requires id in bodies && Coherent(bodies[id])
    ensures Waned(bodies[id], Aged(bodies, id)[id])
    ensures Aged(bodies, id)[id].position == bodies[id].position && Aged(bodies, id)[id].velocity == bodies[id].velocity
    ensures forall j :: j in bodies && j != id ==> Aged(bodies, id)[j] == bodies[j]
  {
    hide Occupied;
  }

  /** The same, but for the velocity an arrival gives a destination. */
  predicate Nudged(a: Body, b: Body) {
    b == a.(velocity := b.velocity) && (a.kind == Agent ==> b == a)
  }

  /** The springs' part: the work stays, the phase goes by the table, the others feel no more than a nudge. */
  lemma {:induction false} PhasedTurns(ph: Physics, bodies: Bodies, time: real, id: Id)
    requires id in bodies && Coherent(bodies[id])
    ensures var after := Phased(ph, bodies, time, id);
            && SameWork(bodies[id], after[id]) && PhaseFrom(ph, id, bodies[id].phase, bodies[id].age, after[id])
            && after[id] == bodies[id].(velocity := after[id].velocity, phase := after[id].phase, age := after[id].age)
            && (bodies[id].kind == Agent ==> after[id].velocity == bodies[id].velocity)
            && forall j :: j in bodies && j != id ==> Nudged(bodies[j], after[j])
  {
    hide Coherent;
    assert bodies[id].attachment.Some? <==> bodies[id].phase in {Approaching, Docking, Engaged, Waiting} by {
      CoherentPhase(bodies[id]);
    }
  }

  lemma {:induction false} CoherentPhase(b: Body)
    requires Coherent(b)
    ensures b.attachment.Some? <==> b.phase in {Approaching, Docking, Engaged, Waiting}
  {
  }

  lemma {:induction false} WaneThenTurn(ph: Physics, id: Id, b: Body, m: Body, after: Body)
    requires Waned(b, m) && SameWork(m, after) && PhaseFrom(ph, id, m.phase, m.age, after)
    requires after == m.(velocity := after.velocity, phase := after.phase, age := after.age)
    ensures StepOf(ph, id, b, after)
  {
    hide Always, Never;
  }

  lemma {:induction false} JudgedSteps(ph: Physics, bodies: Bodies, time: real, id: Id)
    requires Sound(bodies) && id in bodies
    ensures var after := Phased(ph, Aged(bodies, id), time, id);
            && StepOf(ph, id, bodies[id], after[id])
            && after[id].position == bodies[id].position
            && (bodies[id].kind == Agent ==> after[id].velocity == bodies[id].velocity)
            && forall j :: j in bodies && j != id ==> Nudged(bodies[j], after[j])
  {
    AgedKeeps(bodies, id);
    var m := Aged(bodies, id);
    assert Coherent(bodies[id]) && Coherent(m[id]);
    AgedWanes(bodies, id);
    PhasedTurns(ph, m, time, id);
    hide Sound, Coherent, Aged, Phased, Waned, PhaseFrom, StepOf, SameIntents;
    WaneThenTurn(ph, id, bodies[id], m[id], Phased(ph, m, time, id)[id]);
  }

  lemma {:induction false} JudgedAllSteps(ph: Physics, bodies: Bodies, time: real, order: seq<Id>, id: Id)
    requires Sound(bodies) && Distinct(order) && id in bodies && forall j :: j in order ==> j in bodies
    ensures var after := JudgedAll(ph, bodies, time, order).bodies;
            if id in order then StepOf(ph, id, bodies[id], after[id]) else SameButMotion(bodies[id], after[id])
  {
    hide Sound, Aged, Phased, StepOf, SameIntents;
    if order != [] {
      var init, last := order[..|order| - 1], order[|order| - 1];
      assert last !in init && order == init + [last];
      JudgedAllSteps(ph, bodies, time, init, id);
      JudgedAllKeeps(ph, bodies, time, init);
      JudgedOn(ph, bodies[id], JudgedAll(ph, bodies, time, init).bodies, time, last, id, id in init);
    }
  }

  /** One more body judged: it has now had its step, the others are where they were in theirs. */
  lemma {:induction false} JudgedOn(ph: Physics, b: Body, bodies: Bodies, time: real, last: Id, id: Id, done: bool)
    requires Sound(bodies) && last in bodies && id in bodies && (id == last ==> !done)
    requires if done then StepOf(ph, id, b, bodies[id]) else SameButMotion(b, bodies[id])
    ensures var after := Phased(ph, Aged(bodies, last), time, last);
            if done || id == last then StepOf(ph, id, b, after[id]) else SameButMotion(b, after[id])
  {
    hide Sound, Aged, Phased, StepOf;
    JudgedSteps(ph, bodies, time, last);
    var after := Phased(ph, Aged(bodies, last), time, last);
    if id == last {
      MotionIsNoStep(ph, id, b, bodies[id], after[id], after[id]);
    } else if done {
      MotionIsNoStep(ph, id, b, b, bodies[id], after[id]);
    }
  }

  /** Every fixed step of every valid world takes every body on by the table. */
  lemma {:induction false} IntegrateSteps(ph: Physics, w: World, id: Id)
    requires Valid(w) && id in w.bodies
    ensures id in Integrate(ph, w).bodies && StepOf(ph, id, w.bodies[id], Integrate(ph, w).bodies[id])
  {
    hide Sound, JudgedAll, StepOf;
    var t := JudgedAll(ph, w.bodies, w.time + STEP, w.order);
    JudgedAllSteps(ph, w.bodies, w.time + STEP, w.order, id);
    MotionIsNoStep(ph, id, w.bodies[id], w.bodies[id], t.bodies[id], Integrate(ph, w).bodies[id]);
  }

  /**
   How a step moves a body: by the springs' force on it as judged in this step, from where it was; all are judged
   before any moves, and between the two only a destination's velocity is touched.
   */
  ghost predicate MovesBy(ph: Physics, bodies: Bodies, time: real, id: Id, after: Body) {
    exists judged: Bodies, v: Point ::
      && id in bodies && judged.Keys == bodies.Keys && Nudged(judged[id], judged[id].(velocity := v))
      && judged[id].position == bodies[id].position
      && (bodies[id].kind == Agent ==> judged[id].velocity == bodies[id].velocity)
      && after == Sprung(judged[id], ph.move(judged[id].(velocity := v), ph.force(judged, time, id)))
  }

  function Sprung(b: Body, m: Motion): Body {
    b.(position := m.position, velocity := m.velocity)
  }

  /** A body judged so far has its force from the bodies as they were then. */
  ghost predicate ForceOf(ph: Physics, bodies: Bodies, time: real, id: Id, t: Tick) {
    && id in bodies && id in t.bodies && id in t.forces
    && exists judged: Bodies ::
         && judged.Keys == bodies.Keys && judged[id].position == bodies[id].position
         && (bodies[id].kind == Agent ==> judged[id].velocity == bodies[id].velocity)
         && Nudged(judged[id], t.bodies[id]) && t.forces[id] == ph.force(judged, time, id)
  }

  lemma {:induction false} JudgedAllForce(ph: Physics, bodies: Bodies, time: real, order: seq<Id>, id: Id)
    requires Sound(bodies) && Distinct(order) && id in bodies && forall j :: j in order ==> j in bodies
    ensures var t := JudgedAll(ph, bodies, time, order);
            if id in order then ForceOf(ph, bodies, time, id, t) else Nudged(bodies[id], t.bodies[id])
  {
    hide Sound, Aged, Phased, ForceOf, Nudged, SameIntents;
    if order == [] {
      NoNudge(bodies[id]);
    } else {
      var init, last := order[..|order| - 1], order[|order| - 1];
      assert last !in init && order == init + [last];
      JudgedAllForce(ph, bodies, time, init, id);
      JudgedAllKeeps(ph, bodies, time, init);
      ForceOn(ph, bodies, JudgedAll(ph, bodies, time, init), time, last, id, id in init);
    }
  }

  lemma {:induction false} NoNudge(b: Body)
    ensures Nudged(b, b)
  {
  }

  lemma {:induction false} ForceOn(ph: Physics, bodies: Bodies, t: Tick, time: real, last: Id, id: Id, done: bool)
    requires Sound(t.bodies) && last in t.bodies && id in bodies && t.bodies.Keys == bodies.Keys
    requires id == last ==> !done
    requires if done then ForceOf(ph, bodies, time, id, t) else Nudged(bodies[id], t.bodies[id])
    ensures var next := Judged(ph, t, time, last);
            if done || id == last then ForceOf(ph, bodies, time, id, next) else Nudged(bodies[id], next.bodies[id])
  {
    hide Sound, Aged, Phased, StepOf;
    JudgedSteps(ph, t.bodies, time, last);
    var next := Judged(ph, t, time, last);
    if id == last {
      var judged := next.bodies;
      assert next.forces[id] == ph.force(judged, time, id) && Nudged(judged[id], next.bodies[id]);
    } else if done {
      var judged: Bodies :|
        && judged.Keys == bodies.Keys && judged[id].position == bodies[id].position
        && (bodies[id].kind == Agent ==> judged[id].velocity == bodies[id].velocity)
        && Nudged(judged[id], t.bodies[id]) && t.forces[id] == ph.force(judged, time, id);
      assert Nudged(judged[id], next.bodies[id]) && next.forces[id] == ph.force(judged, time, id);
    }
  }

  /** Every fixed step of every valid world moves every body by the springs. */
  lemma {:induction false} IntegrateMoves(ph: Physics, w: World, id: Id)
    requires Valid(w) && id in w.bodies
    ensures id in Integrate(ph, w).bodies
    ensures MovesBy(ph, w.bodies, w.time + 1.0 / 120.0, id, Integrate(ph, w).bodies[id])
  {
    hide Sound, JudgedAll, ForceOf, MovesBy, Moved;
    var t := JudgedAll(ph, w.bodies, w.time + STEP, w.order);
    JudgedAllForce(ph, w.bodies, w.time + STEP, w.order, id);
    ForceMoves(ph, w.bodies, w.time + STEP, id, t);
    assert Integrate(ph, w).bodies[id] == Moved(ph, t.bodies[id], t.forces[id]);
  }

  lemma {:induction false} ForceMoves(ph: Physics, bodies: Bodies, time: real, id: Id, t: Tick)
    requires ForceOf(ph, bodies, time, id, t)
    ensures MovesBy(ph, bodies, time, id, Moved(ph, t.bodies[id], t.forces[id]))
  {
    var judged: Bodies :|
      && judged.Keys == bodies.Keys && judged[id].position == bodies[id].position
      && (bodies[id].kind == Agent ==> judged[id].velocity == bodies[id].velocity)
      && Nudged(judged[id], t.bodies[id]) && t.forces[id] == ph.force(judged, time, id);
    var v := t.bodies[id].velocity;
    assert t.bodies[id] == judged[id].(velocity := v);
    assert Nudged(judged[id], judged[id].(velocity := v));
    assert Moved(ph, t.bodies[id], t.forces[id])
           == Sprung(judged[id], ph.move(judged[id].(velocity := v), ph.force(judged, time, id)));
  }

  // ---------------------------------------------------------------- what an event does to the body it is about

  /** The least slot nobody has at the host. */
  ghost predicate LeastFree(bodies: Bodies, a: Attachment) {
    && !SlotHeld(bodies, a.interaction.targetId, a.slot)
    && forall s: nat :: s < a.slot ==> SlotHeld(bodies, a.interaction.targetId, s)
  }

  ghost predicate SlotHeld(bodies: Bodies, host: Id, slot: nat) {
    exists j :: j in bodies && HoldsSlot(bodies[j], host, slot)
  }

  predicate HoldsSlot(b: Body, host: Id, slot: nat) {
    Anchor(b).Some? && Anchor(b).value.interaction.targetId == host && Anchor(b).value.slot == slot
  }

  /** Links and age stay, up to showing the waiting flag; or the link is let go; or a free body sets out. */
  ghost predicate Turned(bodies: Bodies, b: Body, after: Body) {
    || (&& after.attachment == b.attachment && after.departing == b.departing && after.age == b.age
        && (after.phase == b.phase
            || (b.phase in {Engaged, Waiting} && after.phase == if after.waiting then Waiting else Engaged)))
    || (&& b.attachment.Some? && after.departing == b.attachment && after.attachment.None?
        && after.phase == Detaching && after.age == 0.0 && after.outcomeAge == 0.0)
    || (&& b.attachment.None? && b.departing.None? && after.attachment.Some? && after.departing.None?
        && after.phase == Approaching && after.age == 0.0 && LeastFree(bodies, after.attachment.value))
  }

  /** What became of the work shows: nothing, once work is started; the outcome told, once it has ended. */
  predicate Outcomes(e: Event, b: Body, after: Body) {
    if IntentOf(after) == IntentOf(b) then after.outcome == b.outcome
    else if e.End? then after.outcome == Some(e.outcome) && after.outcomeAge == 0.0
    else if e.Start? && b.departing.None? then after.outcome == None
    else after.outcome == b.outcome
  }

  lemma {:induction false} AttachIsLeast(bodies: Bodies, id: Id, action: Interaction)
    requires Sound(bodies) && id in bodies
    ensures LeastFree(bodies, Attach(bodies, id, action)[id].attachment.value)
  {
    hide Sound, Occupied, SlotHeld;
    var host := action.targetId;
    var slot := FreeFrom(Occupied(bodies, host), 0);
    SlotsTaken(bodies, host, slot);
    forall s: nat | s < slot
      ensures SlotHeld(bodies, host, s)
    {
      SlotsTaken(bodies, host, s);
    }
  }

  lemma {:induction false} SlotsTaken(bodies: Bodies, host: Id, s: nat)
    requires Sound(bodies)
    ensures s in Occupied(bodies, host) <==> SlotHeld(bodies, host, s)
  {
    if s in Occupied(bodies, host) {
      var j :| j in bodies && s in SlotsAt(bodies[j], host);
      assert Coherent(bodies[j]);
      SlotIsAnchor(bodies[j], host, s);
      assert HoldsSlot(bodies[j], host, s);
    }
    if SlotHeld(bodies, host, s) {
      var j :| j in bodies && HoldsSlot(bodies[j], host, s);
      assert s in SlotsAt(bodies[j], host);
    }
  }

  lemma {:induction false} StartedTurns(ph: Physics, bodies: Bodies, action: Interaction)
    requires Sound(bodies) && Startable(bodies, action)
    ensures Turned(bodies, bodies[action.agentId], Started(ph, bodies, action)[action.agentId])
  {
    assert Coherent(bodies[action.agentId]);
    AttachIsLeast(bodies, action.agentId, action);
    hide Sound, LeastFree, Occupied;
  }

  lemma {:induction false} ToldTurns(ph: Physics, bodies: Bodies, e: Event)
    requires Sound(bodies) && !e.Start? && e.agentId in bodies
    ensures Turned(bodies, bodies[e.agentId], Told(ph, bodies, e)[e.agentId])
  {
    assert Coherent(bodies[e.agentId]);
    hide Sound, LeastFree;
  }

  /** Every event turns the body it is about in one of these ways. */
  lemma {:induction false} DispatchTurns(ph: Physics, w: World, e: Event)
    requires Valid(w) && Subject(e) in w.bodies
    ensures Subject(e) in Dispatch(ph, w, e).bodies
    ensures Turned(w.bodies, w.bodies[Subject(e)], Dispatch(ph, w, e).bodies[Subject(e)])
  {
    hide Sound, Turned, Started, Told;
    NoTurn(w.bodies, w.bodies[Subject(e)]);
    if e.id !in w.seen {
      if e.Start? && Startable(w.bodies, e.interaction) {
        StartedKeeps(ph, w.bodies, e.interaction);
        StartedTurns(ph, w.bodies, e.interaction);
      } else if !e.Start? {
        ToldKeeps(ph, w.bodies, e);
        ToldTurns(ph, w.bodies, e);
      }
    }
  }

  lemma {:induction false} NoTurn(bodies: Bodies, b: Body)
    ensures Turned(bodies, b, b)
  {
  }

  lemma {:induction false} DispatchOutcomes(ph: Physics, w: World, e: Event)
    requires Valid(w) && Subject(e) in w.bodies
    ensures Subject(e) in Dispatch(ph, w, e).bodies
    ensures Outcomes(e, w.bodies[Subject(e)], Dispatch(ph, w, e).bodies[Subject(e)])
  {
    assert Coherent(w.bodies[Subject(e)]);
    hide Sound, Occupied;
  }

  /** A body whose host a sync takes away lets go of it, cancelled. */
  lemma {:induction false} SyncCancels(ph: Physics, w: World, entities: seq<Entity>, id: Id)
    requires Valid(w) && id in w.bodies && id in Ids(entities) && Abandoned(w.bodies[id], Ids(entities))
    ensures var b := Sync(ph, w, entities).bodies;
            && id in b && b[id].outcome == Some(Cancelled) && b[id].outcomeAge == 0.0
            && b[id].departing == w.bodies[id].attachment && b[id].age == 0.0
  {
    hide Sound, PlacedAll, OrphanedAll, Kept;
    var ids := Ids(entities);
    var kept := w.(order := Kept(w.order, ids), bodies := Remembered(w.bodies, ids));
    KeptListed(w, ids);
    SyncPlacedSound(w, ids, entities);
    PlacedAllListed(kept, entities);
    var placed := PlacedAll(kept, entities);
    assert Extends(kept.bodies, placed.bodies) && kept.bodies[id] == w.bodies[id];
    OrphanedAllCancels(ph, placed.bodies, ids, placed.order, id);
  }

  lemma {:induction false} OrphanedAllCancels(ph: Physics, bodies: Bodies, ids: set<Id>, order: seq<Id>, id: Id)
    requires Sound(bodies) && Distinct(order) && id in order && forall j :: j in order ==> j in bodies
    requires Abandoned(bodies[id], ids)
    ensures var b := OrphanedAll(ph, bodies, ids, order)[id];
            && b.outcome == Some(Cancelled) && b.outcomeAge == 0.0
            && b.departing == bodies[id].attachment && b.age == 0.0
  {
    hide Sound;
    var init, last := order[..|order| - 1], order[|order| - 1];
    assert last !in init && order == init + [last];
    OrphanedAllSound(ph, bodies, ids, init);
    if id != last {
      OrphanedAllCancels(ph, bodies, ids, init, id);
    }
  }

  // ---------------------------------------------------------------- any number of steps

  /**
   What so much time makes of a body nobody is told anything about: a departure ends exactly when it is 0.32 s old,
   and what is not a departure stays what it is.
   */
  predicate Lasts(b: Body, after: Body, elapsed: real) {
    if b.departing.Some? then
      if b.age + elapsed < 0.32
      then SameWork(b, after) && after.phase == Detaching && after.age == b.age + elapsed
      else Left(b, after)
    else
      SameWork(b, after) && (b.attachment.None? ==> after.phase in {Returning, Resting})
  }

  lemma {:induction false} StepLasts(ph: Physics, id: Id, b: Body, m: Body)
    requires Coherent(b) && StepOf(ph, id, b, m)
    ensures Lasts(b, m, 1.0 / 120.0)
  {
    hide Always, Never;
  }

  lemma {:induction false} LastsOn(b: Body, m: Body, after: Body, first: real, rest: real)
    requires first >= 0.0 && rest >= 0.0 && Coherent(b) && Coherent(m)
    requires Lasts(b, m, first) && Lasts(m, after, rest)
    ensures Lasts(b, after, first + rest)
  {
  }

  lemma {:induction false} DrainedLasts(ph: Physics, w: World, id: Id)
    requires Valid(w) && id in w.bodies
    ensures Drained(ph, w).time >= w.time
    ensures id in Drained(ph, w).bodies
    ensures Lasts(w.bodies[id], Drained(ph, w).bodies[id], Drained(ph, w).time - w.time)
    decreases ((w.accumulator + SLACK) * 120.0).Floor
  {
    hide Sound, Integrate, Lasts, Coherent;
    SoundBody(w.bodies, id);
    if w.accumulator + SLACK >= STEP {
      DueShrinks(w.accumulator);
      OneStepLasts(ph, w, id);
      var next := Integrate(ph, w).(accumulator := w.accumulator - STEP);
      StillValid(Integrate(ph, w), next);
      DrainedLasts(ph, next, id);
      var end := Drained(ph, next);
      assert Drained(ph, w) == end;
      LastsOn(w.bodies[id], next.bodies[id], end.bodies[id], STEP, end.time - next.time);
      assert STEP + (end.time - next.time) == end.time - w.time;
    } else {
      NoTimeLasts(w.bodies[id]);
    }
  }

  lemma {:induction false} StillValid(w: World, v: World)
    requires Valid(w) && v == w.(accumulator := v.accumulator)
    ensures Valid(v)
  {
  }

  lemma {:induction false} OneStepLasts(ph: Physics, w: World, id: Id)
    requires Valid(w) && id in w.bodies
    ensures var next := Integrate(ph, w);
            && Valid(next) && next.time == w.time + STEP && id in next.bodies
            && Coherent(next.bodies[id]) && Lasts(w.bodies[id], next.bodies[id], STEP)
  {
    hide Integrate, Lasts, StepOf;
    SoundBody(w.bodies, id);
    IntegrateKeeps(ph, w);
    IntegrateSteps(ph, w, id);
    IntegrateTime(ph, w);
    SoundBody(Integrate(ph, w).bodies, id);
    StepLasts(ph, id, w.bodies[id], Integrate(ph, w).bodies[id]);
  }

  lemma {:induction false} IntegrateTime(ph: Physics, w: World)
    requires Listed(w)
    ensures Integrate(ph, w).time == w.time + STEP
  {
  }

  lemma {:induction false} SoundBody(bodies: Bodies, id: Id)
    requires Sound(bodies) && id in bodies
    ensures Coherent(bodies[id])
  {
  }

  lemma {:induction false} NoTimeLasts(b: Body)
    requires Coherent(b)
    ensures Lasts(b, b, 0.0)
  {
  }

  /** The clock runs in fixed steps and is never a whole step behind the time added. */
  lemma {:induction false} DrainedTime(ph: Physics, w: World)
    requires Listed(w)
    ensures Drained(ph, w).time + Drained(ph, w).accumulator == w.time + w.accumulator
    decreases ((w.accumulator + SLACK) * 120.0).Floor
  {
    if w.accumulator + SLACK >= STEP {
      DueShrinks(w.accumulator);
      IntegrateTime(ph, w);
      hide Integrate;
      DrainedTime(ph, Integrate(ph, w).(accumulator := w.accumulator - STEP));
    }
  }

  /** One call spends what it is given, but never less than nothing nor more than 0.25 s. */
  lemma {:induction false} AdvanceTime(ph: Physics, w: World, seconds: real)
    requires Listed(w)
    ensures var after := Advance(ph, w, seconds, false);
            var spent := if seconds <= 0.0 then 0.0 else if seconds <= 0.25 then seconds else 0.25;
            && after.time + after.accumulator == w.time + w.accumulator + spent
            && after.accumulator + 0.000000001 < 1.0 / 120.0
  {
    hide Drained;
    DrainedTime(ph, w.(accumulator := w.accumulator + Clamped(seconds)));
  }

  /** Over any frames, the clock and the unspent rest account for all the time given. */
  lemma {:induction false} FramesTime(ph: Physics, w: World, frames: seq<real>)
    requires Listed(w) && forall f :: f in frames ==> 0.0 <= f <= 0.25
    ensures var after := Frames(ph, w, frames);
            after.time + after.accumulator == w.time + w.accumulator + Total(frames)
  {
    FramesDrain(ph, w, frames);
    if frames != [] {
      DrainedTime(ph, w.(accumulator := w.accumulator + Total(frames)));
    }
  }

  /** Over any frames, every body lasts as long as the clock says. */
  lemma {:induction false} FramesLast(ph: Physics, w: World, frames: seq<real>, id: Id)
    requires Valid(w) && id in w.bodies && forall f :: f in frames ==> 0.0 <= f <= 0.25
    ensures var after := Frames(ph, w, frames);
            && after.time >= w.time && id in after.bodies
            && Lasts(w.bodies[id], after.bodies[id], after.time - w.time)
  {
    FramesDrain(ph, w, frames);
    if frames != [] {
      DrainedLasts(ph, w.(accumulator := w.accumulator + Total(frames)), id);
    } else {
      assert Coherent(w.bodies[id]);
      NoTimeLasts(w.bodies[id]);
    }
  }

  /**
   However 0.32 s and one step more are cut into frames, every departure under way is over: queued work is taken up
   with its waiting flag, a body without goes home.
   */
  lemma {:induction false} DeparturesEnd(ph: Physics, w: World, frames: seq<real>, id: Id)
    requires Valid(w) && id in w.bodies && w.bodies[id].departing.Some?
    requires w.accumulator >= -SLACK && forall f :: f in frames ==> 0.0 <= f <= 0.25
    requires Total(frames) >= 0.32 + 1.0 / 120.0
    ensures id in Frames(ph, w, frames).bodies && Left(w.bodies[id], Frames(ph, w, frames).bodies[id])
  {
    assert Coherent(w.bodies[id]);
    FramesLast(ph, w, frames, id);
    FramesTime(ph, w, frames);
    hide Sound, Left;
    FramesCaughtUp(ph, w, frames);
  }

  lemma {:induction false} FramesCaughtUp(ph: Physics, w: World, frames: seq<real>)
    requires Listed(w) && frames != []
    ensures Frames(ph, w, frames).accumulator + SLACK < STEP
  {
    hide Drained;
  }

  /** The unspent rest of a run is never below what a step may be early by. */
  lemma {:induction false} EveryRunHasTime(ph: Physics, worlds: seq<World>, ops: seq<Operation>, n: nat)
    requires IsRun(ph, worlds, ops) && n < |worlds|
    ensures worlds[n].accumulator >= -SLACK
  {
    hide Drained, Sync, Dispatch, Settle, PlacedAll, OrphanedAll;
    if n > 0 {
      EveryRunHasTime(ph, worlds, ops, n - 1);
      var w, op := worlds[n - 1], ops[n - 1];
      match op
      case OpSync(entities) =>
        AppliedRest(ph, w, op);
      case OpDispatch(event) =>
        AppliedRest(ph, w, op);
      case OpAdvance(seconds, reduced) =>
        if !reduced {
          DrainedRest(ph, w.(accumulator := w.accumulator + Clamped(seconds)));
        } else {
          AppliedRest(ph, w, op);
        }
      case OpSettle =>
        AppliedRest(ph, w, op);
    }
  }

  lemma {:induction false} AppliedRest(ph: Physics, w: World, op: Operation)
    requires Listed(w) && (op.OpAdvance? ==> op.reduced)
    ensures Apply(ph, w, op).accumulator == w.accumulator
  {
    if op.OpSync? {
      PlacedAllClock(w.(order := Kept(w.order, Ids(op.entities)), bodies := Remembered(w.bodies, Ids(op.entities))),
                     op.entities);
    }
  }

  lemma {:induction false} DrainedRest(ph: Physics, w: World)
    requires Listed(w) && w.accumulator >= -SLACK
    ensures Drained(ph, w).accumulator >= -SLACK
    decreases ((w.accumulator + SLACK) * 120.0).Floor
  {
    if w.accumulator + SLACK >= STEP {
      DueShrinks(w.accumulator);
      hide Integrate;
      DrainedRest(ph, Integrate(ph, w).(accumulator := w.accumulator - STEP));
    }
  }

  // ---------------------------------------------------------------- settling

  /** Settled at once: no departure, no queue; a body at work is engaged or waiting, any other rests at home. */
  predicate Still(b: Body) {
    && b.departing.None? && b.queued.None? && b.velocity == Point(0.0, 0.0)
    && if b.attachment.Some? then b.phase == (if b.waiting then Waiting else Engaged)
       else b.phase == Resting && b.position == b.home
  }
  lemma {:induction false} GroundedStill(bodies: Bodies, id: Id)
    requires Sound(bodies) && id in bodies
    ensures AtHome(Grounded(bodies, id)[id])
    ensures forall j :: j in bodies && j != id ==> Grounded(bodies, id)[j] == bodies[j]
  {
    assert Coherent(bodies[id]);
    hide Occupied, Sound;
  }

  /** Grounded: put back home at rest, the departure cut short. */
  predicate AtHome(b: Body) {
    && b.departing.None? && b.queued.None? && b.velocity == Point(0.0, 0.0) && b.position == b.home
    && (b.attachment.None? ==> b.phase == Resting)
  }

  lemma {:induction false} GroundedAllStill(bodies: Bodies, order: seq<Id>)
    requires Sound(bodies) && forall id :: id in order ==> id in bodies
    ensures forall id :: id in order ==> AtHome(GroundedAll(bodies, order)[id])
  {
    hide Sound, Grounded, AtHome, SameIntents;
    if order != [] {
      var init, last := order[..|order| - 1], order[|order| - 1];
      assert order == init + [last];
      GroundedAllStill(bodies, init);
      GroundedAllKeeps(bodies, init);
      GroundedStill(GroundedAll(bodies, init), last);
    }
  }

  /** Exactly the bodies visited on the way are seated, each in the phase of its waiting flag. */
  ghost predicate SeatedSince(s: Seating, r: Seating) {
    && r.bodies.Keys == s.bodies.Keys && s.visited <= r.visited <= s.bodies.Keys
    && (forall j :: j in s.bodies && j !in r.visited - s.visited ==> r.bodies[j] == s.bodies[j])
    && (forall j :: j in r.visited - s.visited ==> IsSeated(s.bodies[j], r.bodies[j]))
  }

  predicate IsSeated(b: Body, after: Body) {
    if b.attachment.None? then after == b
    else after == b.(position := after.position, phase := if b.waiting then Waiting else Engaged)
  }

  lemma {:induction false} SeatedSeats(ph: Physics, s: Seating, id: Id)
    requires id in s.bodies && s.visited <= s.bodies.Keys
    ensures SeatedSince(s, Seated(ph, s, id))
    decreases |s.bodies.Keys - s.visited|
  {
    if id !in s.visited && s.bodies[id].attachment.Some? {
      var entered := s.(visited := s.visited + {id});
      assert s.bodies.Keys - s.visited == (s.bodies.Keys - entered.visited) + {id};
      var host := s.bodies[id].attachment.value.interaction.targetId;
      var hosted := if host in s.bodies then Seated(ph, entered, host) else entered;
      if host in s.bodies {
        SeatedSeats(ph, entered, host);
      }
      SeatedLast(ph, s, hosted, id);
    }
  }

  lemma {:induction false} SeatedLast(ph: Physics, s: Seating, hosted: Seating, id: Id)
    requires id in s.bodies && id !in s.visited && s.bodies[id].attachment.Some?
    requires SeatedSince(s.(visited := s.visited + {id}), hosted)
    ensures SeatedSince(s, hosted.(bodies := Orbiting(ph, hosted.bodies, id)))
  {
  }

  lemma {:induction false} SeatedAllSeats(ph: Physics, bodies: Bodies, order: seq<Id>)
    requires forall id :: id in order ==> id in bodies
    ensures SeatedSince(Seating(bodies, {}), SeatedAll(ph, bodies, order))
  {
    hide Seated;
    if order != [] {
      var init, last := order[..|order| - 1], order[|order| - 1];
      SeatedAllSeats(ph, bodies, init);
      SeatedSeats(ph, SeatedAll(ph, bodies, init), last);
      SeatedJoin(Seating(bodies, {}), SeatedAll(ph, bodies, init), SeatedAll(ph, bodies, order));
    }
  }

  lemma {:induction false} SeatedJoin(a: Seating, b: Seating, c: Seating)
    requires SeatedSince(a, b) && SeatedSince(b, c)
    ensures SeatedSince(a, c)
  {
    forall j | j in c.visited - a.visited
      ensures IsSeated(a.bodies[j], c.bodies[j])
    {
      if j in b.visited {
        assert j !in c.visited - b.visited;
      }
    }
  }

  /** Settling leaves every body of every valid world still. */
  lemma {:induction false} SettleStills(ph: Physics, w: World, id: Id)
    requires Valid(w) && id in w.bodies
    ensures id in Settle(ph, w).bodies && Still(Settle(ph, w).bodies[id])
  {
    hide Sound, SameIntents;
    var grounded := GroundedAll(w.bodies, w.order);
    GroundedAllStill(w.bodies, w.order);
    SeatedAllSeats(ph, grounded, w.order);
    var seating := SeatedAll(ph, grounded, w.order);
    assert id in seating.visited && AtHome(grounded[id]) && IsSeated(grounded[id], seating.bodies[id]);
  }
}
