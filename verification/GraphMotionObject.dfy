/** The motion object itself: fields updated in place, each method tied to the value model. */
module GraphMotionObject {
  import opened Common
  import opened Interactions
  import opened W = MotionWorld

  class GraphMotion {
    const ph: Physics
    var order: seq<Id>
    var bodies: Bodies
    var seen: set<EventId>
    var time: real
    var accumulator: real

    ghost function View(): World
      reads this
    {
      World(order, bodies, seen, time, accumulator)
    }

    constructor (ph: Physics, entities: seq<Entity>)
      ensures this.ph == ph && View() == W.Sync(ph, Empty, entities)
      ensures Listed(View())
    {
      this.ph := ph;
      order, bodies, seen, time, accumulator := [], map[], {}, 0.0, 0.0;
      new;
      Sync(entities);
    }

    method Sync(entities: seq<Entity>)
      requires Listed(View())
      modifies this
      ensures View() == W.Sync(ph, old(View()), entities)
      ensures Listed(View())
    {
      hide Kept, Ids, Remembered, PlacedAll, OrphanedAll;
      var ids := Ids(entities);
      Forget(ids);
      KeptListed(old(View()), ids);
      PlacedAllListed(View(), entities);
      PlaceEach(entities);
      ReleaseOrphans(ids);
    }

    /** Refresh the body of every entity, adding the ones that are new. */
    method PlaceEach(entities: seq<Entity>)
      modifies this
      ensures View() == PlacedAll(old(View()), entities)
    {
      for k := 0 to |entities|
        invariant View() == PlacedAll(old(View()), entities[..k])
      {
        assert entities[..k + 1][..k] == entities[..k];
        var e := entities[k];
        if e.id in bodies {
          bodies := bodies[e.id := bodies[e.id].(home := e.home, kind := e.kind)];
        } else {
          order := order + [e.id];
          bodies := bodies[e.id := NewBody(e)];
        }
      }
      assert entities[..|entities|] == entities;
    }

    /** Let go every body whose host is no longer there. */
    method ReleaseOrphans(ids: set<Id>)
      requires Listed(View())
      modifies `bodies
      ensures bodies == OrphanedAll(ph, old(bodies), ids, order)
    {
      for k := 0 to |order|
        invariant bodies == OrphanedAll(ph, old(bodies), ids, order[..k])
      {
        assert order[..k + 1][..k] == order[..k];
        var held := bodies[order[k]].attachment;
        if held.Some? && held.value.interaction.targetId != "" && held.value.interaction.targetId !in ids {
          Release(order[k], Some(Cancelled));
        }
      }
      assert order[..|order|] == order;
    }

    /** Drop the bodies whose entity is gone. */
    method Forget(ids: set<Id>)
      requires Listed(View())
      modifies `order, `bodies
      ensures order == Kept(old(order), ids) && bodies == Remembered(old(bodies), ids)
    {
      var keys, rest := order, bodies;
      order := [];
      ghost var gone: set<Id> := {};
      for k := 0 to |keys|
        invariant order == Kept(keys[..k], ids)
        invariant rest == old(bodies) - gone && gone == (set id | id in keys[..k]) - ids
      {
        assert keys[..k + 1][..k] == keys[..k] && keys[..k + 1] == keys[..k] + [keys[k]];
        if keys[k] in ids {
          order := order + [keys[k]];
        } else {
          rest := rest - {keys[k]};
          gone := gone + {keys[k]};
        }
      }
      assert keys[..|keys|] == keys;
      bodies := rest;
    }

    method Dispatch(event: Event)
      requires Listed(View())
      modifies this
      ensures View() == W.Dispatch(ph, old(View()), event)
      ensures Listed(View())
    {
      if event.id in seen {
        return;
      }
      seen := seen + {event.id};
      if event.Start? {
        var action := event.interaction;
        if action.agentId !in bodies || bodies[action.agentId].kind != Agent
           || action.targetId !in bodies || action.targetId == action.agentId {
          return;
        }
        var id := action.agentId;
        if (bodies[id].attachment.Some? && bodies[id].attachment.value.interaction.id == action.id)
           || Names(bodies[id].queued, action.id) {
          return;
        }
        if bodies[id].attachment.Some? || bodies[id].departing.Some? {
          if bodies[id].attachment.Some? {
            Release(id, None);
          }
          bodies := bodies[id := bodies[id].(queued := Some(action), queuedWaiting := false)];
        } else {
          Attach(id, action);
        }
        return;
      }
      var id := event.agentId;
      if id !in bodies {
        return;
      }
      var body := bodies[id];
      if Names(body.queued, event.interactionId) {
        if event.End? {
          bodies := bodies[id :=
                           body.(queued := None, queuedWaiting := false, outcome := Some(event.outcome),
                                 outcomeAge := 0.0)];
        } else {
          bodies := bodies[id := body.(queuedWaiting := event.Wait?)];
        }
        return;
      }
      if body.attachment.None? || body.attachment.value.interaction.id != event.interactionId {
        return;
      }
      if event.End? {
        Release(id, Some(event.outcome));
      } else {
        body := body.(waiting := event.Wait?);
        if body.phase == Engaged || body.phase == Waiting {
          body := body.(phase := if body.waiting then Waiting else Engaged);
        }
        bodies := bodies[id := body];
      }
    }

    method Attach(id: Id, action: Interaction)
      requires id in bodies
      modifies `bodies
      ensures bodies == W.Attach(old(bodies), id, action)
    {
      var slot := FreeSlot(Occupied(bodies, action.targetId));
      bodies := bodies[id := bodies[id].(
        attachment := Some(Attachment(action, slot)),
        departing := None, queued := None, queuedWaiting := false,
        phase := Approaching, age := 0.0, waiting := false, outcome := None)];
    }

    /** Count up past every occupied slot. */
    static method FreeSlot(occupied: set<nat>) returns (slot: nat)
      ensures slot == FreeFrom(occupied, 0)
      ensures slot <= |occupied|
    {
      slot := 0;
      while slot in occupied
        invariant slot <= FreeFrom(occupied, 0)
        decreases FreeFrom(occupied, 0) - slot
      {
        slot := slot + 1;
      }
    }

    method Release(id: Id, outcome: Option<Outcome>)
      requires id in bodies
      modifies `bodies
      ensures bodies == W.Release(ph, old(bodies), id, outcome)
    {
      var old_ := bodies[id].attachment;
      if old_.None? {
        return;
      }
      bodies := bodies[id := bodies[id].(
        releaseGoal := Some(ph.releaseGoal(bodies, id)),
        departing := old_, attachment := None, queued := None,
        phase := Detaching, age := 0.0, waiting := false, outcome := outcome, outcomeAge := 0.0)];
    }

    method Advance(seconds: real, reduced: bool)
      requires Listed(View())
      modifies this
      ensures View() == W.Advance(ph, old(View()), seconds, reduced)
      ensures Listed(View())
    {
      if reduced {
        bodies := Outlasted(bodies, seconds);
        Settle();
        return;
      }
      accumulator := accumulator + Clamped(seconds);
      ghost var start := View();
      while accumulator + SLACK >= STEP
        invariant Listed(View()) && Drained(ph, View()) == Drained(ph, start)
        decreases ((accumulator + SLACK) * 120.0).Floor
      {
        DueShrinks(accumulator);
        Integrate();
        accumulator := accumulator - STEP;
      }
    }

    /** One fixed step: every body is judged in order, then all of them move together. */
    method Integrate()
      requires Listed(View())
      modifies this
      ensures View() == W.Integrate(ph, old(View()))
    {
      time := time + STEP;
      var forces := JudgeEach();
      Move(forces);
    }

    method JudgeEach() returns (forces: map<Id, Point>)
      requires Listed(View())
      modifies `bodies
      ensures Tick(bodies, forces) == JudgedAll(ph, old(bodies), time, order)
    {
      hide Judged;
      forces := map[];
      for k := 0 to |order|
        invariant Tick(bodies, forces) == JudgedAll(ph, old(bodies), time, order[..k])
      {
        assert order[..k + 1][..k] == order[..k];
        forces := Judge(order[k], forces);
      }
      assert order[..|order|] == order;
    }

    method Judge(id: Id, forces: map<Id, Point>) returns (now: map<Id, Point>)
      requires id in bodies
      modifies `bodies
      ensures Tick(bodies, now) == Judged(ph, Tick(old(bodies), forces), time, id)
    {
      Age(id);
      TurnPhase(id);
      now := forces[id := ph.force(bodies, time, id)];
    }

    method Move(forces: map<Id, Point>)
      requires Listed(View()) && forces.Keys == bodies.Keys
      modifies `bodies
      ensures bodies == MovedAll(ph, Tick(old(bodies), forces))
    {
      hide Moved;
      var moved := bodies;
      for k := 0 to |order|
        invariant moved.Keys == bodies.Keys
        invariant forall j :: 0 <= j < k ==> moved[order[j]] == Moved(ph, bodies[order[j]], forces[order[j]])
        invariant forall j :: k <= j < |order| ==> moved[order[j]] == bodies[order[j]]
      {
        var id := order[k];
        moved := moved[id := Moved(ph, moved[id], forces[id])];
      }
      bodies := moved;
    }

    method Age(id: Id)
      requires id in bodies
      modifies `bodies
      ensures bodies == Aged(old(bodies), id)
    {
      var b := bodies[id].(age := bodies[id].age + STEP, outcomeAge := bodies[id].outcomeAge + STEP);
      if b.phase == Detaching && b.age >= RELEASE_SECONDS {
        bodies := bodies[id := b.(departing := None)];
        if b.queued.Some? {
          Attach(id, b.queued.value);
          bodies := bodies[id := bodies[id].(waiting := b.queuedWaiting)];
        } else {
          bodies := bodies[id := bodies[id].(phase := Returning, age := 0.0)];
        }
      } else {
        bodies := bodies[id := b];
      }
    }

    method TurnPhase(id: Id)
      requires id in bodies
      modifies `bodies
      ensures bodies == Phased(ph, old(bodies), time, id)
    {
      if bodies[id].attachment.Some? {
        if bodies[id].phase == Approaching && ph.captured(bodies, time, id) {
          var host := bodies[id].attachment.value.interaction.targetId;
          bodies := bodies[id := bodies[id].(phase := Docking, age := 0.0)];
          if host in bodies && bodies[host].kind == Destination {
            bodies := bodies[host := bodies[host].(velocity := ph.nudge(bodies, id))];
          }
        }
        if bodies[id].phase == Docking && ph.held(bodies, time, id) {
          bodies := bodies[id := bodies[id].(phase := if bodies[id].waiting then Waiting else Engaged, age := 0.0)];
        }
      } else if bodies[id].phase == Returning && ph.arrived(bodies, time, id) {
        bodies := bodies[id := bodies[id].(phase := Resting, age := 0.0)];
      }
    }

    method Settle()
      requires Listed(View())
      modifies `bodies
      ensures View() == W.Settle(ph, old(View()))
      ensures Listed(View())
    {
      GroundEach();
      SeatEach();
    }

    method GroundEach()
      requires Listed(View())
      modifies `bodies
      ensures bodies == GroundedAll(old(bodies), order)
    {
      hide Grounded;
      for k := 0 to |order|
        invariant bodies == GroundedAll(old(bodies), order[..k])
      {
        assert order[..k + 1][..k] == order[..k];
        Ground(order[k]);
      }
      assert order[..|order|] == order;
    }

    method SeatEach()
      requires Listed(View())
      modifies `bodies
      ensures bodies == SeatedAll(ph, old(bodies), order).bodies
    {
      hide Seated;
      var visited: set<Id> := {};
      for k := 0 to |order|
        invariant Seating(bodies, visited) == SeatedAll(ph, old(bodies), order[..k])
      {
        assert order[..k + 1][..k] == order[..k];
        visited := Place(order[k], visited);
      }
      assert order[..|order|] == order;
    }

    method Ground(id: Id)
      requires id in bodies
      modifies `bodies
      ensures bodies == Grounded(old(bodies), id)
    {
      if bodies[id].departing.Some? {
        bodies := bodies[id := bodies[id].(departing := None)];
        if bodies[id].queued.Some? {
          var waiting := bodies[id].queuedWaiting;
          Attach(id, bodies[id].queued.value);
          bodies := bodies[id := bodies[id].(waiting := waiting)];
        }
      }
      var b := bodies[id].(position := bodies[id].home, velocity := Point(0.0, 0.0));
      if b.attachment.None? {
        b := b.(phase := Resting);
      }
      bodies := bodies[id := b];
    }

    /** Place a body on its orbit, its host first. */
    method Place(id: Id, visited: set<Id>) returns (now: set<Id>)
      requires id in bodies && visited <= bodies.Keys
      modifies `bodies
      ensures Seating(bodies, now) == Seated(ph, Seating(old(bodies), visited), id)
      decreases |bodies.Keys - visited|
    {
      now := visited;
      if id in visited {
        return;
      }
      now := visited + {id};
      assert bodies.Keys - visited == (bodies.Keys - now) + {id};
      if bodies[id].attachment.Some? {
        var host := bodies[id].attachment.value.interaction.targetId;
        if host in bodies {
          now := Place(host, now);
        }
        bodies := bodies[id := bodies[id].(position := ph.orbit(bodies, id),
                                           phase := if bodies[id].waiting then Waiting else Engaged)];
      }
    }
  }
}
