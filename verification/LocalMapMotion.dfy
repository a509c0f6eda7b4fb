/** The lens object: its world, held work, revision counter and clock, updated in place. */
module LocalMapMotion {
  import opened Common
  import opened Interactions
  import opened W = MotionWorld
  import opened MotionRuns
  import opened WorkScene
  import opened L = LocalLens
  import G = GraphMotionObject

  class LocalMapMotion {
    const ph: Physics
    var world: G.GraphMotion
    var keys: seq<Id>
    var current: map<Id, Held>
    var revision: nat
    var time: real
    var epoch: string

    ghost function View(): Lens
      reads this, world
    {
      Lens(world.View(), keys, current, revision, time, epoch)
    }

    ghost predicate Usable()
      reads this, world
    {
      world.ph == ph && Listed(world.View())
    }

    constructor (ph: Physics)
      ensures Usable() && fresh(world) && View() == Closed && this.ph == ph
    {
      this.ph := ph;
      world := new G.GraphMotion(ph, []);
      keys, current, revision, time, epoch := [], map[], 0, 0.0, "";
    }

    method Sync(entities: seq<Entity>, states: States, time: real, epoch: string)
      requires Usable()
      modifies this, world
      ensures Usable() && (world == old(world) || fresh(world))
      ensures View() == LensSync(ph, old(View()), entities, states, time, epoch)
    {
      hide W.Sync, Listed, AlignedAll, Firsts, Actors;
      if epoch != this.epoch || time < this.time - REWIND_SLACK {
        world := new G.GraphMotion(ph, []);
        EmptySync(ph);
        current, keys := map[], [];
        this.epoch := epoch;
      }
      this.time := time;
      world.Sync(entities);
      AlignEach(Actors(entities), states, Firsts(Actors(entities) + keys));
    }

    method AlignEach(actors: seq<Id>, states: States, ids: seq<Id>)
      requires Usable()
      modifies this, world
      ensures Usable() && world == old(world)
      ensures View() == AlignedAll(ph, old(View()), actors, states, ids)
    {
      hide Aligned, Listed;
      for k := 0 to |ids|
        invariant Usable() && world == old(world)
        invariant View() == AlignedAll(ph, old(View()), actors, states, ids[..k])
      {
        assert ids[..k + 1][..k] == ids[..k];
        Align(actors, states, ids[k]);
      }
      assert ids[..|ids|] == ids;
    }

    /** Dispatch what one agent's work state asks for. */
    method Align(actors: seq<Id>, states: States, id: Id)
      requires Usable()
      modifies this, world
      ensures Usable() && world == old(world)
      ensures View() == Aligned(ph, old(View()), actors, states, id)
    {
      hide Dispatch, Listed, Near, Dropping;
      var before := if id in current then Some(current[id]) else None;
      var action := Wanted(world.bodies, actors, states, id);
      if before.Some? && NameOf(action) != Some(before.value.action.id) {
        var name := before.value.action.id;
        revision := revision + 1;
        world.Dispatch(End(Minted(revision), time, id, name, OutcomeFor(states, id, name)));
        keys := Dropping(keys, id);
        current := current - {id};
      }
      if action.Some? {
        TakeUpWork(before, id, action.value, states[id].waiting);
      }
    }

    method TakeUpWork(before: Option<Held>, id: Id, action: Interaction, waiting: bool)
      requires Usable()
      modifies this, world
      ensures Usable() && world == old(world)
      ensures View() == TakeOn(ph, old(View()), before, id, action, waiting)
    {
      hide Dispatch, Listed;
      if before.None? || before.value.action.id != action.id {
        revision := revision + 1;
        world.Dispatch(Start(Minted(revision), time, action));
      }
      if before.None? || before.value.action.id != action.id || before.value.waiting != waiting {
        revision := revision + 1;
        world.Dispatch(if waiting then Wait(Minted(revision), time, id, action.id)
                       else Resume(Minted(revision), time, id, action.id));
      }
      if id !in current {
        keys := keys + [id];
      }
      current := current[id := Held(action, waiting)];
    }

    method Advance(seconds: real, reduced: bool)
      requires Usable()
      modifies world
      ensures Usable() && View() == old(View()).(world := W.Advance(ph, old(world.View()), seconds, reduced))
    {
      hide W.Advance, Listed;
      world.Advance(seconds, reduced);
    }
  }

  /** Syncing nothing into nothing leaves the empty world a new lens starts from. */
  lemma {:induction false} EmptySync(ph: Physics)
    ensures W.Sync(ph, Empty, []) == Empty
  {
  }
}
