/** Scheduled playback of a trace into the motion world, and its agreement with the work scene. */
module MotionPlayback {
  import opened Common
  import opened Interactions
  import opened W = MotionWorld
  import opened MotionRuns
  import WorkScene
  import G = GraphMotionObject

  const SEEK_SLACK: real := 0.008
  const SEEK_FRAME: real := 1.0 / 60.0

  datatype Example = Example(events: seq<Event>, duration: real)
  datatype Play = Play(world: World, elapsed: real, cursor: nat)

  function Rewound(ph: Physics, entities: seq<Entity>): Play {
    Play(Sync(ph, Empty, entities), 0.0, 0)
  }

  function Least(a: real, b: real): real {
    if b < a then b else a
  }

  function Later(seconds: real): real {
    if seconds < 0.0 then 0.0 else seconds
  }

  predicate IsDue(ex: Example, p: Play, target: real) {
    p.cursor < |ex.events| && ex.events[p.cursor].at <= target
  }

  /** Run up to the next due event and dispatch it. */
  function Fired(ph: Physics, ex: Example, p: Play, reduced: bool): Play
    requires Listed(p.world) && p.cursor < |ex.events|
  {
    var e := ex.events[p.cursor];
    Play(Dispatch(ph, Advance(ph, p.world, Later(e.at - p.elapsed), reduced), e), e.at, p.cursor + 1)
  }

  function CaughtUp(ph: Physics, ex: Example, p: Play, target: real, reduced: bool): (r: Play)
    requires Valid(p.world)
    ensures Valid(r.world)
    decreases |ex.events| - p.cursor
  {
    if IsDue(ex, p, target) then
      FiredKeeps(ph, ex, p, reduced);
      CaughtUp(ph, ex, Fired(ph, ex, p, reduced), target, reduced)
    else p
  }

  function Played(ph: Physics, ex: Option<Example>, p: Play, seconds: real, play: bool, reduced: bool): (r: Play)
    requires Valid(p.world)
    ensures Valid(r.world)
    ensures r.elapsed == if play && ex.Some? then Least(p.elapsed + seconds, ex.value.duration) else p.elapsed
  {
    if !play || ex.None? then
      AdvanceKeeps(ph, p.world, seconds, reduced);
      p.(world := Advance(ph, p.world, seconds, reduced))
    else
      var target := Least(p.elapsed + seconds, ex.value.duration);
      var q := CaughtUp(ph, ex.value, p, target, reduced);
      AdvanceKeeps(ph, q.world, Later(target - q.elapsed), reduced);
      Play(Advance(ph, q.world, Later(target - q.elapsed), reduced), target, q.cursor)
  }

  function SeekTarget(ex: Option<Example>, time: real): real {
    var duration := if ex.Some? then ex.value.duration else 0.0;
    var capped := Least(duration, time);
    if capped < 0.0 then 0.0 else capped
  }

  function Sought(ph: Physics, ex: Option<Example>, p: Play, target: real): (r: Play)
    requires Valid(p.world) && (p.elapsed < target ==> ex.Some? && target <= ex.value.duration)
    ensures Valid(r.world) && r.elapsed + SEEK_SLACK >= target
    ensures r.elapsed < target ==> ex.Some? && target <= ex.value.duration
    decreases ((target - p.elapsed) * 125.0).Floor
  {
    if p.elapsed + SEEK_SLACK < target then
      var stride := Least(SEEK_FRAME, target - p.elapsed);
      SeekShrinks(target - p.elapsed, stride);
      Sought(ph, ex, Played(ph, ex, p, stride, true, false), target)
    else p
  }

  lemma {:induction false} SeekShrinks(gap: real, stride: real)
    requires gap > SEEK_SLACK && SEEK_SLACK < stride <= gap
    ensures 0 <= ((gap - stride) * 125.0).Floor < (gap * 125.0).Floor
  {
    assert (gap - stride) * 125.0 <= gap * 125.0 - 1.0;
  }

  lemma {:induction false} FiredKeeps(ph: Physics, ex: Example, p: Play, reduced: bool)
    requires Valid(p.world) && p.cursor < |ex.events|
    ensures Valid(Fired(ph, ex, p, reduced).world)
  {
    hide Advance, Dispatch, Sound, SameIntents;
    var e := ex.events[p.cursor];
    AdvanceKeeps(ph, p.world, Later(e.at - p.elapsed), reduced);
    DispatchKeeps(ph, Advance(ph, p.world, Later(e.at - p.elapsed), reduced), e);
  }

  // ---------------------------------------------------------------- traces that can be played

  /** Every start names a listed agent, a listed host, and not the agent itself. */
  ghost predicate Playable(ph: Physics, entities: seq<Entity>, events: seq<Event>) {
    && (forall i, j :: 0 <= i < j < |events| ==> events[i].at <= events[j].at)
    && (forall i, j :: 0 <= i < j < |events| ==> events[i].id != events[j].id)
    && (forall i, j :: 0 <= i < j < |events| && events[i].Start? && events[j].Start? ==>
          events[i].interaction.id != events[j].interaction.id)
    && (forall i :: 0 <= i < |events| && events[i].Start? ==>
          Startable(Sync(ph, Empty, entities).bodies, events[i].interaction))
  }

  function IntentIn(bodies: Bodies, id: Id): Intent {
    if id in bodies then IntentOf(bodies[id]) else Idle
  }

  ghost predicate SameRoster(a: Bodies, b: Bodies) {
    a.Keys == b.Keys && forall id :: id in a ==> a[id].kind == b[id].kind
  }

  /** The world has heard exactly the events before the cursor. */
  ghost predicate InStep(ph: Physics, entities: seq<Entity>, events: seq<Event>, p: Play) {
    && Valid(p.world) && p.cursor <= |events|
    && SameRoster(p.world.bodies, Sync(ph, Empty, entities).bodies)
    && (forall e :: e in events[p.cursor..] ==> e.id !in p.world.seen)
    && (forall id :: IntentIn(p.world.bodies, id) == WorkScene.Story(events[..p.cursor], id))
  }

  /** The cursor stands exactly at the first event that is not yet due. */
  predicate OnTime(events: seq<Event>, p: Play) {
    p.cursor == WorkScene.Due(events, p.elapsed)
  }

  lemma {:induction false} RewoundInStep(ph: Physics, entities: seq<Entity>, events: seq<Event>)
    ensures InStep(ph, entities, events, Rewound(ph, entities)) && Valid(Rewound(ph, entities).world)
  {
    hide Sync, Sound, IntentOf;
    assert Valid(Empty) by { EmptyIsValid(); }
    SyncKeeps(ph, Empty, entities);
    assert events[..0] == [];
  }

  lemma {:induction false} EmptyIsValid()
    ensures Valid(Empty)
  {
  }

  lemma {:induction false} WaitInStep(ph: Physics, entities: seq<Entity>, events: seq<Event>, p: Play, seconds: real,
                                      reduced: bool, elapsed: real)
    requires InStep(ph, entities, events, p)
    ensures InStep(ph, entities, events, Play(Advance(ph, p.world, seconds, reduced), elapsed, p.cursor))
  {
    hide Advance, Sync, Sound, IntentOf, WorkScene.Story;
    AdvanceKeeps(ph, p.world, seconds, reduced);
    var after := Advance(ph, p.world, seconds, reduced).bodies;
    forall id
      ensures IntentIn(after, id) == IntentIn(p.world.bodies, id)
    {
    }
  }

  /** The next event of a playable trace is heard by its agent, whoever it is. */
  lemma {:induction false} StoryHeard(ph: Physics, entities: seq<Entity>, events: seq<Event>, p: Play, id: Id)
    requires Playable(ph, entities, events) && InStep(ph, entities, events, p) && p.cursor < |events|
    ensures IntentIn(Dispatch(ph, p.world, events[p.cursor]).bodies, id) == WorkScene.Story(events[..p.cursor + 1], id)
  {
    hide Dispatch, Sync, Sound, Listed, IntentOf;
    var e, told := events[p.cursor], events[..p.cursor];
    assert events[..p.cursor + 1] == told + [e] && (told + [e])[..p.cursor] == told;
    assert e in events[p.cursor..];
    DispatchKeeps(ph, p.world, e);
    assert IntentIn(p.world.bodies, id) == WorkScene.Story(told, id);
    if id == Subject(e) && id in p.world.bodies {
      if e.Start? {
        FreshStart(ph, entities, events, p.cursor);
      }
      DispatchHeard(ph, p.world, e);
    }
  }

  lemma {:induction false} DispatchInStep(ph: Physics, entities: seq<Entity>, events: seq<Event>, p: Play)
    requires Playable(ph, entities, events) && InStep(ph, entities, events, p) && p.cursor < |events|
    ensures InStep(ph, entities, events,
                   Play(Dispatch(ph, p.world, events[p.cursor]), events[p.cursor].at, p.cursor + 1))
  {
    hide Dispatch, Sync, Sound, Listed, IntentIn, WorkScene.Story;
    var e := events[p.cursor];
    DispatchKeeps(ph, p.world, e);
    forall f | f in events[p.cursor + 1..]
      ensures f in events[p.cursor..] && f.id != e.id
    {
    }
    forall id
      ensures IntentIn(Dispatch(ph, p.world, e).bodies, id) == WorkScene.Story(events[..p.cursor + 1], id)
    {
      StoryHeard(ph, entities, events, p, id);
    }
  }

  /** A start never repeats the name of what its agent is already doing. */
  lemma {:induction false} FreshStart(ph: Physics, entities: seq<Entity>, events: seq<Event>, k: nat)
    requires Playable(ph, entities, events) && k < |events| && events[k].Start?
    ensures !Names(WorkScene.Story(events[..k], Subject(events[k])).interaction, events[k].interaction.id)
  {
    var told, id := events[..k], Subject(events[k]);
    if WorkScene.Story(told, id).interaction.Some? {
      WorkScene.StoryWasStarted(told, id);
      var j :| 0 <= j < |told| && told[j].Start? && told[j].interaction == WorkScene.Story(told, id).interaction.value;
      assert events[j] == told[j];
    }
  }

  lemma {:induction false} CaughtUpInStep(ph: Physics, entities: seq<Entity>, ex: Example, p: Play, target: real,
                                          reduced: bool)
    requires Playable(ph, entities, ex.events) && InStep(ph, entities, ex.events, p)
    requires forall j :: 0 <= j < p.cursor ==> ex.events[j].at <= target
    ensures var q := CaughtUp(ph, ex, p, target, reduced);
            InStep(ph, entities, ex.events, q) && q.cursor == WorkScene.Due(ex.events, target)
    decreases |ex.events| - p.cursor
  {
    hide Advance, Dispatch, Sync, Sound, Listed, Playable;
    if IsDue(ex, p, target) {
      var e := ex.events[p.cursor];
      var waited := Play(Advance(ph, p.world, Later(e.at - p.elapsed), reduced), p.elapsed, p.cursor);
      WaitInStep(ph, entities, ex.events, p, Later(e.at - p.elapsed), reduced, p.elapsed);
      DispatchInStep(ph, entities, ex.events, waited);
      assert Fired(ph, ex, p, reduced) == Play(Dispatch(ph, waited.world, e), e.at, p.cursor + 1);
      CaughtUpInStep(ph, entities, ex, Fired(ph, ex, p, reduced), target, reduced);
    }
  }

  // ---------------------------------------------------------------- whole playbacks

  /** Playback has begun: it is on time and has not passed the end. */
  predicate Underway(ex: Example, p: Play) {
    OnTime(ex.events, p) && p.elapsed <= ex.duration
  }

  lemma {:induction false} PlayedInStep(ph: Physics, entities: seq<Entity>, ex: Example, p: Play, seconds: real,
                                        play: bool, reduced: bool)
    requires Playable(ph, entities, ex.events) && InStep(ph, entities, ex.events, p) && Valid(p.world) && seconds >= 0.0
    requires Underway(ex, p) || p.cursor == 0
    ensures InStep(ph, entities, ex.events, Played(ph, Some(ex), p, seconds, play, reduced))
    ensures play || Underway(ex, p) ==> Underway(ex, Played(ph, Some(ex), p, seconds, play, reduced))
    ensures !play ==> Played(ph, Some(ex), p, seconds, play, reduced).cursor == p.cursor
  {
    hide Advance, CaughtUp, Valid, InStep, Playable;
    if !play {
      WaitInStep(ph, entities, ex.events, p, seconds, reduced, p.elapsed);
    } else {
      var target := Least(p.elapsed + seconds, ex.duration);
      CaughtUpInStep(ph, entities, ex, p, target, reduced);
      var q := CaughtUp(ph, ex, p, target, reduced);
      WaitInStep(ph, entities, ex.events, q, Later(target - q.elapsed), reduced, target);
    }
  }

  datatype Call = Call(seconds: real, play: bool, reduced: bool)

  function PlayedAll(ph: Physics, entities: seq<Entity>, ex: Option<Example>, calls: seq<Call>): (p: Play)
    ensures Valid(p.world)
  {
    if calls == [] then SyncKeeps(ph, Empty, entities); Rewound(ph, entities)
    else
      var c := calls[|calls| - 1];
      Played(ph, ex, PlayedAll(ph, entities, ex, calls[..|calls| - 1]), c.seconds, c.play, c.reduced)
  }

  lemma {:induction false} PlayedAllInStep(ph: Physics, entities: seq<Entity>, ex: Example, calls: seq<Call>)
    requires Playable(ph, entities, ex.events) && forall c :: c in calls ==> c.seconds >= 0.0
    ensures InStep(ph, entities, ex.events, PlayedAll(ph, entities, Some(ex), calls))
    ensures if exists c :: c in calls && c.play then Underway(ex, PlayedAll(ph, entities, Some(ex), calls))
            else var p := PlayedAll(ph, entities, Some(ex), calls); p.cursor == 0 && p.elapsed == 0.0
  {
    hide Played, InStep, Playable, Valid, Sync;
    if calls == [] {
      RewoundInStep(ph, entities, ex.events);
    } else {
      var init, c := calls[..|calls| - 1], calls[|calls| - 1];
      assert calls == init + [c];
      PlayedAllInStep(ph, entities, ex, init);
      PlayedInStep(ph, entities, ex, PlayedAll(ph, entities, Some(ex), init), c.seconds, c.play, c.reduced);
    }
  }

  /** This agent's queued-else-attached interaction and waiting flag are those of the work scene at the elapsed time. */
  ghost predicate Agrees(p: Play, events: seq<Event>, id: Id) {
    IntentIn(p.world.bodies, id)
        == WorkScene.SceneIntent(WorkScene.SceneOf(events[..WorkScene.Due(events, p.elapsed)]), id)
  }

  /**
   Whatever the frame times and however much it was paused, playback and the work scene agree on an agent
   exactly if playback has run at all or the agent has no work at time zero.
   */
  lemma {:induction false} PlaybackShowsScene(ph: Physics, entities: seq<Entity>, ex: Example, calls: seq<Call>, id: Id)
    requires Playable(ph, entities, ex.events) && forall c :: c in calls ==> c.seconds >= 0.0
    ensures Agrees(PlayedAll(ph, entities, Some(ex), calls), ex.events, id) <==>
            (exists c :: c in calls && c.play)
                || WorkScene.SceneIntent(WorkScene.SceneOf(ex.events[..WorkScene.Due(ex.events, 0.0)]), id) == Idle
  {
    hide PlayedAll, Playable, WorkScene.SceneOf, WorkScene.Due, IntentIn;
    PlayedAllInStep(ph, entities, ex, calls);
    var p := PlayedAll(ph, entities, Some(ex), calls);
    if exists c :: c in calls && c.play {
      InStepShows(ph, entities, ex.events, p, id);
    } else {
      assert ex.events[..0] == [] && IntentIn(p.world.bodies, id) == WorkScene.Story([], id);
    }
  }

  /** Before the first playing call, work that starts at time zero is in the scene but not on the stage. */
  lemma {:induction false} UnplayedStartIsMissed(ph: Physics, entities: seq<Entity>, e: Event)
    requires e.Start? && e.at <= 0.0 && Playable(ph, entities, [e])
    ensures !Agrees(PlayedAll(ph, entities, Some(Example([e], 1.0)), []), [e], Subject(e))
  {
    hide PlayedAll, Playable, Agrees;
    PlaybackShowsScene(ph, entities, Example([e], 1.0), [], Subject(e));
    var due := WorkScene.Due([e], 0.0);
    assert due == 1 && [e][..due] == [] + [e] && ([] + [e])[..0] == [];
    WorkScene.SceneTellsStory([e], Subject(e));
  }

  lemma {:induction false} SoughtInStep(ph: Physics, entities: seq<Entity>, ex: Example, p: Play, target: real)
    requires Playable(ph, entities, ex.events) && InStep(ph, entities, ex.events, p) && Valid(p.world)
    requires (Underway(ex, p) || p.cursor == 0) && (p.elapsed < target ==> target <= ex.duration) && p.elapsed <= target
    ensures var q := Sought(ph, Some(ex), p, target);
            InStep(ph, entities, ex.events, q) && (Underway(ex, q) || q.cursor == 0) && q.elapsed <= target
    decreases ((target - p.elapsed) * 125.0).Floor
  {
    hide Played, Valid, InStep, Playable;
    if p.elapsed + SEEK_SLACK < target {
      var stride := Least(SEEK_FRAME, target - p.elapsed);
      SeekShrinks(target - p.elapsed, stride);
      PlayedInStep(ph, entities, ex, p, stride, true, false);
      SoughtInStep(ph, entities, ex, Played(ph, Some(ex), p, stride, true, false), target);
    }
  }

  function SeekResult(ph: Physics, entities: seq<Entity>, ex: Option<Example>, time: real): (p: Play)
    ensures Valid(p.world)
  {
    SyncKeeps(ph, Empty, entities);
    var target := SeekTarget(ex, time);
    var q := Sought(ph, ex, Rewound(ph, entities), target);
    var r := Played(ph, ex, q, target - q.elapsed, true, false);
    SettleKeeps(ph, r.world);
    r.(world := Settle(ph, r.world))
  }

  /** Seeking lands on the clamped time, or on the end if that lies before zero, and shows the work scene there. */
  lemma {:induction false} SeekShowsScene(ph: Physics, entities: seq<Entity>, ex: Example, time: real, id: Id)
    requires Playable(ph, entities, ex.events)
    ensures var p := SeekResult(ph, entities, Some(ex), time);
            && p.elapsed == (if ex.duration < 0.0 then ex.duration else SeekTarget(Some(ex), time))
            && Agrees(p, ex.events, id)
  {
    hide Played, Sought, Settle, Sync, Sound, Listed, InStep, Playable, WorkScene.SceneOf, WorkScene.SceneIntent,
      IntentIn;
    var target := SeekTarget(Some(ex), time);
    RewoundInStep(ph, entities, ex.events);
    SoughtInStep(ph, entities, ex, Rewound(ph, entities), target);
    var q := Sought(ph, Some(ex), Rewound(ph, entities), target);
    PlayedInStep(ph, entities, ex, q, target - q.elapsed, true, false);
    var r := Played(ph, Some(ex), q, target - q.elapsed, true, false);
    SettleInStep(ph, entities, ex.events, r);
    InStepShows(ph, entities, ex.events, r.(world := Settle(ph, r.world)), id);
  }

  /** A world in step and on time shows the scene. */
  lemma {:induction false} InStepShows(ph: Physics, entities: seq<Entity>, events: seq<Event>, p: Play, id: Id)
    requires InStep(ph, entities, events, p) && OnTime(events, p)
    ensures IntentIn(p.world.bodies, id)
            == WorkScene.SceneIntent(WorkScene.SceneOf(events[..WorkScene.Due(events, p.elapsed)]), id)
  {
    hide Sync, Valid, IntentIn, SameRoster;
    WorkScene.SceneTellsStory(events[..p.cursor], id);
  }

  lemma {:induction false} SettleInStep(ph: Physics, entities: seq<Entity>, events: seq<Event>, p: Play)
    requires InStep(ph, entities, events, p)
    ensures InStep(ph, entities, events, p.(world := Settle(ph, p.world)))
  {
    hide Settle, Sync, Sound, Listed;
    SettleKeeps(ph, p.world);
    forall id
      ensures IntentIn(Settle(ph, p.world).bodies, id) == IntentIn(p.world.bodies, id)
    {
    }
  }

  // ---------------------------------------------------------------- the playback object

  class MotionPlayback {
    const ph: Physics
    const entities: seq<Entity>
    const example: Option<Example>
    var world: G.GraphMotion
    var elapsed: real
    var cursor: nat

    ghost function View(): Play
      reads this, world
    {
      Play(world.View(), elapsed, cursor)
    }

    ghost predicate Usable()
      reads this, world
    {
      world.ph == ph && Valid(world.View())
    }

    constructor (ph: Physics, entities: seq<Entity>, example: Option<Example>)
      ensures Usable() && fresh(world) && View() == Rewound(ph, entities)
      ensures this.ph == ph && this.entities == entities && this.example == example
    {
      this.ph, this.entities, this.example := ph, entities, example;
      world := new G.GraphMotion(ph, entities);
      elapsed, cursor := 0.0, 0;
      new;
      SyncKeeps(ph, Empty, entities);
    }

    method Reset()
      modifies this
      ensures Usable() && fresh(world) && View() == Rewound(ph, entities)
    {
      world := new G.GraphMotion(ph, entities);
      cursor := 0;
      elapsed := 0.0;
      SyncKeeps(ph, Empty, entities);
    }

    method Advance(seconds: real, play: bool, reduced: bool)
      requires Usable()
      modifies this, world
      ensures Usable() && world == old(world)
      ensures View() == Played(ph, example, old(View()), seconds, play, reduced)
    {
      hide W.Advance, Dispatch, Sound, Listed;
      if !play || example.None? {
        AdvanceKeeps(ph, world.View(), seconds, reduced);
        world.Advance(seconds, reduced);
        return;
      }
      var target := Least(elapsed + seconds, example.value.duration);
      while cursor < |example.value.events| && example.value.events[cursor].at <= target
        invariant Usable() && world == old(world)
        invariant CaughtUp(ph, example.value, View(), target, reduced)
                  == CaughtUp(ph, example.value, old(View()), target, reduced)
        decreases |example.value.events| - cursor
      {
        FiredKeeps(ph, example.value, View(), reduced);
        ghost var before := View();
        var event := example.value.events[cursor];
        cursor := cursor + 1;
        world.Advance(Later(event.at - elapsed), reduced);
        elapsed := event.at;
        world.Dispatch(event);
        assert View() == Fired(ph, example.value, before, reduced);
      }
      AdvanceKeeps(ph, world.View(), Later(target - elapsed), reduced);
      world.Advance(Later(target - elapsed), reduced);
      elapsed := target;
    }

    method Seek(time: real)
      modifies this
      ensures Usable() && fresh(world)
      ensures View() == SeekResult(ph, entities, example, time)
    {
      hide Played, Settle, Sound, Listed, Sync;
      Reset();
      var target := SeekTarget(example, time);
      ghost var start := View();
      while elapsed + SEEK_SLACK < target
        invariant Usable() && fresh(world)
        invariant elapsed < target ==> example.Some? && target <= example.value.duration
        invariant Sought(ph, example, View(), target) == Sought(ph, example, start, target)
        decreases ((target - elapsed) * 125.0).Floor
      {
        var stride := Least(SEEK_FRAME, target - elapsed);
        SeekShrinks(target - elapsed, stride);
        Advance(stride, true, false);
      }
      Advance(target - elapsed, true, false);
      SettleKeeps(ph, world.View());
      world.Settle();
    }
  }
}
