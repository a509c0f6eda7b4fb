/**
 Playback does not depend on the display: however the time is cut into frames, the same events meet the same world.
 */
module PlaybackFrames {
  import opened Common
  import opened Interactions
  import opened W = MotionWorld
  import opened MotionRuns
  import opened P = MotionPlayback
  import Steps = MotionSteps

  /** Time is added in one go and every step then due is run. */
  function Ran(ph: Physics, w: World, seconds: real): (r: World)
    requires Listed(w)
    ensures Listed(r)
  {
    Drained(ph, w.(accumulator := w.accumulator + seconds))
  }

  /** Running for a while and then for another is running for both. */
  lemma {:induction false} RanTwice(ph: Physics, w: World, a: real, b: real)
    requires Listed(w) && b >= 0.0
    ensures Ran(ph, Ran(ph, w, a), b) == Ran(ph, w, a + b)
  {
    hide Drained;
    var due := w.(accumulator := w.accumulator + a);
    DrainTwice(ph, due, b);
    assert due.(accumulator := due.accumulator + b) == w.(accumulator := w.accumulator + (a + b));
  }

  lemma {:induction false} RanIsAdvance(ph: Physics, w: World, seconds: real)
    requires Listed(w) && 0.0 <= seconds <= 0.25
    ensures Advance(ph, w, seconds, false) == Ran(ph, w, seconds)
  {
    hide Drained;
  }

  lemma {:induction false} RanValid(ph: Physics, w: World, seconds: real)
    requires Valid(w)
    ensures Valid(Ran(ph, w, seconds))
  {
    hide Drained, Sound;
    DrainedKeeps(ph, w.(accumulator := w.accumulator + seconds));
  }

  /** No event still to come is overdue, and they come in order. */
  ghost predicate Ahead(events: seq<Event>, p: Play) {
    && (forall i, j :: 0 <= i < j < |events| ==> events[i].at <= events[j].at)
    && (p.cursor < |events| ==> p.elapsed <= events[p.cursor].at)
  }

  /** The plain meaning of playing up to a time: at each event's own time, the event; in between, the world runs. */
  function To(ph: Physics, events: seq<Event>, p: Play, target: real): (r: Play)
    requires Valid(p.world)
    ensures Valid(r.world) && r.elapsed == target
    decreases |events| - p.cursor
  {
    if p.cursor < |events| && events[p.cursor].at <= target then
      MetValid(ph, p, events[p.cursor]);
      To(ph, events, Met(ph, p, events[p.cursor]), target)
    else
      RanValid(ph, p.world, target - p.elapsed);
      Play(Ran(ph, p.world, target - p.elapsed), target, p.cursor)
  }

  function Met(ph: Physics, p: Play, e: Event): Play
    requires Listed(p.world)
  {
    Play(Dispatch(ph, Ran(ph, p.world, e.at - p.elapsed), e), e.at, p.cursor + 1)
  }

  lemma {:induction false} MetValid(ph: Physics, p: Play, e: Event)
    requires Valid(p.world)
    ensures Valid(Met(ph, p, e).world)
  {
    hide Ran, Dispatch, Sound;
    RanValid(ph, p.world, e.at - p.elapsed);
    DispatchKeeps(ph, Ran(ph, p.world, e.at - p.elapsed), e);
  }

  /** One call of at most 0.25 s plays up to its end. */
  lemma {:induction false} CatchesUpTo(ph: Physics, ex: Example, p: Play, target: real)
    requires Valid(p.world) && Ahead(ex.events, p) && p.elapsed <= target <= p.elapsed + 0.25
    ensures var q := CaughtUp(ph, ex, p, target, false);
            Play(Advance(ph, q.world, Later(target - q.elapsed), false), target, q.cursor)
            == To(ph, ex.events, p, target)
    decreases |ex.events| - p.cursor
  {
    hide Dispatch, Advance, Ran;
    if IsDue(ex, p, target) {
      var e := ex.events[p.cursor];
      RanIsAdvance(ph, p.world, e.at - p.elapsed);
      assert Fired(ph, ex, p, false) == Met(ph, p, e);
      MetValid(ph, p, e);
      CatchesUpTo(ph, ex, Met(ph, p, e), target);
    } else {
      RanIsAdvance(ph, p.world, target - p.elapsed);
    }
  }

  lemma {:induction false} PlayedIsTo(ph: Physics, ex: Example, p: Play, seconds: real)
    requires Valid(p.world) && Ahead(ex.events, p) && 0.0 <= seconds <= 0.25 && p.elapsed <= ex.duration
    ensures Played(ph, Some(ex), p, seconds, true, false)
            == To(ph, ex.events, p, Least(p.elapsed + seconds, ex.duration))
  {
    hide To, CaughtUp, Advance;
    CatchesUpTo(ph, ex, p, Least(p.elapsed + seconds, ex.duration));
  }

  lemma {:induction false} StaysAhead(ph: Physics, events: seq<Event>, p: Play, target: real)
    requires Valid(p.world) && Ahead(events, p) && p.elapsed <= target
    ensures Ahead(events, To(ph, events, p, target))
    decreases |events| - p.cursor
  {
    hide Ran, Dispatch;
    if p.cursor < |events| && events[p.cursor].at <= target {
      MetValid(ph, p, events[p.cursor]);
      StaysAhead(ph, events, Met(ph, p, events[p.cursor]), target);
    }
  }

  /** Playing up to one time and then to a later one is playing up to the later one. */
  lemma {:induction false} ToTwice(ph: Physics, events: seq<Event>, p: Play, first: real, second: real)
    requires Valid(p.world) && Ahead(events, p) && p.elapsed <= first <= second
    ensures To(ph, events, To(ph, events, p, first), second) == To(ph, events, p, second)
    decreases |events| - p.cursor
  {
    hide Ran, Dispatch;
    if p.cursor < |events| && events[p.cursor].at <= first {
      MetValid(ph, p, events[p.cursor]);
      ToTwice(ph, events, Met(ph, p, events[p.cursor]), first, second);
    } else {
      RanValid(ph, p.world, first - p.elapsed);
      var midway := Play(Ran(ph, p.world, first - p.elapsed), first, p.cursor);
      MidwayMeets(ph, events, p, midway, second);
    }
  }

  /** With no event in between, stopping on the way changes nothing. */
  lemma {:induction false} MidwayMeets(ph: Physics, events: seq<Event>, p: Play, midway: Play, target: real)
    requires Valid(p.world) && Valid(midway.world) && p.elapsed <= midway.elapsed <= target
    requires midway == Play(Ran(ph, p.world, midway.elapsed - p.elapsed), midway.elapsed, p.cursor)
    requires p.cursor < |events| ==> midway.elapsed < events[p.cursor].at
    ensures To(ph, events, midway, target) == To(ph, events, p, target)
  {
    hide Ran, Dispatch;
    var gap := midway.elapsed - p.elapsed;
    if p.cursor < |events| && events[p.cursor].at <= target {
      var e := events[p.cursor];
      RanTwice(ph, p.world, gap, e.at - midway.elapsed);
      assert gap + (e.at - midway.elapsed) == e.at - p.elapsed;
      assert Met(ph, midway, e) == Met(ph, p, e);
    } else {
      RanTwice(ph, p.world, gap, target - midway.elapsed);
      assert gap + (target - midway.elapsed) == target - p.elapsed;
    }
  }

  /** Calls that play, one frame after another. */
  function PlayedAll(ph: Physics, ex: Example, p: Play, frames: seq<real>): (r: Play)
    requires Valid(p.world)
    ensures Valid(r.world)
  {
    if frames == [] then p
    else Played(ph, Some(ex), PlayedAll(ph, ex, p, frames[..|frames| - 1]), frames[|frames| - 1], true, false)
  }

  /** Any frames of at most 0.25 s play up to the time they add up to, or to the end. */
  lemma {:induction false} FramesPlayTo(ph: Physics, ex: Example, p: Play, frames: seq<real>)
    requires Valid(p.world) && Ahead(ex.events, p) && p.elapsed <= ex.duration && frames != []
    requires forall f :: f in frames ==> 0.0 <= f <= 0.25
    ensures Total(frames) >= 0.0
    ensures PlayedAll(ph, ex, p, frames) == To(ph, ex.events, p, Least(p.elapsed + Total(frames), ex.duration))
  {
    hide To, Played;
    var init, last := frames[..|frames| - 1], frames[|frames| - 1];
    assert last in frames && forall f :: f in init ==> f in frames;
    if init == [] {
      assert Total(init) == 0.0;
      PlayedIsTo(ph, ex, p, last);
    } else {
      FramesPlayTo(ph, ex, p, init);
      var first := Least(p.elapsed + Total(init), ex.duration);
      var second := Least(p.elapsed + Total(frames), ex.duration);
      StaysAhead(ph, ex.events, p, first);
      PlayedIsTo(ph, ex, To(ph, ex.events, p, first), last);
      assert Least(first + last, ex.duration) == second;
      ToTwice(ph, ex.events, p, first, second);
    }
  }

  /** However the same playing time is cut into frames, playback ends in the same world at the same place. */
  lemma {:induction false} PlaybackFrameRateIndependent(ph: Physics, ex: Example, p: Play, a: seq<real>, b: seq<real>)
    requires Valid(p.world) && Ahead(ex.events, p) && p.elapsed <= ex.duration
    requires a != [] && b != [] && Total(a) == Total(b) && forall f :: f in a + b ==> 0.0 <= f <= 0.25
    ensures PlayedAll(ph, ex, p, a) == PlayedAll(ph, ex, p, b)
  {
    hide To, PlayedAll;
    assert forall f :: f in a ==> f in a + b;
    assert forall f :: f in b ==> f in a + b;
    FramesPlayTo(ph, ex, p, a);
    FramesPlayTo(ph, ex, p, b);
  }

  /** The clock of the world keeps pace with the time played. */
  lemma {:induction false} WorldKeepsTime(ph: Physics, events: seq<Event>, p: Play, target: real)
    requires Valid(p.world)
    ensures var r := To(ph, events, p, target);
            r.world.time + r.world.accumulator - r.elapsed == p.world.time + p.world.accumulator - p.elapsed
    decreases |events| - p.cursor
  {
    hide Dispatch, Drained;
    if p.cursor < |events| && events[p.cursor].at <= target {
      var e := events[p.cursor];
      RanTime(ph, p.world, e.at - p.elapsed);
      DispatchTime(ph, Ran(ph, p.world, e.at - p.elapsed), e);
      MetValid(ph, p, e);
      WorldKeepsTime(ph, events, Met(ph, p, e), target);
    } else {
      RanTime(ph, p.world, target - p.elapsed);
    }
  }

  lemma {:induction false} RanTime(ph: Physics, w: World, seconds: real)
    requires Listed(w)
    ensures Ran(ph, w, seconds).time + Ran(ph, w, seconds).accumulator == w.time + w.accumulator + seconds
  {
    hide Drained;
    Steps.DrainedTime(ph, w.(accumulator := w.accumulator + seconds));
  }

  lemma {:induction false} DispatchTime(ph: Physics, w: World, e: Event)
    ensures Dispatch(ph, w, e).time == w.time && Dispatch(ph, w, e).accumulator == w.accumulator
  {
  }
  /** The seek loop's frames lead where playing in one go would. */
  lemma {:induction false} SoughtOnTheWay(ph: Physics, ex: Example, p: Play, target: real)
    requires Valid(p.world) && Ahead(ex.events, p) && p.elapsed <= target <= ex.duration
    ensures var q := Sought(ph, Some(ex), p, target);
            && q.elapsed <= target && Ahead(ex.events, q)
            && To(ph, ex.events, q, target) == To(ph, ex.events, p, target)
    decreases ((target - p.elapsed) * 125.0).Floor
  {
    hide To, Played, Ahead;
    if p.elapsed + SEEK_SLACK < target {
      var stride := Least(SEEK_FRAME, target - p.elapsed);
      SeekShrinks(target - p.elapsed, stride);
      var next := Played(ph, Some(ex), p, stride, true, false);
      PlayedIsTo(ph, ex, p, stride);
      StaysAhead(ph, ex.events, p, p.elapsed + stride);
      SoughtOnTheWay(ph, ex, next, target);
      ToTwice(ph, ex.events, p, p.elapsed + stride, target);
    }
  }

  /** Seeking shows the world as if it had been played to that time, at rest. */
  lemma {:induction false} SeekIsPlaying(ph: Physics, entities: seq<Entity>, ex: Example, time: real)
    requires Ahead(ex.events, Rewound(ph, entities)) && ex.duration >= 0.0 && Valid(Rewound(ph, entities).world)
    ensures var target := if time < 0.0 then 0.0 else Least(time, ex.duration);
            var played := To(ph, ex.events, Rewound(ph, entities), target);
            SeekResult(ph, entities, Some(ex), time) == played.(world := Settle(ph, played.world))
  {
    hide To, Played, Ahead, Sync, Settle, Sought;
    var target := SeekTarget(Some(ex), time);
    SoughtOnTheWay(ph, ex, Rewound(ph, entities), target);
    var q := Sought(ph, Some(ex), Rewound(ph, entities), target);
    PlayedIsTo(ph, ex, q, target - q.elapsed);
  }
}
