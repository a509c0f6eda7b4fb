/** The operational reading of a trace: what each agent does, and which failures are still open. */
module WorkScene {
  import opened Common
  import opened Interactions

  datatype Past = Past(interaction: Interaction, at: real, outcome: Outcome)
  datatype Failure = Failure(interaction: Interaction, at: real, retryId: Option<Id>)
  datatype WorkState = WorkState(
    interaction: Option<Interaction>, started: real, waiting: bool,
    previous: Option<Past>, failure: Option<Failure>, failures: seq<Failure>)

  type Scene = map<Id, WorkState>

  const Unseen := WorkState(None, 0.0, false, None, None, [])

  function StateOf(scene: Scene, id: Id): WorkState {
    if id in scene then scene[id] else Unseen
  }

  function NameOf(work: Option<Interaction>): Option<Id> {
    if work.Some? then Some(work.value.id) else None
  }

  /** Index of the first failure being retried under `who`, or the length; absent matches absent. */
  function FirstRetried(fs: seq<Failure>, who: Option<Id>): (k: nat)
    ensures k <= |fs|
    ensures k < |fs| ==> fs[k].retryId == who
    ensures forall j :: 0 <= j < k ==> fs[j].retryId != who
  {
    if fs == [] || fs[0].retryId == who then 0 else 1 + FirstRetried(fs[1..], who)
  }

  /** Index of the first failure of the interaction named `of`, or the length. */
  function FirstOf(fs: seq<Failure>, of: Option<Id>): (k: nat)
    ensures k <= |fs|
    ensures k < |fs| ==> Some(fs[k].interaction.id) == of
    ensures forall j :: 0 <= j < k ==> Some(fs[j].interaction.id) != of
  {
    if fs == [] || Some(fs[0].interaction.id) == of then 0 else 1 + FirstOf(fs[1..], of)
  }

  function Marked(fs: seq<Failure>, k: nat, retryId: Option<Id>): (r: seq<Failure>)
    ensures |r| == |fs|
    ensures forall j :: 0 <= j < |fs| ==> r[j] == if j == k then fs[j].(retryId := retryId) else fs[j]
  {
    if k < |fs| then fs[k := fs[k].(retryId := retryId)] else fs
  }

  function Without(fs: seq<Failure>, id: Id): seq<Failure> {
    if fs == [] then []
    else
      var init := Without(fs[..|fs| - 1], id);
      if fs[|fs| - 1].interaction.id != id then init + [fs[|fs| - 1]] else init
  }

  function Begun(s: WorkState, at: real, action: Interaction): WorkState {
    var interrupted := Marked(s.failures, FirstRetried(s.failures, NameOf(s.interaction)), None);
    var retried := Marked(interrupted, FirstOf(interrupted, action.retryOf), Some(action.id));
    s.(interaction := Some(action), started := at, waiting := false, failures := retried,
       previous := if s.interaction.Some? then Some(Past(s.interaction.value, at, Cancelled)) else s.previous)
  }

  function Ended(s: WorkState, at: real, outcome: Outcome): WorkState
    requires s.interaction.Some?
  {
    var action := s.interaction.value;
    var original := FirstOf(s.failures, action.retryOf);
    var cleared := Marked(s.failures, original, None);
    var pushed := if outcome == Failed && original == |s.failures| then cleared + [Failure(action, at, None)]
                  else cleared;
    var left := if outcome == Completed && action.retryOf.Some? && action.retryOf.value != ""
                then Without(pushed, action.retryOf.value) else pushed;
    s.(interaction := None, waiting := false, failures := left, previous := Some(Past(action, at, outcome)))
  }

  function Updated(s: WorkState, e: Event): WorkState {
    var next := if e.Start? then Begun(s, e.at, e.interaction)
                else if !Names(s.interaction, e.interactionId) then s
                else if e.End? then Ended(s, e.at, e.outcome)
                else s.(waiting := e.Wait?);
    next.(failure := if next.failures == [] then None else Some(next.failures[0]))
  }

  /** The scene after a run of events. */
  function SceneOf(events: seq<Event>): Scene {
    if events == [] then map[]
    else
      var before := SceneOf(events[..|events| - 1]);
      var e := events[|events| - 1];
      before[Subject(e) := Updated(StateOf(before, Subject(e)), e)]
  }

  /** How many leading events are due by `elapsed`. */
  function Due(events: seq<Event>, elapsed: real): (n: nat)
    ensures n <= |events|
    ensures forall j :: 0 <= j < n ==> events[j].at <= elapsed
    ensures n < |events| ==> events[n].at > elapsed
  {
    if events == [] || events[0].at > elapsed then 0 else 1 + Due(events[1..], elapsed)
  }

  /** The fold over a trace, stopping at the first event that is not due. */
  method ReadScene(events: seq<Event>, elapsed: real) returns (scene: Scene)
    ensures scene == SceneOf(events[..Due(events, elapsed)])
  {
    hide Updated;
    scene := map[];
    var k := 0;
    while k < |events| && events[k].at <= elapsed
      invariant 0 <= k <= Due(events, elapsed)
      invariant scene == SceneOf(events[..k])
    {
      assert events[..k + 1][..k] == events[..k];
      var e := events[k];
      var id := Subject(e);
      var state := if id in scene then scene[id] else Unseen;
      state := UpdateState(state, e);
      scene := scene[id := state];
      k := k + 1;
    }
  }

  /** One event, applied to the state of the agent it is about. */
  method UpdateState(before: WorkState, e: Event) returns (state: WorkState)
    ensures state == Updated(before, e)
  {
    state := before;
    if e.Start? {
      var retrying := FirstRetried(state.failures, NameOf(state.interaction));
      if retrying < |state.failures| {
        state := state.(failures := state.failures[retrying := state.failures[retrying].(retryId := None)]);
      }
      if state.interaction.Some? {
        state := state.(previous := Some(Past(state.interaction.value, e.at, Cancelled)));
      }
      state := state.(interaction := Some(e.interaction), started := e.at, waiting := false);
      var retry := FirstOf(state.failures, e.interaction.retryOf);
      if retry < |state.failures| {
        state := state.(failures := state.failures[retry := state.failures[retry].(retryId := Some(e.interaction.id))]);
      }
    } else if Names(state.interaction, e.interactionId) {
      if e.End? {
        state := Ended(state, e.at, e.outcome);
      } else {
        state := state.(waiting := e.Wait?);
      }
    }
    state := state.(failure := if state.failures == [] then None else Some(state.failures[0]));
  }

  // ---------------------------------------------------------------- what an agent does

  /** The plain reading of a trace by one agent. */
  function Story(events: seq<Event>, id: Id): Intent {
    if events == [] then Idle
    else
      var before := Story(events[..|events| - 1], id);
      var e := events[|events| - 1];
      if Subject(e) == id then Heard(before, e) else before
  }

  function SceneIntent(scene: Scene, id: Id): Intent {
    Intent(StateOf(scene, id).interaction, StateOf(scene, id).waiting)
  }

  /** The scene shows each agent's plain reading of the trace. */
  lemma {:induction false} SceneTellsStory(events: seq<Event>, id: Id)
    ensures SceneIntent(SceneOf(events), id) == Story(events, id)
  {
    if events != [] {
      SceneTellsStory(events[..|events| - 1], id);
    }
  }

  /** Current work was started by an earlier event of that agent. */
  lemma {:induction false} StoryWasStarted(events: seq<Event>, id: Id)
    requires Story(events, id).interaction.Some?
    ensures exists j :: 0 <= j < |events| && events[j].Start?
              && events[j].interaction == Story(events, id).interaction.value
                        && Subject(events[j]) == id
  {
    var init, e := events[..|events| - 1], events[|events| - 1];
    if Subject(e) == id && e.Start? {
      assert events[|events| - 1].Start?;
    } else {
      StoryWasStarted(init, id);
      var j :| 0 <= j < |init| && init[j].Start? && init[j].interaction == Story(init, id).interaction.value
          && Subject(init[j]) == id;
      assert events[j] == init[j];
    }
  }
}
