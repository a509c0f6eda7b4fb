/** Which failures a trace leaves open, told from the whole history instead of the running ledger. */
module FailureLedger {
  import opened Common
  import opened Interactions
  import opened WorkScene

  /** The agent's ledger after a trace. */
  function Ledger(events: seq<Event>, a: Id): seq<Failure> {
    StateOf(SceneOf(events), a).failures
  }

  /** Event `i` ends, with this outcome, the work agent `a` is on at that moment. */
  predicate Concludes(events: seq<Event>, a: Id, i: nat, outcome: Outcome) {
    && i < |events| && events[i].End? && events[i].agentId == a && events[i].outcome == outcome
    && Names(Story(events[..i], a).interaction, events[i].interactionId)
  }

  function WorkAt(events: seq<Event>, a: Id, i: nat): Interaction
    requires i < |events| && Story(events[..i], a).interaction.Some?
  {
    Story(events[..i], a).interaction.value
  }

  /** A later success of work that names `id` as what it retries; an empty name never resolves. */
  ghost predicate ResolvedAfter(events: seq<Event>, a: Id, i: nat, id: Id) {
    id != "" && exists j :: i < j < |events| && Concludes(events, a, j, Completed)
                  && WorkAt(events, a, j).retryOf == Some(id)
  }

  /** Event `i` leaves a failure that is open at the end of the trace. */
  ghost predicate LeavesOpen(events: seq<Event>, a: Id, i: nat)
    decreases |events|, 0
  {
    && Concludes(events, a, i, Failed)
    && !OpenUnder(events[..i], a, WorkAt(events, a, i).retryOf)
    && !ResolvedAfter(events, a, i, WorkAt(events, a, i).id)
  }

  /** Some failure open at the end of the trace bears this name. */
  ghost predicate OpenUnder(events: seq<Event>, a: Id, name: Option<Id>)
    decreases |events|, 1
  {
    exists i :: 0 <= i < |events| && LeavesOpen(events, a, i) && Some(WorkAt(events, a, i).id) == name
  }

  /** The ledger holds this interaction as failed at this time. */
  ghost predicate Holds(fs: seq<Failure>, x: Interaction, at: real) {
    exists k :: 0 <= k < |fs| && fs[k].interaction == x && fs[k].at == at
  }

  /** The history leaves this interaction open as failed at this time. */
  ghost predicate OpenAs(events: seq<Event>, a: Id, x: Interaction, at: real) {
    exists i :: 0 <= i < |events| && LeavesOpen(events, a, i) && WorkAt(events, a, i) == x && events[i].at == at
  }

  // ---------------------------------------------------------------- one event at a time

  lemma {:induction false} PrefixFacts(events: seq<Event>, a: Id, i: nat, outcome: Outcome)
    requires i < |events| - 1
    ensures Concludes(events, a, i, outcome) == Concludes(events[..|events| - 1], a, i, outcome)
    ensures events[..|events| - 1][..i] == events[..i]
  {
    assert events[..|events| - 1][..i] == events[..i];
  }

  /** Whether the last event resolves failures of this name. */
  ghost predicate Resolves(events: seq<Event>, a: Id, id: Id) {
    && events != [] && id != "" && Concludes(events, a, |events| - 1, Completed)
    && WorkAt(events, a, |events| - 1).retryOf == Some(id)
  }

  lemma {:induction false} ResolvedStep(events: seq<Event>, a: Id, i: nat, id: Id)
    requires i < |events| - 1
    ensures ResolvedAfter(events, a, i, id) <==>
            ResolvedAfter(events[..|events| - 1], a, i, id) || Resolves(events, a, id)
  {
    var init := events[..|events| - 1];
    forall j: nat | j < |events| - 1
      ensures Concludes(events, a, j, Completed) == Concludes(init, a, j, Completed) && init[..j] == events[..j]
    {
      PrefixFacts(events, a, j, Completed);
    }
    if ResolvedAfter(init, a, i, id) {
      var j :| i < j < |init| && Concludes(init, a, j, Completed) && WorkAt(init, a, j).retryOf == Some(id);
      assert Concludes(events, a, j, Completed) && WorkAt(events, a, j).retryOf == Some(id);
    }
    if Resolves(events, a, id) {
      assert Concludes(events, a, |events| - 1, Completed);
    }
  }

  lemma {:induction false} LeavesOpenStep(events: seq<Event>, a: Id, i: nat)
    requires i < |events| - 1
    ensures LeavesOpen(events, a, i) <==>
            LeavesOpen(events[..|events| - 1], a, i) && Concludes(events, a, i, Failed)
            && !Resolves(events, a, WorkAt(events, a, i).id)
  {
    PrefixFacts(events, a, i, Failed);
    if Concludes(events, a, i, Failed) {
      ResolvedStep(events, a, i, WorkAt(events, a, i).id);
    }
  }

  /** What was open under a record stays so unless the last event resolves its name. */
  lemma {:induction false} OpenBefore(events: seq<Event>, a: Id, x: Interaction, at: real)
    requires events != [] && OpenAs(events[..|events| - 1], a, x, at) && !Resolves(events, a, x.id)
    ensures OpenAs(events, a, x, at)
  {
    hide OpenUnder, ResolvedAfter, Resolves;
    var init := events[..|events| - 1];
    var i: nat :| i < |init| && LeavesOpen(init, a, i) && WorkAt(init, a, i) == x && init[i].at == at;
    PrefixFacts(events, a, i, Failed);
    OpenConcludes(init, a, i);
    LeavesOpenStep(events, a, i);
    OpenConcludes(events, a, i);
    assert LeavesOpen(events, a, i) && WorkAt(events, a, i) == x && events[i].at == at;
  }

  lemma {:induction false} OpenConcludes(events: seq<Event>, a: Id, i: nat)
    requires LeavesOpen(events, a, i)
    ensures Concludes(events, a, i, Failed)
  {
  }

  /** What is open under a record was so before, or has just been left open by the last event. */
  lemma {:induction false} OpenAfter(events: seq<Event>, a: Id, x: Interaction, at: real)
    requires events != [] && OpenAs(events, a, x, at)
    ensures var n := |events| - 1;
            || (OpenAs(events[..n], a, x, at) && !Resolves(events, a, x.id))
            || (LeavesOpen(events, a, n) && WorkAt(events, a, n) == x && events[n].at == at)
  {
    hide OpenUnder, ResolvedAfter, Resolves;
    var n := |events| - 1;
    var i: nat :| i < |events| && LeavesOpen(events, a, i) && WorkAt(events, a, i) == x && events[i].at == at;
    if i < n {
      PrefixFacts(events, a, i, Failed);
      LeavesOpenStep(events, a, i);
      OpenConcludes(events, a, i);
      assert LeavesOpen(events[..n], a, i) && WorkAt(events[..n], a, i) == x && events[..n][i].at == at;
    }
  }

  /** How one more event changes what the history leaves open. */
  lemma {:induction false} OpenStep(events: seq<Event>, a: Id, x: Interaction, at: real)
    requires events != []
    ensures var n := |events| - 1; var init := events[..n];
            OpenAs(events, a, x, at) <==>
            || (OpenAs(init, a, x, at) && !Resolves(events, a, x.id))
            || (Concludes(events, a, n, Failed) && WorkAt(events, a, n) == x && events[n].at == at
                && !OpenUnder(init, a, x.retryOf))
  {
    hide Concludes, OpenUnder, Resolves;
    var n := |events| - 1;
    if OpenAs(events[..n], a, x, at) && !Resolves(events, a, x.id) {
      OpenBefore(events, a, x, at);
    }
    if OpenAs(events, a, x, at) {
      OpenAfter(events, a, x, at);
    }
    if Concludes(events, a, n, Failed) {
      LastConcludes(events, a, Failed);
    }
  }

  lemma {:induction false} LastConcludes(events: seq<Event>, a: Id, outcome: Outcome)
    requires events != [] && Concludes(events, a, |events| - 1, outcome)
    ensures Story(events[..|events| - 1], a).interaction.Some?
    ensures !ResolvedAfter(events, a, |events| - 1, WorkAt(events, a, |events| - 1).id)
  {
  }

  // ---------------------------------------------------------------- the ledger's own steps

  lemma {:induction false} WithoutHolds(fs: seq<Failure>, id: Id, x: Interaction, at: real)
    ensures Holds(Without(fs, id), x, at) <==> Holds(fs, x, at) && x.id != id
  {
    if fs != [] {
      var init, last := fs[..|fs| - 1], fs[|fs| - 1];
      WithoutHolds(init, id, x, at);
      assert fs == init + [last];
      HoldsSnoc(init, last, x, at);
      HoldsSnoc(Without(init, id), last, x, at);
    }
  }

  lemma {:induction false} HoldsSnoc(fs: seq<Failure>, f: Failure, x: Interaction, at: real)
    ensures Holds(fs + [f], x, at) <==> Holds(fs, x, at) || (f.interaction == x && f.at == at)
  {
    if Holds(fs, x, at) {
      var k :| 0 <= k < |fs| && fs[k].interaction == x && fs[k].at == at;
      assert (fs + [f])[k] == fs[k];
    }
    if f.interaction == x && f.at == at {
      assert (fs + [f])[|fs|] == f;
    }
  }

  lemma {:induction false} MarkedHolds(fs: seq<Failure>, k: nat, r: Option<Id>, x: Interaction, at: real)
    ensures Holds(Marked(fs, k, r), x, at) <==> Holds(fs, x, at)
  {
    if Holds(fs, x, at) {
      var j :| 0 <= j < |fs| && fs[j].interaction == x && fs[j].at == at;
      assert Marked(fs, k, r)[j].interaction == x;
    }
  }

  /** The first entry for a name exists exactly when some entry bears it. */
  ghost predicate HoldsName(fs: seq<Failure>, name: Option<Id>) {
    exists k :: 0 <= k < |fs| && Some(fs[k].interaction.id) == name
  }

  lemma {:induction false} EndedHolds(s: WorkState, at: real, outcome: Outcome, x: Interaction, t: real)
    requires s.interaction.Some?
    ensures var w := s.interaction.value;
            Holds(Ended(s, at, outcome).failures, x, t) <==>
            || (Holds(s.failures, x, t) && !(outcome == Completed && w.retryOf == Some(x.id) && x.id != ""))
            || (outcome == Failed && w == x && at == t && !HoldsName(s.failures, w.retryOf))
  {
    var w := s.interaction.value;
    var original := FirstOf(s.failures, w.retryOf);
    var cleared := Marked(s.failures, original, None);
    MarkedHolds(s.failures, original, None, x, t);
    if outcome == Failed {
      HoldsSnoc(cleared, Failure(w, at, None), x, t);
    }
    if outcome == Completed && w.retryOf.Some? {
      WithoutHolds(cleared, w.retryOf.value, x, t);
    }
  }

  lemma {:induction false} BegunHolds(s: WorkState, at: real, action: Interaction, x: Interaction, t: real)
    ensures Holds(Begun(s, at, action).failures, x, t) <==> Holds(s.failures, x, t)
  {
    var k := FirstRetried(s.failures, NameOf(s.interaction));
    var interrupted := Marked(s.failures, k, None);
    MarkedHolds(s.failures, k, None, x, t);
    MarkedHolds(interrupted, FirstOf(interrupted, action.retryOf), Some(action.id), x, t);
  }

  // ---------------------------------------------------------------- main results

  /** The running ledger holds a failure exactly when the history leaves it open. */
  lemma {:induction false} LedgerTellsHistory(events: seq<Event>, a: Id, x: Interaction, at: real)
    ensures Holds(Ledger(events, a), x, at) <==> OpenAs(events, a, x, at)
    decreases |events|, 0
  {
    if events != [] {
      var n := |events| - 1;
      var init, e := events[..n], events[n];
      var s := StateOf(SceneOf(init), a);
      LedgerTellsHistory(init, a, x, at);
      SceneTellsStory(init, a);
      OpenStep(events, a, x, at);
      if Subject(e) == a && e.Start? {
        BegunHolds(s, e.at, e.interaction, x, at);
      } else if Subject(e) == a && e.End? && Names(s.interaction, e.interactionId) {
        NamesAgree(init, a, s.interaction.value.retryOf);
        EndedHolds(s, e.at, e.outcome, x, at);
      }
    }
  }

  lemma {:induction false} NamesAgree(events: seq<Event>, a: Id, name: Option<Id>)
    ensures HoldsName(Ledger(events, a), name) <==> OpenUnder(events, a, name)
    decreases |events|, 1
  {
    var fs := Ledger(events, a);
    if HoldsName(fs, name) {
      var k :| 0 <= k < |fs| && Some(fs[k].interaction.id) == name;
      LedgerTellsHistory(events, a, fs[k].interaction, fs[k].at);
      assert Holds(fs, fs[k].interaction, fs[k].at);
    }
    if OpenUnder(events, a, name) {
      var i :| 0 <= i < |events| && LeavesOpen(events, a, i) && Some(WorkAt(events, a, i).id) == name;
      LedgerTellsHistory(events, a, WorkAt(events, a, i), events[i].at);
      assert OpenAs(events, a, WorkAt(events, a, i), events[i].at);
    }
  }

  /** Every interaction id is started at most once. */
  ghost predicate StartedOnce(events: seq<Event>) {
    forall i, j :: 0 <= i < j < |events| && events[i].Start? && events[j].Start? ==>
      events[i].interaction.id != events[j].interaction.id
  }

  ghost predicate WasStarted(events: seq<Event>, id: Id) {
    exists j :: 0 <= j < |events| && events[j].Start? && events[j].interaction.id == id
  }

  /** A failure is marked as being retried exactly by the work that is now retrying it. */
  predicate RetryLinked(s: WorkState, f: Failure) {
    f.retryId == if s.interaction.Some? && s.interaction.value.retryOf == Some(f.interaction.id)
                 then Some(s.interaction.value.id) else None
  }

  ghost predicate Tidy(events: seq<Event>, s: WorkState) {
    && (forall j, k :: 0 <= j < k < |s.failures| ==> s.failures[j].interaction.id != s.failures[k].interaction.id)
    && (forall k :: 0 <= k < |s.failures| ==> RetryLinked(s, s.failures[k]))
    && (forall k :: 0 <= k < |s.failures| ==>
          WasStarted(events, s.failures[k].interaction.id) && !Names(s.interaction, s.failures[k].interaction.id))
    && (s.interaction.Some? ==> WasStarted(events, s.interaction.value.id))
  }

  lemma {:induction false} BegunTidy(init: seq<Event>, s: WorkState, e: Event)
    requires Tidy(init, s) && e.Start? && !WasStarted(init, e.interaction.id)
    ensures Tidy(init + [e], Begun(s, e.at, e.interaction))
  {
    var events := init + [e];
    StillStarted(init, e);
    assert WasStarted(events, e.interaction.id) by { assert events[|init|] == e; }
    InterruptedClears(init, s);
    BegunLinked(s, e.at, e.interaction);
    hide WasStarted;
    var fs := Begun(s, e.at, e.interaction).failures;
    forall k | 0 <= k < |fs|
      ensures fs[k].interaction == s.failures[k].interaction && WasStarted(init, fs[k].interaction.id)
    {
    }
  }

  /** If an interruption clears all marks, a start marks exactly what it retries. */
  lemma {:induction false} BegunLinked(s: WorkState, at: real, action: Interaction)
    requires forall j, k :: 0 <= j < k < |s.failures| ==> s.failures[j].interaction.id != s.failures[k].interaction.id
    requires forall f :: f in Marked(s.failures, FirstRetried(s.failures, NameOf(s.interaction)), None) ==>
               f.retryId == None
    ensures var t := Begun(s, at, action); forall k :: 0 <= k < |t.failures| ==> RetryLinked(t, t.failures[k])
  {
  }

  /** After an interruption nothing is marked as being retried. */
  lemma {:induction false} InterruptedClears(init: seq<Event>, s: WorkState)
    requires Tidy(init, s)
    ensures forall f :: f in Marked(s.failures, FirstRetried(s.failures, NameOf(s.interaction)), None) ==>
              f.retryId == None
  {
    var k0 := FirstRetried(s.failures, NameOf(s.interaction));
    var interrupted := Marked(s.failures, k0, None);
    forall k | 0 <= k < |interrupted|
      ensures interrupted[k].retryId == None
    {
      assert RetryLinked(s, s.failures[k]);
      if s.failures[k].retryId.Some? && k0 < |s.failures| {
        assert RetryLinked(s, s.failures[k0]);
      }
    }
  }

  lemma {:induction false} StillStarted(init: seq<Event>, e: Event)
    ensures forall id :: WasStarted(init, id) ==> WasStarted(init + [e], id)
  {
    forall id | WasStarted(init, id)
      ensures WasStarted(init + [e], id)
    {
      var j :| 0 <= j < |init| && init[j].Start? && init[j].interaction.id == id;
      assert (init + [e])[j] == init[j];
    }
  }

  lemma {:induction false} WithoutKeepsOrder(fs: seq<Failure>, id: Id)
    requires forall j, k :: 0 <= j < k < |fs| ==> fs[j].interaction.id != fs[k].interaction.id
    ensures forall f :: f in Without(fs, id) ==> f in fs
    ensures forall j, k :: 0 <= j < k < |Without(fs, id)| ==>
              Without(fs, id)[j].interaction.id != Without(fs, id)[k].interaction.id
  {
    if fs != [] {
      var init, last := fs[..|fs| - 1], fs[|fs| - 1];
      WithoutKeepsOrder(init, id);
      assert forall f :: f in init ==> f.interaction.id != last.interaction.id && f in fs;
    }
  }

  /** A ledger with nothing being retried, whose names are distinct and were started, is tidy for an idle agent. */
  ghost predicate Settled(events: seq<Event>, fs: seq<Failure>) {
    && (forall j, k :: 0 <= j < k < |fs| ==> fs[j].interaction.id != fs[k].interaction.id)
    && (forall f :: f in fs ==> f.retryId == None && WasStarted(events, f.interaction.id))
  }

  lemma {:induction false} ClearedSettled(init: seq<Event>, s: WorkState)
    requires Tidy(init, s) && s.interaction.Some?
    ensures Settled(init, Marked(s.failures, FirstOf(s.failures, s.interaction.value.retryOf), None))
  {
    var cleared := Marked(s.failures, FirstOf(s.failures, s.interaction.value.retryOf), None);
    forall k | 0 <= k < |cleared|
      ensures cleared[k].retryId == None && WasStarted(init, cleared[k].interaction.id)
    {
      assert RetryLinked(s, s.failures[k]);
    }
  }

  lemma {:induction false} EndedSettled(init: seq<Event>, s: WorkState, at: real, outcome: Outcome)
    requires Tidy(init, s) && s.interaction.Some?
    ensures Settled(init, Ended(s, at, outcome).failures)
  {
    var w := s.interaction.value;
    var cleared := Marked(s.failures, FirstOf(s.failures, w.retryOf), None);
    ClearedSettled(init, s);
    if outcome == Completed && w.retryOf.Some? {
      WithoutKeepsOrder(cleared, w.retryOf.value);
    } else if outcome == Failed {
      assert forall k :: 0 <= k < |cleared| ==> cleared[k].interaction.id != w.id;
    }
  }

  lemma {:induction false} EndedTidy(init: seq<Event>, s: WorkState, e: Event)
    requires Tidy(init, s) && e.End? && Names(s.interaction, e.interactionId)
    ensures Tidy(init + [e], Ended(s, e.at, e.outcome))
  {
    StillStarted(init, e);
    EndedSettled(init, s, e.at, e.outcome);
  }

  lemma {:induction false} LedgerTidy(events: seq<Event>, a: Id)
    requires StartedOnce(events)
    ensures Tidy(events, StateOf(SceneOf(events), a))
  {
    hide Tidy, Begun, Ended, StartedOnce;
    if events == [] {
      UnseenTidy();
    } else {
      var init, e := events[..|events| - 1], events[|events| - 1];
      assert events == init + [e];
      StartedOnceBefore(init, e);
      LedgerTidy(init, a);
      var s := StateOf(SceneOf(init), a);
      if Subject(e) == a && e.Start? {
        BegunTidy(init, s, e);
        SameLedgerTidy(events, Begun(s, e.at, e.interaction), StateOf(SceneOf(events), a));
      } else if Subject(e) == a && e.End? && Names(s.interaction, e.interactionId) {
        EndedTidy(init, s, e);
        SameLedgerTidy(events, Ended(s, e.at, e.outcome), StateOf(SceneOf(events), a));
      } else {
        LaterTidy(init, e, s);
        SameLedgerTidy(events, s, StateOf(SceneOf(events), a));
      }
    }
  }

  lemma {:induction false} UnseenTidy()
    ensures Tidy([], Unseen)
  {
  }

  lemma {:induction false} StartedOnceBefore(init: seq<Event>, e: Event)
    requires StartedOnce(init + [e])
    ensures StartedOnce(init) && (e.Start? ==> !WasStarted(init, e.interaction.id))
  {
    var events := init + [e];
    assert forall j :: 0 <= j < |init| ==> init[j] == events[j];
    assert events[|init|] == e;
  }

  lemma {:induction false} LaterTidy(init: seq<Event>, e: Event, s: WorkState)
    requires Tidy(init, s)
    ensures Tidy(init + [e], s)
  {
    StillStarted(init, e);
    hide WasStarted, RetryLinked;
  }

  /** Only the work and the failures count. */
  lemma {:induction false} SameLedgerTidy(events: seq<Event>, s: WorkState, t: WorkState)
    requires Tidy(events, s) && t.interaction == s.interaction && t.failures == s.failures
    ensures Tidy(events, t)
  {
    hide WasStarted;
    forall k | 0 <= k < |t.failures|
      ensures RetryLinked(t, t.failures[k])
    {
      assert RetryLinked(s, s.failures[k]);
    }
  }

  /** At most one open failure is marked as being retried, and it is the one the current work retries. */
  lemma {:induction false} OneRetryAtMost(events: seq<Event>, a: Id, j: nat, k: nat)
    requires StartedOnce(events)
    requires var fs := Ledger(events, a); j < |fs| && k < |fs| && fs[j].retryId.Some? && fs[k].retryId.Some?
    ensures j == k
    ensures var s := StateOf(SceneOf(events), a);
            s.interaction.Some? && s.failures[k].retryId == Some(s.interaction.value.id)
            && s.interaction.value.retryOf == Some(s.failures[k].interaction.id)
  {
    LedgerTidy(events, a);
    var s := StateOf(SceneOf(events), a);
    assert RetryLinked(s, s.failures[j]) && RetryLinked(s, s.failures[k]);
  }
}
