/** The ledger as one would read a trace, and exactly when the code's treatment of empty names departs from it. */
module PlainLedger {
  import opened Common
  import opened Interactions
  import opened WorkScene
  import opened FailureLedger

  /** A later success of work that names `id` as what it retries. */
  ghost predicate PlainlyResolved(events: seq<Event>, a: Id, i: nat, id: Id) {
    exists j :: i < j < |events| && Concludes(events, a, j, Completed) && WorkAt(events, a, j).retryOf == Some(id)
  }

  /** A failure while current, no retry of one then open, and not retried with success since. */
  ghost predicate PlainlyOpen(events: seq<Event>, a: Id, i: nat)
    decreases |events|, 0
  {
    && Concludes(events, a, i, Failed)
    && !PlainlyOpenUnder(events[..i], a, WorkAt(events, a, i).retryOf)
    && !PlainlyResolved(events, a, i, WorkAt(events, a, i).id)
  }

  ghost predicate PlainlyOpenUnder(events: seq<Event>, a: Id, name: Option<Id>)
    decreases |events|, 1
  {
    exists i :: 0 <= i < |events| && PlainlyOpen(events, a, i) && Some(WorkAt(events, a, i).id) == name
  }

  ghost predicate PlainlyOpenAs(events: seq<Event>, a: Id, x: Interaction, at: real) {
    exists i :: 0 <= i < |events| && PlainlyOpen(events, a, i) && WorkAt(events, a, i) == x && events[i].at == at
  }

  /** After the first `n` events the ledger lists exactly what a plain reading leaves open. */
  ghost predicate ReadsPlainly(events: seq<Event>, a: Id, n: nat)
    requires n <= |events|
  {
    forall x, at :: Holds(Ledger(events[..n], a), x, at) <==> PlainlyOpenAs(events[..n], a, x, at)
  }

  /** Work that retries the empty name succeeds while a failure of that name is listed. */
  ghost predicate IgnoredRetry(events: seq<Event>, a: Id, j: nat) {
    && Concludes(events, a, j, Completed) && WorkAt(events, a, j).retryOf == Some("")
    && HoldsName(Ledger(events[..j], a), Some(""))
  }

  ghost predicate NoneIgnored(events: seq<Event>, a: Id) {
    forall j: nat :: j < |events| ==> !IgnoredRetry(events, a, j)
  }

  // ---------------------------------------------------------------- prefixes

  lemma {:induction false} PrefixConcludes(events: seq<Event>, a: Id, n: nat, i: nat, outcome: Outcome)
    requires i < n <= |events|
    ensures events[..n][..i] == events[..i] && events[..n][i] == events[i]
    ensures Concludes(events[..n], a, i, outcome) == Concludes(events, a, i, outcome)
  {
    assert events[..n][..i] == events[..i];
  }

  lemma {:induction false} PrefixIgnoresNone(events: seq<Event>, a: Id, n: nat)
    requires n <= |events| && NoneIgnored(events, a)
    ensures NoneIgnored(events[..n], a)
  {
    forall j: nat | j < n
      ensures !IgnoredRetry(events[..n], a, j)
    {
      PrefixConcludes(events, a, n, j, Completed);
      assert !IgnoredRetry(events, a, j);
    }
  }

  // ---------------------------------------------------------------- without ignored retries the readings agree

  lemma {:induction false} OpenPlainly(events: seq<Event>, a: Id, i: nat)
    requires NoneIgnored(events, a)
    ensures LeavesOpen(events, a, i) <==> PlainlyOpen(events, a, i)
    decreases |events|, 0
  {
    if Concludes(events, a, i, Failed) {
      PrefixIgnoresNone(events, a, i);
      OpenUnderPlainly(events[..i], a, WorkAt(events, a, i).retryOf);
      if LeavesOpen(events, a, i) && WorkAt(events, a, i).id == "" {
        EmptyUnresolved(events, a, i);
      }
    }
  }

  /** A listed failure of the empty name has had no successful retry, since none was ignored. */
  lemma {:induction false} EmptyUnresolved(events: seq<Event>, a: Id, i: nat)
    requires NoneIgnored(events, a) && LeavesOpen(events, a, i) && WorkAt(events, a, i).id == ""
    ensures !PlainlyResolved(events, a, i, "")
  {
    forall j: nat | i < j < |events| && Concludes(events, a, j, Completed)
      ensures WorkAt(events, a, j).retryOf != Some("")
    {
      PrefixConcludes(events, a, j, i, Failed);
      assert LeavesOpen(events[..j], a, i);
      NamesAgree(events[..j], a, Some(""));
      assert !IgnoredRetry(events, a, j);
    }
  }

  lemma {:induction false} OpenUnderPlainly(events: seq<Event>, a: Id, name: Option<Id>)
    requires NoneIgnored(events, a)
    ensures OpenUnder(events, a, name) <==> PlainlyOpenUnder(events, a, name)
    decreases |events|, 1
  {
    forall i: nat | i < |events|
      ensures LeavesOpen(events, a, i) <==> PlainlyOpen(events, a, i)
    {
      OpenPlainly(events, a, i);
    }
  }

  lemma {:induction false} OpenAsPlainly(events: seq<Event>, a: Id, x: Interaction, at: real)
    requires NoneIgnored(events, a)
    ensures OpenAs(events, a, x, at) <==> PlainlyOpenAs(events, a, x, at)
  {
    forall i: nat | i < |events|
      ensures LeavesOpen(events, a, i) <==> PlainlyOpen(events, a, i)
    {
      OpenPlainly(events, a, i);
    }
  }

  // ---------------------------------------------------------------- an ignored retry parts them

  /** A successful retry of the empty name, while a failure of that name is listed, leaves it listed. */
  lemma {:induction false} StillListed(events: seq<Event>, a: Id, x: Interaction, at: real)
    requires events != [] && IgnoredRetry(events, a, |events| - 1) && x.id == ""
    requires Holds(Ledger(events[..|events| - 1], a), x, at)
    ensures Holds(Ledger(events, a), x, at) && !PlainlyOpenAs(events, a, x, at)
  {
    hide Holds, OpenAs, Ledger;
    var n := |events| - 1;
    LedgerTellsHistory(events[..n], a, x, at);
    OpenStep(events, a, x, at);
    LedgerTellsHistory(events, a, x, at);
    forall i: nat | i < |events| && PlainlyOpen(events, a, i)
      ensures WorkAt(events, a, i) != x
    {
      assert Concludes(events, a, n, Completed) && WorkAt(events, a, n).retryOf == Some("");
    }
  }

  lemma {:induction false} IgnoredStaysListed(events: seq<Event>, a: Id, j: nat)
    requires j < |events| && IgnoredRetry(events, a, j)
    ensures !ReadsPlainly(events, a, j + 1)
  {
    hide Ledger, PlainlyOpenAs;
    var upto := events[..j + 1];
    var fs := Ledger(events[..j], a);
    var k :| 0 <= k < |fs| && Some(fs[k].interaction.id) == Some("");
    assert upto[..j] == events[..j] && Holds(fs, fs[k].interaction, fs[k].at);
    PrefixConcludes(events, a, j + 1, j, Completed);
    StillListed(upto, a, fs[k].interaction, fs[k].at);
  }

  // ---------------------------------------------------------------- exactly then

  /**
   The ledger reads plainly at every moment of a trace exactly if no retry of the empty name succeeds while a failure of
   that name is listed.
   */
  lemma {:induction false} PlainUnlessEmpty(events: seq<Event>, a: Id)
    ensures (forall n: nat :: n <= |events| ==> ReadsPlainly(events, a, n)) <==> NoneIgnored(events, a)
  {
    if NoneIgnored(events, a) {
      forall n: nat | n <= |events|
        ensures ReadsPlainly(events, a, n)
      {
        PrefixIgnoresNone(events, a, n);
        forall x, at
          ensures Holds(Ledger(events[..n], a), x, at) <==> PlainlyOpenAs(events[..n], a, x, at)
        {
          LedgerTellsHistory(events[..n], a, x, at);
          OpenAsPlainly(events[..n], a, x, at);
        }
      }
    } else {
      var j: nat :| j < |events| && IgnoredRetry(events, a, j);
      IgnoredStaysListed(events, a, j);
    }
  }

  /** Work named "" fails and its retry is under way: the failure is listed, and marked as being retried. */
  lemma {:induction false} RetryUnderWay(a: Id, host: Id)
    ensures var first, retry := Interaction("", a, host, None), Interaction("r", a, host, Some(""));
            var told := [Start(Recorded("1"), 0.0, first), End(Recorded("2"), 1.0, a, "", Failed),
                         Start(Recorded("3"), 2.0, retry)];
            StateOf(SceneOf(told), a).interaction == Some(retry) && Ledger(told, a) == [Failure(first, 1.0, Some("r"))]
  {
    var first, retry := Interaction("", a, host, None), Interaction("r", a, host, Some(""));
    var e1, e2, e3 := Start(Recorded("1"), 0.0, first), End(Recorded("2"), 1.0, a, "", Failed),
        Start(Recorded("3"), 2.0, retry);
    assert [e1, e2, e3][..2] == [e1, e2] && [e1, e2][..1] == [e1] && [e1][..0] == [];
    assert StateOf(SceneOf([e1]), a).interaction == Some(first) && StateOf(SceneOf([e1]), a).failures == [];
    assert Ledger([e1, e2], a) == [Failure(first, 1.0, None)] && StateOf(SceneOf([e1, e2]), a).interaction.None?;
  }

  /** One such trace: work named "" fails, its retry succeeds, and the failure is still listed. */
  lemma {:induction false} EmptyNameIsNeverResolved(a: Id, host: Id)
    ensures var first, retry := Interaction("", a, host, None), Interaction("r", a, host, Some(""));
            var trace := [Start(Recorded("1"), 0.0, first), End(Recorded("2"), 1.0, a, "", Failed),
                          Start(Recorded("3"), 2.0, retry), End(Recorded("4"), 3.0, a, "r", Completed)];
            Holds(Ledger(trace, a), first, 1.0) && !PlainlyOpenAs(trace, a, first, 1.0)
  {
    hide SceneOf, Story, PlainlyOpenAs;
    var first, retry := Interaction("", a, host, None), Interaction("r", a, host, Some(""));
    var told := [Start(Recorded("1"), 0.0, first), End(Recorded("2"), 1.0, a, "", Failed),
                 Start(Recorded("3"), 2.0, retry)];
    var trace := [Start(Recorded("1"), 0.0, first), End(Recorded("2"), 1.0, a, "", Failed),
                  Start(Recorded("3"), 2.0, retry), End(Recorded("4"), 3.0, a, "r", Completed)];
    assert trace[..3] == told;
    RetryUnderWay(a, host);
    SceneTellsStory(told, a);
    assert Ledger(told, a)[0] == Failure(first, 1.0, Some("r"));
    StillListed(trace, a, first, 1.0);
  }
}
