/** Merging the engine's tasks into those already shown: a task never goes back to an earlier state. */
module WorkspaceRecords {
  import opened Common

  /** A task's state is known by its sequence number. */
  datatype Task = Task(id: Id, sequence: nat)

  /** The tasks shown: the sequence number of each. */
  type Shown = map<Id, nat>

  /** Whose work a workspace shows: the organization's, or one team's of it. */
  datatype Organization = Organization(name: string, team: Option<string>)

  datatype Snapshot = Snapshot(organization: Organization, tasks: seq<Task>)

  function Absorbed(shown: Shown, t: Task): Shown {
    if t.id in shown && t.sequence < shown[t.id] then shown else shown[t.id := t.sequence]
  }

  function AbsorbedAll(shown: Shown, tasks: seq<Task>): Shown {
    if tasks == [] then shown else Absorbed(AbsorbedAll(shown, tasks[..|tasks| - 1]), tasks[|tasks| - 1])
  }

  method MergeTasks(previous: Shown, incoming: seq<Task>) returns (merged: Shown)
    ensures merged == AbsorbedAll(previous, incoming)
  {
    merged := previous;
    for k := 0 to |incoming|
      invariant merged == AbsorbedAll(previous, incoming[..k])
    {
      assert incoming[..k + 1][..k] == incoming[..k];
      var task := incoming[k];
      if task.id !in merged || task.sequence >= merged[task.id] {
        merged := merged[task.id := task.sequence];
      }
    }
    assert incoming[..|incoming|] == incoming;
  }

  /** This state of the task was shown or came in. */
  ghost predicate Known(shown: Shown, tasks: seq<Task>, id: Id, sequence: nat) {
    (id in shown && shown[id] == sequence) || Task(id, sequence) in tasks
  }

  /** Exactly the tasks shown or come in are shown afterwards, each in the latest state known of it. */
  lemma {:induction false} LatestIsShown(shown: Shown, tasks: seq<Task>, id: Id)
    ensures id in AbsorbedAll(shown, tasks) <==> exists q :: Known(shown, tasks, id, q)
    ensures id in AbsorbedAll(shown, tasks) ==> Known(shown, tasks, id, AbsorbedAll(shown, tasks)[id])
    ensures forall q :: Known(shown, tasks, id, q) ==>
              id in AbsorbedAll(shown, tasks) && q <= AbsorbedAll(shown, tasks)[id]
  {
    if tasks == [] {
      if id in shown {
        assert Known(shown, tasks, id, shown[id]);
      }
    } else {
      var init, last := tasks[..|tasks| - 1], tasks[|tasks| - 1];
      assert tasks == init + [last];
      LatestIsShown(shown, init, id);
      forall q
        ensures Known(shown, tasks, id, q) <==> Known(shown, init, id, q) || last == Task(id, q)
      {
      }
    }
  }

  /** The state of every task shown, or a later one, is still shown. */
  predicate NoTaskOlder(before: Shown, after: Shown) {
    forall id :: id in before ==> id in after && before[id] <= after[id]
  }

  lemma {:induction false} AbsorbingKeepsUp(shown: Shown, tasks: seq<Task>)
    ensures NoTaskOlder(shown, AbsorbedAll(shown, tasks))
  {
    forall id | id in shown
      ensures id in AbsorbedAll(shown, tasks) && shown[id] <= AbsorbedAll(shown, tasks)[id]
    {
      LatestIsShown(shown, tasks, id);
      assert Known(shown, tasks, id, shown[id]);
    }
  }
}
