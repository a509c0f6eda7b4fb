/** What a viewer of an organization trace sees at any moment is the plan: who works on what, who waits, what failed. */
module TraceScenes {
  import opened Common
  import opened Interactions
  import opened WorkScene
  import opened FailureLedger
  import opened T = TracePlayback
  import O = OrganizationTraces
  import W = MotionWorld
  import P = MotionPlayback

  // ---------------------------------------------------------------- the events of a plan

  function StartOf(trace: string, k: nat, j: O.Job): Event {
    Start(EventName(trace, k, "start"), j.start, ActionOf(trace, k, j))
  }

  function WaitOf(trace: string, k: nat, j: O.Job): Event {
    Wait(EventName(trace, k, "wait"), j.start + (j.end - j.start) * 0.3, j.agent, JobName(trace, k))
  }

  function ResumeOf(trace: string, k: nat, j: O.Job): Event {
    Resume(EventName(trace, k, "resume"), j.start + (j.end - j.start) * 0.7, j.agent, JobName(trace, k))
  }

  function EndOf(trace: string, k: nat, j: O.Job): Event {
    End(EventName(trace, k, "end"), j.end, j.agent, JobName(trace, k), if j.failed then Failed else Completed)
  }

  /** The event is one of the job's: its start, its end, and if it waits a wait and a resume. */
  predicate IsOf(trace: string, k: nat, j: O.Job, e: Event) {
    || e == StartOf(trace, k, j) || e == EndOf(trace, k, j)
    || (j.waits && (e == WaitOf(trace, k, j) || e == ResumeOf(trace, k, j)))
  }

  /** A plan and its events in order of time. */
  datatype Recording = Recording(trace: string, jobs: seq<O.Job>, events: seq<Event>)

  ghost predicate Planned(r: Recording, e: Event, k: nat) {
    k < |r.jobs| && IsOf(r.trace, k, r.jobs[k], e)
  }

  ghost predicate Sound(r: Recording) {
    && O.Spaced(r.jobs) && O.AllProper(r.jobs) && O.Reworked(r.jobs) && DistinctIds(r.events)
    && (forall e :: e in r.events ==> exists k :: Planned(r, e, k))
    && (forall e, k :: Planned(r, e, k) ==> e in r.events)
    && (forall i, j :: 0 <= i < j < |r.events| ==> r.events[i].at <= r.events[j].at)
  }

  /** Sorting all events of a sound plan by time gives such a recording. */
  lemma {:induction false} SortingIsSound(trace: string, jobs: seq<O.Job>, sorted: seq<Event>, from: seq<nat>)
    requires O.Spaced(jobs) && O.AllProper(jobs) && O.Reworked(jobs) && IsSorting(AllEvents(trace, jobs), sorted, from)
    ensures Sound(Recording(trace, jobs, sorted))
  {
    hide AllEvents, EventsOf, O.Spaced, O.AllProper, O.Reworked, IsOf, EventName;
    var r, events := Recording(trace, jobs, sorted), AllEvents(trace, jobs);
    AllEventsDiffer(trace, jobs);
    forall i, j | 0 <= i < j < |sorted|
      ensures sorted[i].id != sorted[j].id
    {
      assert from[i] != from[j] && events[from[i]].id != events[from[j]].id;
    }
    forall e | e in sorted
      ensures exists k :: Planned(r, e, k)
    {
      assert e in events;
      var k := EventIsPlanned(trace, jobs, e);
      assert Planned(r, e, k);
    }
    forall e, k | Planned(r, e, k)
      ensures e in sorted
    {
      PlannedIsEvent(trace, jobs, e, k);
      var m :| 0 <= m < |events| && events[m] == e;
      var i := EveryPlaceTaken(from, m);
      assert sorted[i] == e;
    }
  }

  lemma {:induction false} EventIsPlanned(trace: string, jobs: seq<O.Job>, e: Event) returns (k: nat)
    requires e in AllEvents(trace, jobs)
    ensures k < |jobs| && IsOf(trace, k, jobs[k], e)
  {
    hide EventName, ActionOf, JobName;
    var n := |jobs| - 1;
    if e in EventsOf(trace, n, jobs[n]) {
      k := n;
    } else {
      k := EventIsPlanned(trace, jobs[..n], e);
    }
  }

  lemma {:induction false} PlannedIsEvent(trace: string, jobs: seq<O.Job>, e: Event, k: nat)
    requires k < |jobs| && IsOf(trace, k, jobs[k], e)
    ensures e in AllEvents(trace, jobs)
  {
    hide EventName, ActionOf, JobName;
    var n := |jobs| - 1;
    if k == n {
      assert e in EventsOf(trace, n, jobs[n]);
    } else {
      PlannedIsEvent(trace, jobs[..n], e, k);
    }
  }

  /** As many different places as there are leave none out. */
  lemma {:induction false} EveryPlaceTaken(from: seq<nat>, m: nat) returns (i: nat)
    requires Distinct(from) && m < |from| && forall i :: 0 <= i < |from| ==> from[i] < |from|
    ensures i < |from| && from[i] == m
  {
    if forall k :: 0 <= k < |from| ==> from[k] != m {
      var all := Below(|from|);
      var taken := set k | 0 <= k < |from| :: from[k];
      Numbers(|from|);
      TakenSize(from);
      assert taken <= all - {m};
      Subset(taken, all - {m});
    }
    i :| 0 <= i < |from| && from[i] == m;
  }

  ghost function Below(n: nat): set<nat> {
    if n == 0 then {} else Below(n - 1) + {n - 1}
  }

  lemma {:induction false} Numbers(n: nat)
    ensures |Below(n)| == n && forall k: nat :: k in Below(n) <==> k < n
  {
    if n > 0 {
      Numbers(n - 1);
    }
  }

  lemma {:induction false} TakenSize(s: seq<nat>)
    requires Distinct(s)
    ensures |set k | 0 <= k < |s| :: s[k]| == |s|
  {
    if s != [] {
      var n := |s| - 1;
      TakenSize(s[..n]);
      var before := set k | 0 <= k < n :: s[..n][k];
      assert (set k | 0 <= k < |s| :: s[k]) == before + {s[n]};
      assert s[n] !in before;
    }
  }

  lemma {:induction false} Subset(a: set<nat>, b: set<nat>)
    requires a <= b
    ensures |a| <= |b|
  {
    assert b == a + (b - a);
  }

  // ---------------------------------------------------------------- order of time

  /** Among the events read so far. */
  ghost predicate Seen(r: Recording, n: nat, e: Event) {
    n <= |r.events| && e in r.events[..n]
  }

  /** What comes earlier has been read, what comes later has not. */
  lemma {:induction false} ByTime(r: Recording, n: nat, f: Event)
    requires Sound(r) && n < |r.events| && f in r.events
    ensures f.at < r.events[n].at ==> Seen(r, n, f)
    ensures f.at > r.events[n].at ==> !Seen(r, n, f)
  {
    hide O.Spaced, O.AllProper, O.Reworked, Planned;
    var i :| 0 <= i < |r.events| && r.events[i] == f;
    assert i < n ==> r.events[..n][i] == f;
    if Seen(r, n, f) {
      var j :| 0 <= j < n && r.events[..n][j] == f;
      assert r.events[j].at <= r.events[n].at;
    }
  }

  lemma {:induction false} SeenNext(r: Recording, n: nat, f: Event)
    requires n < |r.events|
    ensures Seen(r, n + 1, f) <==> Seen(r, n, f) || f == r.events[n]
  {
    assert r.events[..n + 1] == r.events[..n] + [r.events[n]];
  }

  /** The job's work is under way. */
  ghost predicate Open(r: Recording, n: nat, k: nat)
    requires k < |r.jobs|
  {
    Seen(r, n, StartOf(r.trace, k, r.jobs[k])) && !Seen(r, n, EndOf(r.trace, k, r.jobs[k]))
  }

  ghost predicate Paused(r: Recording, n: nat, k: nat)
    requires k < |r.jobs|
  {
    && r.jobs[k].waits && Seen(r, n, WaitOf(r.trace, k, r.jobs[k])) && !Seen(r, n, ResumeOf(r.trace, k, r.jobs[k]))
  }

  /** The attempt has failed and its retry has not ended. */
  ghost predicate Unmended(r: Recording, n: nat, k: nat)
    requires k < |r.jobs|
  {
    && r.jobs[k].failed && k + 1 < |r.jobs| && Seen(r, n, EndOf(r.trace, k, r.jobs[k]))
    && !Seen(r, n, EndOf(r.trace, k + 1, r.jobs[k + 1]))
  }

  ghost predicate Retrying(r: Recording, n: nat, k: nat)
    requires k < |r.jobs|
  {
    k + 1 < |r.jobs| && Seen(r, n, StartOf(r.trace, k + 1, r.jobs[k + 1]))
  }
  lemma {:induction false} NotYetSeen(r: Recording, n: nat)
    requires Sound(r) && n < |r.events|
    ensures !Seen(r, n, r.events[n])
  {
    hide O.Spaced, O.AllProper, O.Reworked, Planned;
    forall j | 0 <= j < n
      ensures r.events[..n][j] != r.events[n]
    {
      assert r.events[j].id != r.events[n].id;
    }
  }

  lemma {:induction false} EarlierSeen(r: Recording, n: nat, f: Event, g: Event)
    requires Sound(r) && Seen(r, n, g) && f in r.events && f.at < g.at
    ensures Seen(r, n, f)
  {
    hide O.Spaced, O.AllProper, O.Reworked, Planned;
    var i :| 0 <= i < |r.events| && r.events[i] == f;
    var j :| 0 <= j < n && r.events[..n][j] == g;
    assert r.events[j] == g && i < j;
    assert r.events[..n][i] == f;
  }

  // ---------------------------------------------------------------- one agent's work

  lemma {:induction false} PlannedInEvents(r: Recording, k: nat)
    requires Sound(r) && k < |r.jobs|
    ensures StartOf(r.trace, k, r.jobs[k]) in r.events && EndOf(r.trace, k, r.jobs[k]) in r.events
    ensures r.jobs[k].waits ==> WaitOf(r.trace, k, r.jobs[k]) in r.events && ResumeOf(r.trace, k, r.jobs[k]) in r.events
  {
    hide O.Spaced, O.AllProper, O.Reworked, StartOf, EndOf, WaitOf, ResumeOf;
    assert Planned(r, StartOf(r.trace, k, r.jobs[k]), k) && Planned(r, EndOf(r.trace, k, r.jobs[k]), k);
    if r.jobs[k].waits {
      assert Planned(r, WaitOf(r.trace, k, r.jobs[k]), k) && Planned(r, ResumeOf(r.trace, k, r.jobs[k]), k);
    }
  }

  lemma {:induction false} InOrder(r: Recording, k: nat)
    requires Sound(r) && k < |r.jobs|
    ensures var j := r.jobs[k];
            j.start < j.start + (j.end - j.start) * 0.3 < j.start + (j.end - j.start) * 0.7 < j.end
  {
    hide O.Spaced, O.Reworked, Planned;
    assert O.Proper(r.jobs[k]);
  }

  /** One agent's jobs follow each other. */
  lemma {:induction false} OneAfterAnother(r: Recording, i: nat, j: nat)
    requires Sound(r) && i < j < |r.jobs| && r.jobs[i].agent == r.jobs[j].agent
    ensures r.jobs[i].end < r.jobs[j].start
  {
    hide O.AllProper, O.Reworked, Planned;
    assert r.jobs[i].agent in O.Participants(r.jobs[i]) * O.Participants(r.jobs[j]);
    assert O.RestBetween(r.jobs[i], r.jobs[j]);
  }

  lemma {:induction false} OneOpen(r: Recording, n: nat, i: nat, j: nat)
    requires Sound(r) && i < |r.jobs| && j < |r.jobs| && r.jobs[i].agent == r.jobs[j].agent
    requires Open(r, n, i) && Open(r, n, j)
    ensures i == j
  {
    hide Sound, Seen;
    if i < j {
      OneAfterAnother(r, i, j);
      PlannedInEvents(r, i);
      EarlierSeen(r, n, EndOf(r.trace, i, r.jobs[i]), StartOf(r.trace, j, r.jobs[j]));
    } else if j < i {
      OneAfterAnother(r, j, i);
      PlannedInEvents(r, j);
      EarlierSeen(r, n, EndOf(r.trace, j, r.jobs[j]), StartOf(r.trace, i, r.jobs[i]));
    }
  }

  /** After the first `n` events the agent is on exactly the job that is open, waiting while it is paused. */
  ghost predicate OnJob(r: Recording, n: nat, a: Id) {
    && n <= |r.events|
    && (forall k :: 0 <= k < |r.jobs| && r.jobs[k].agent == a && Open(r, n, k) ==> IsOn(r, n, a, k))
    && ((forall k :: 0 <= k < |r.jobs| && r.jobs[k].agent == a ==> !Open(r, n, k)) ==>
          Story(r.events[..n], a) == Idle)
  }

  ghost predicate IsOn(r: Recording, n: nat, a: Id, k: nat)
    requires k < |r.jobs| && n <= |r.events|
  {
    Story(r.events[..n], a) == Intent(Some(ActionOf(r.trace, k, r.jobs[k])), Paused(r, n, k))
  }

  lemma {:induction false} StoryNext(r: Recording, n: nat, a: Id)
    requires n < |r.events|
    ensures Story(r.events[..n + 1], a)
            == if Subject(r.events[n]) == a then Heard(Story(r.events[..n], a), r.events[n])
               else Story(r.events[..n], a)
  {
    assert r.events[..n + 1][..n] == r.events[..n];
  }

  /** An event of one job is no event of another. */
  lemma {:induction false} OtherJob(r: Recording, e: Event, k: nat, m: nat)
    requires Planned(r, e, k) && m < |r.jobs| && m != k
    ensures e != StartOf(r.trace, m, r.jobs[m]) && e != EndOf(r.trace, m, r.jobs[m])
    ensures e != WaitOf(r.trace, m, r.jobs[m]) && e != ResumeOf(r.trace, m, r.jobs[m])
  {
    hide EventName, JobName;
    forall x: string, y: string
      ensures EventName(r.trace, k, x) != EventName(r.trace, m, y)
    {
      NamesApart(r.trace, k, x, m, y);
    }
  }

  lemma {:induction false} OthersUnchanged(r: Recording, n: nat, k: nat, m: nat)
    requires n < |r.events| && Planned(r, r.events[n], k) && m < |r.jobs| && m != k
    ensures Open(r, n + 1, m) == Open(r, n, m) && Paused(r, n + 1, m) == Paused(r, n, m)
  {
    OtherJob(r, r.events[n], k, m);
    SeenNext(r, n, StartOf(r.trace, m, r.jobs[m]));
    SeenNext(r, n, EndOf(r.trace, m, r.jobs[m]));
    SeenNext(r, n, WaitOf(r.trace, m, r.jobs[m]));
    SeenNext(r, n, ResumeOf(r.trace, m, r.jobs[m]));
    hide Seen, StartOf, EndOf, WaitOf, ResumeOf, Planned;
  }

  /** What the job's own event opens, pauses and closes. */
  lemma {:induction false} OwnEvent(r: Recording, n: nat, k: nat)
    requires Sound(r) && n < |r.events| && Planned(r, r.events[n], k)
    ensures Open(r, n, k) == !r.events[n].Start?
    ensures Open(r, n + 1, k) == !r.events[n].End?
    ensures !r.events[n].End? ==> Paused(r, n + 1, k) == r.events[n].Wait?
  {
    var e, j := r.events[n], r.jobs[k];
    PlannedInEvents(r, k);
    InOrder(r, k);
    NotYetSeen(r, n);
    ByTime(r, n, StartOf(r.trace, k, j));
    ByTime(r, n, EndOf(r.trace, k, j));
    SeenNext(r, n, StartOf(r.trace, k, j));
    SeenNext(r, n, EndOf(r.trace, k, j));
    if j.waits {
      ByTime(r, n, WaitOf(r.trace, k, j));
      ByTime(r, n, ResumeOf(r.trace, k, j));
      SeenNext(r, n, WaitOf(r.trace, k, j));
      SeenNext(r, n, ResumeOf(r.trace, k, j));
    }
    hide Sound, Seen, EventName, JobName, ActionOf;
  }

  lemma {:induction false} JobStep(r: Recording, n: nat, a: Id, k: nat)
    requires Sound(r) && n < |r.events| && Planned(r, r.events[n], k) && OnJob(r, n, a)
    ensures OnJob(r, n + 1, a)
  {
    hide Sound, Open, Paused, Planned, ActionOf, Story, Heard, OnJob;
    assert k < |r.jobs| by { SubjectIs(r, r.events[n], k); }
    forall m: nat | m < |r.jobs| && m != k
      ensures Open(r, n + 1, m) == Open(r, n, m) && Paused(r, n + 1, m) == Paused(r, n, m)
    {
      OthersUnchanged(r, n, k, m);
    }
    if r.jobs[k].agent == a {
      OwnStep(r, n, a, k);
    } else {
      OtherStep(r, n, a, k);
    }
  }

  lemma {:induction false} OtherStep(r: Recording, n: nat, a: Id, k: nat)
    requires n < |r.events| && Planned(r, r.events[n], k) && r.jobs[k].agent != a && OnJob(r, n, a)
    requires forall m: nat :: m < |r.jobs| && m != k ==>
               Open(r, n + 1, m) == Open(r, n, m) && Paused(r, n + 1, m) == Paused(r, n, m)
    ensures OnJob(r, n + 1, a)
  {
    SubjectIs(r, r.events[n], k);
    StoryNext(r, n, a);
    hide Open, Paused, Planned, ActionOf, Story, Heard;
  }

  lemma {:induction false} SubjectIs(r: Recording, e: Event, k: nat)
    requires Planned(r, e, k)
    ensures k < |r.jobs| && Subject(e) == r.jobs[k].agent
  {
  }

  lemma {:induction false} OwnStep(r: Recording, n: nat, a: Id, k: nat)
    requires Sound(r) && n < |r.events| && Planned(r, r.events[n], k) && r.jobs[k].agent == a && OnJob(r, n, a)
    requires forall m: nat :: m < |r.jobs| && m != k ==> Open(r, n + 1, m) == Open(r, n, m)
    ensures OnJob(r, n + 1, a)
  {
    var e := r.events[n];
    OwnEvent(r, n, k);
    StoryNext(r, n, a);
    SubjectIs(r, e, k);
    assert !e.End? ==> forall m: nat :: m < |r.jobs| && r.jobs[m].agent == a && Open(r, n + 1, m) ==> m == k by {
      if !e.End? {
        forall m: nat | m < |r.jobs| && r.jobs[m].agent == a && Open(r, n + 1, m)
          ensures m == k
        {
          OneOpen(r, n + 1, m, k);
        }
      }
    }
    assert e.End? ==> forall m: nat :: m < |r.jobs| && r.jobs[m].agent == a ==> !Open(r, n + 1, m) by {
      if e.End? {
        forall m: nat | m < |r.jobs| && r.jobs[m].agent == a
          ensures !Open(r, n + 1, m)
        {
          if m != k && Open(r, n, m) {
            OneOpen(r, n, m, k);
          }
        }
      }
    }
    hide Sound, Open, Paused;
    assert Open(r, n, k) ==> IsOn(r, n, a, k);
    HeardOwn(r, n, a, k);
  }

  lemma {:induction false} HeardOwn(r: Recording, n: nat, a: Id, k: nat)
    requires n < |r.events| && Planned(r, r.events[n], k) && (!r.events[n].Start? ==> IsOn(r, n, a, k))
    ensures Heard(Story(r.events[..n], a), r.events[n])
            == if r.events[n].End? then Idle
               else Intent(Some(ActionOf(r.trace, k, r.jobs[k])), r.events[n].Wait?)
  {
    hide EventName, JobName, Paused;
  }

  lemma {:induction false} NoneOnJob(r: Recording, a: Id)
    ensures OnJob(r, 0, a)
  {
    assert r.events[..0] == [];
  }

  lemma {:induction false} AlwaysOnJob(r: Recording, n: nat, a: Id)
    requires Sound(r) && n <= |r.events|
    ensures OnJob(r, n, a)
  {
    hide Sound, OnJob, Planned;
    if n == 0 {
      NoneOnJob(r, a);
    } else {
      AlwaysOnJob(r, n - 1, a);
      var k := PlanOf(r, r.events[n - 1]);
      JobStep(r, n - 1, a, k);
    }
  }

  lemma {:induction false} PlanOf(r: Recording, e: Event) returns (k: nat)
    requires Sound(r) && e in r.events
    ensures Planned(r, e, k)
  {
    hide Planned;
    k :| Planned(r, e, k);
  }
  // ---------------------------------------------------------------- open failures

  lemma {:induction false} PrefixOf(r: Recording, n: nat, i: nat)
    requires i <= n <= |r.events|
    ensures r.events[..n][..i] == r.events[..i]
  {
  }

  /** An end in the recording concludes its own job, with the outcome planned. */
  lemma {:induction false} EndConcludes(r: Recording, n: nat, a: Id, i: nat, k: nat)
    requires Sound(r) && i < n <= |r.events| && Planned(r, r.events[i], k) && r.events[i].End? && r.jobs[k].agent == a
    ensures Story(r.events[..n][..i], a).interaction == Some(ActionOf(r.trace, k, r.jobs[k]))
    ensures Concludes(r.events[..n], a, i, if r.jobs[k].failed then Failed else Completed)
  {
    PrefixOf(r, n, i);
    AlwaysOnJob(r, i, a);
    OwnEvent(r, i, k);
    assert IsOn(r, i, a, k);
    hide Sound, OnJob, Open, Paused;
  }

  /** Whatever concludes is the end of one of the agent's jobs. */
  lemma {:induction false} ConcludedIs(r: Recording, n: nat, a: Id, i: nat, outcome: Outcome) returns (k: nat)
    requires Sound(r) && n <= |r.events| && Concludes(r.events[..n], a, i, outcome)
    ensures i < n && k < |r.jobs| && r.jobs[k].agent == a && r.events[i] == EndOf(r.trace, k, r.jobs[k])
    ensures outcome == (if r.jobs[k].failed then Failed else Completed)
    ensures WorkAt(r.events[..n], a, i) == ActionOf(r.trace, k, r.jobs[k])
  {
    assert r.events[..n][i] == r.events[i];
    k := PlanOf(r, r.events[i]);
    SubjectIs(r, r.events[i], k);
    EndConcludes(r, n, a, i, k);
  }

  /** A failed job is no retry; the job after it is its retry, by the same agent, later, and succeeds. */
  lemma {:induction false} RetryFollows(r: Recording, k: nat)
    requires Sound(r) && k < |r.jobs| && r.jobs[k].failed
    ensures r.jobs[k].retryOf.None? && k + 1 < |r.jobs| && r.jobs[k + 1].retryOf == Some(k)
    ensures r.jobs[k + 1].agent == r.jobs[k].agent && !r.jobs[k + 1].failed && r.jobs[k].end < r.jobs[k + 1].end
  {
    hide O.Spaced, Planned;
    assert O.Retries(r.jobs[k], r.jobs[k + 1]) && O.Proper(r.jobs[k + 1]);
    assert r.jobs[k].retryOf.Some? ==> O.Retries(r.jobs[k - 1], r.jobs[k - 1 + 1]);
  }

  lemma {:induction false} RetriesOnly(r: Recording, m: nat, k: nat)
    requires Sound(r) && m < |r.jobs| && ActionOf(r.trace, m, r.jobs[m]).retryOf == Some(JobName(r.trace, k))
    ensures m == k + 1
  {
    hide O.Spaced, O.AllProper, Planned;
    JobNamesDiffer(r.trace, r.jobs[m].retryOf.value, k);
  }

  lemma {:induction false} SeenAt(r: Recording, n: nat, e: Event) returns (i: nat)
    requires Seen(r, n, e)
    ensures i < n <= |r.events| && r.events[i] == e
  {
    i :| 0 <= i < n && r.events[..n][i] == e;
  }

  lemma {:induction false} AtIsSeen(r: Recording, n: nat, i: nat)
    requires i < n <= |r.events|
    ensures Seen(r, n, r.events[i])
  {
    assert r.events[..n][i] == r.events[i];
  }

  /** A retry's success resolves, and nothing else does. */
  lemma {:induction false} ResolvedByRetry(r: Recording, n: nat, a: Id, i: nat, k: nat)
    requires Sound(r) && i < n <= |r.events| && k < |r.jobs| && r.jobs[k].agent == a && r.jobs[k].failed
    requires r.events[i] == EndOf(r.trace, k, r.jobs[k])
    ensures k + 1 < |r.jobs|
    ensures ResolvedAfter(r.events[..n], a, i, JobName(r.trace, k))
            <==> Seen(r, n, EndOf(r.trace, k + 1, r.jobs[k + 1]))
  {
    RetryFollows(r, k);
    var events, name := r.events[..n], JobName(r.trace, k);
    if ResolvedAfter(events, a, i, name) {
      var j :| i < j < |events| && Concludes(events, a, j, Completed) && WorkAt(events, a, j).retryOf == Some(name);
      var m := ConcludedIs(r, n, a, j, Completed);
      RetriesOnly(r, m, k);
      AtIsSeen(r, n, j);
    }
    if Seen(r, n, EndOf(r.trace, k + 1, r.jobs[k + 1])) {
      RetryResolves(r, n, a, i, k);
    }
  }

  lemma {:induction false} RetryResolves(r: Recording, n: nat, a: Id, i: nat, k: nat)
    requires Sound(r) && i < n <= |r.events| && k + 1 < |r.jobs| && r.jobs[k].agent == a && r.jobs[k].failed
    requires r.events[i] == EndOf(r.trace, k, r.jobs[k]) && Seen(r, n, EndOf(r.trace, k + 1, r.jobs[k + 1]))
    ensures ResolvedAfter(r.events[..n], a, i, JobName(r.trace, k))
  {
    RetryFollows(r, k);
    var j := SeenAt(r, n, EndOf(r.trace, k + 1, r.jobs[k + 1]));
    LaterIndex(r, i, j);
    assert Planned(r, r.events[j], k + 1);
    EndConcludes(r, n, a, j, k + 1);
    hide Sound, Planned, Seen;
    assert Concludes(r.events[..n], a, j, Completed);
    assert WorkAt(r.events[..n], a, j).retryOf == Some(JobName(r.trace, k));
  }

  lemma {:induction false} LaterIndex(r: Recording, i: nat, j: nat)
    requires Sound(r) && i < |r.events| && j < |r.events| && r.events[i].at < r.events[j].at
    ensures i < j
  {
    hide O.Spaced, O.AllProper, O.Reworked, Planned;
  }

  /** The agent's open failures are exactly the failed attempts whose retry has not ended. */
  lemma {:induction false} FailuresAre(r: Recording, n: nat, a: Id, x: Interaction, at: real)
    requires Sound(r) && n <= |r.events|
    ensures Holds(Ledger(r.events[..n], a), x, at) <==>
            exists k :: 0 <= k < |r.jobs| && IsFailure(r, n, a, x, at, k)
  {
    LedgerTellsHistory(r.events[..n], a, x, at);
    if OpenAs(r.events[..n], a, x, at) {
      var i :| 0 <= i < |r.events[..n]| && LeavesOpen(r.events[..n], a, i) && WorkAt(r.events[..n], a, i) == x
        && r.events[..n][i].at == at;
      var k := OpenIsFailure(r, n, a, i);
    }
    if k :| 0 <= k < |r.jobs| && IsFailure(r, n, a, x, at, k) {
      var i := FailureIsOpen(r, n, a, k);
    }
  }

  ghost predicate IsFailure(r: Recording, n: nat, a: Id, x: Interaction, at: real, k: nat)
    requires k < |r.jobs|
  {
    r.jobs[k].agent == a && x == ActionOf(r.trace, k, r.jobs[k]) && at == r.jobs[k].end && Unmended(r, n, k)
  }

  lemma {:induction false} OpenIsFailure(r: Recording, n: nat, a: Id, i: nat) returns (k: nat)
    requires Sound(r) && n <= |r.events| && LeavesOpen(r.events[..n], a, i)
    ensures k < |r.jobs|
    ensures IsFailure(r, n, a, WorkAt(r.events[..n], a, i), r.events[..n][i].at, k)
  {
    k := ConcludedIs(r, n, a, i, Failed);
    ResolvedByRetry(r, n, a, i, k);
    AtIsSeen(r, n, i);
  }

  lemma {:induction false} FailureIsOpen(r: Recording, n: nat, a: Id, k: nat) returns (i: nat)
    requires Sound(r) && n <= |r.events| && k < |r.jobs| && r.jobs[k].agent == a && Unmended(r, n, k)
    ensures i < |r.events[..n]| && LeavesOpen(r.events[..n], a, i)
    ensures WorkAt(r.events[..n], a, i) == ActionOf(r.trace, k, r.jobs[k]) && r.events[..n][i].at == r.jobs[k].end
  {
    i := SeenAt(r, n, EndOf(r.trace, k, r.jobs[k]));
    assert Planned(r, r.events[i], k);
    EndConcludes(r, n, a, i, k);
    RetryFollows(r, k);
    ResolvedByRetry(r, n, a, i, k);
    hide Sound, Seen, Planned;
    assert !OpenUnder(r.events[..n][..i], a, None) by { NoneUnderNone(r.events[..n][..i], a); }
  }

  lemma {:induction false} NoneUnderNone(events: seq<Event>, a: Id)
    ensures !OpenUnder(events, a, None)
  {
  }

  // ---------------------------------------------------------------- at any moment

  /** The job is under way at this moment, and in its wait. */
  predicate Works(j: O.Job, a: Id, t: real) { j.agent == a && j.start <= t < j.end }

  predicate Waits(j: O.Job, t: real) {
    var length := j.end - j.start;
    j.waits && j.start + length * 0.3 <= t < j.start + length * 0.7
  }

  /** The attempt has failed by now, and its retry has not ended. */
  ghost predicate IsUnmended(jobs: seq<O.Job>, k: nat, t: real) {
    k + 1 < |jobs| && jobs[k].failed && jobs[k].end <= t < jobs[k + 1].end
  }

  lemma {:induction false} SeenIffDue(r: Recording, t: real, e: Event)
    requires Sound(r) && e in r.events
    ensures Seen(r, Due(r.events, t), e) <==> e.at <= t
  {
    hide O.Spaced, O.AllProper, O.Reworked, Planned;
    var n := Due(r.events, t);
    var i :| 0 <= i < |r.events| && r.events[i] == e;
    if Seen(r, n, e) {
      var j := SeenAt(r, n, e);
    }
    assert n < i ==> r.events[n].at <= r.events[i].at;
    if i < n {
      AtIsSeen(r, n, i);
    }
  }

  lemma {:induction false} JobByTime(r: Recording, t: real, k: nat)
    requires Sound(r) && k < |r.jobs|
    ensures var n := Due(r.events, t); var j := r.jobs[k];
            && (Open(r, n, k) <==> j.start <= t < j.end) && (Paused(r, n, k) <==> Waits(j, t))
            && (Unmended(r, n, k) <==> IsUnmended(r.jobs, k, t))
  {
    var n, j := Due(r.events, t), r.jobs[k];
    PlannedInEvents(r, k);
    SeenIffDue(r, t, StartOf(r.trace, k, j));
    SeenIffDue(r, t, EndOf(r.trace, k, j));
    if j.waits {
      SeenIffDue(r, t, WaitOf(r.trace, k, j));
      SeenIffDue(r, t, ResumeOf(r.trace, k, j));
    }
    if k + 1 < |r.jobs| {
      PlannedInEvents(r, k + 1);
      SeenIffDue(r, t, EndOf(r.trace, k + 1, r.jobs[k + 1]));
    }
    hide Sound, Seen, EventName, JobName, ActionOf;
  }

  /** What the plan has an agent do at this moment, whichever way it is told. */
  ghost predicate ShowsPlan(trace: string, jobs: seq<O.Job>, a: Id, t: real, shown: Intent) {
    && (forall k :: 0 <= k < |jobs| && Works(jobs[k], a, t) ==>
          shown == Intent(Some(ActionOf(trace, k, jobs[k])), Waits(jobs[k], t)))
    && ((forall k :: 0 <= k < |jobs| ==> !Works(jobs[k], a, t)) ==> shown == Idle)
  }

  /**
   At every moment the scene of a recorded plan shows each agent on exactly the job the plan has for that moment,
   waiting exactly during its wait, and lists as failed exactly the failed attempts whose retry has not ended.
   */
  lemma {:induction false} SceneShowsPlan(r: Recording, a: Id, t: real)
    requires Sound(r)
    ensures var scene := SceneOf(r.events[..Due(r.events, t)]);
            && ShowsPlan(r.trace, r.jobs, a, t, SceneIntent(scene, a))
            && ListsFailures(r.trace, r.jobs, a, t, StateOf(scene, a).failures)
  {
    hide Sound, ShowsPlan, SceneOf, FailedAs, Holds;
    IntentShowsPlan(r, a, t);
    var fs := Ledger(r.events[..Due(r.events, t)], a);
    forall x, at
      ensures Holds(fs, x, at) <==> exists k :: 0 <= k < |r.jobs| && FailedAs(r.trace, r.jobs, a, t, x, at, k)
    {
      FailuresByTime(r, a, t, x, at);
    }
  }

  ghost predicate ListsFailures(trace: string, jobs: seq<O.Job>, a: Id, t: real, fs: seq<Failure>) {
    forall x, at :: Holds(fs, x, at) <==> exists k :: 0 <= k < |jobs| && FailedAs(trace, jobs, a, t, x, at, k)
  }

  lemma {:induction false} IntentShowsPlan(r: Recording, a: Id, t: real)
    requires Sound(r)
    ensures ShowsPlan(r.trace, r.jobs, a, t, SceneIntent(SceneOf(r.events[..Due(r.events, t)]), a))
  {
    var n := Due(r.events, t);
    hide Sound, Open, Paused, Waits, SceneOf, Story, ActionOf, Due, Unmended, IsUnmended;
    AlwaysOnJob(r, n, a);
    SceneTellsStory(r.events[..n], a);
    forall k: nat | k < |r.jobs|
      ensures var j := r.jobs[k];
              (Open(r, n, k) <==> j.start <= t < j.end) && (Paused(r, n, k) <==> Waits(j, t))
    {
      JobByTime(r, t, k);
    }
    forall k | 0 <= k < |r.jobs| && Works(r.jobs[k], a, t)
      ensures SceneIntent(SceneOf(r.events[..n]), a)
              == Intent(Some(ActionOf(r.trace, k, r.jobs[k])), Waits(r.jobs[k], t))
    {
      assert Open(r, n, k) && IsOn(r, n, a, k);
    }
    if forall k :: 0 <= k < |r.jobs| ==> !Works(r.jobs[k], a, t) {
      forall k | 0 <= k < |r.jobs| && r.jobs[k].agent == a
        ensures !Open(r, n, k)
      {
        assert !Works(r.jobs[k], a, t);
      }
    }
  }

  ghost predicate FailedAs(trace: string, jobs: seq<O.Job>, a: Id, t: real, x: Interaction, at: real, k: nat)
    requires k < |jobs|
  {
    jobs[k].agent == a && x == ActionOf(trace, k, jobs[k]) && at == jobs[k].end && IsUnmended(jobs, k, t)
  }

  lemma {:induction false} FailuresByTime(r: Recording, a: Id, t: real, x: Interaction, at: real)
    requires Sound(r)
    ensures Holds(Ledger(r.events[..Due(r.events, t)], a), x, at) <==>
            exists k :: 0 <= k < |r.jobs| && FailedAs(r.trace, r.jobs, a, t, x, at, k)
  {
    var n := Due(r.events, t);
    FailuresAre(r, n, a, x, at);
    hide Sound, Unmended, IsUnmended, Holds, ActionOf, Ledger, Due;
    if k :| 0 <= k < |r.jobs| && IsFailure(r, n, a, x, at, k) {
      JobByTime(r, t, k);
      assert FailedAs(r.trace, r.jobs, a, t, x, at, k);
    }
    if k :| 0 <= k < |r.jobs| && FailedAs(r.trace, r.jobs, a, t, x, at, k) {
      JobByTime(r, t, k);
      assert IsFailure(r, n, a, x, at, k);
    }
  }

  /** So does the stage, once an organization's plan has played at all. */
  lemma {:induction false} StageShowsPlan(ph: W.Physics, entities: seq<W.Entity>, o: O.Organization, jobs: seq<O.Job>,
                                          trace: string, sorted: seq<Event>, from: seq<nat>, duration: real,
                                          calls: seq<P.Call>, a: Id)
    requires O.Manned(o, jobs) && O.Spaced(jobs) && O.AllProper(jobs) && O.Reworked(jobs)
    requires Lists(W.Sync(ph, W.Empty, entities).bodies, o) && IsSorting(AllEvents(trace, jobs), sorted, from)
    requires (forall c :: c in calls ==> c.seconds >= 0.0) && exists c :: c in calls && c.play
    ensures var p := P.PlayedAll(ph, entities, Some(P.Example(sorted, duration)), calls);
            ShowsPlan(trace, jobs, a, p.elapsed, P.IntentIn(p.world.bodies, a))
  {
    hide P.PlayedAll, P.Playable, IsSorting, Lists, Sound, AllEvents, P.IntentIn, ShowsPlan, W.Sync, SceneOf;
    SortingIsSound(trace, jobs, sorted, from);
    OrganizationShowsScene(ph, entities, o, jobs, trace, sorted, from, duration, calls, a);
    var p := P.PlayedAll(ph, entities, Some(P.Example(sorted, duration)), calls);
    SceneShowsPlan(Recording(trace, jobs, sorted), a, p.elapsed);
  }
}
