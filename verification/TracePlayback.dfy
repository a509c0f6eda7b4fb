/** The organization traces as recorded events: names, order of time, and the playback they are made for. */
module TracePlayback {
  import opened Common
  import opened Interactions
  import O = OrganizationTraces
  import W = MotionWorld
  import P = MotionPlayback

  // ---------------------------------------------------------------- names

  function Digit(d: nat): char
    requires d < 10
  {
    "0123456789"[d]
  }

  function Decimal(n: nat): string {
    if n < 10 then [Digit(n)] else Decimal(n / 10) + [Digit(n % 10)]
  }

  ghost predicate NoDash(s: string) {
    forall k :: 0 <= k < |s| ==> s[k] != '-'
  }

  lemma {:induction false} DecimalPlain(n: nat)
    ensures |Decimal(n)| > 0 && NoDash(Decimal(n))
  {
    if n >= 10 {
      DecimalPlain(n / 10);
    }
  }

  lemma {:induction false} DecimalInjective(a: nat, b: nat)
    requires Decimal(a) == Decimal(b)
    ensures a == b
  {
    hide Decimal;
    LastDigit(a);
    LastDigit(b);
    DigitsDiffer(a % 10, b % 10);
    if a >= 10 && b >= 10 {
      DecimalInjective(a / 10, b / 10);
    }
  }

  lemma {:induction false} LastDigit(n: nat)
    ensures |Decimal(n)| > 0 && Decimal(n)[|Decimal(n)| - 1] == Digit(n % 10)
    ensures if n < 10 then |Decimal(n)| == 1 else |Decimal(n)| > 1 && Decimal(n)[..|Decimal(n)| - 1] == Decimal(n / 10)
  {
    if n >= 10 {
      DecimalPlain(n / 10);
    }
  }

  lemma {:induction false} DigitsDiffer(a: nat, b: nat)
    requires a < 10 && b < 10 && Digit(a) == Digit(b)
    ensures a == b
  {
  }

  /** What stands before the first dash, and after it, can be read back. */
  lemma {:induction false} DashSplits(a: string, x: string, b: string, y: string)
    requires NoDash(a) && NoDash(b) && a + "-" + x == b + "-" + y
    ensures a == b && x == y
  {
    var s := a + "-" + x;
    assert s[|a|] == '-' && s[|b|] == '-';
    assert |a| == |b|;
    assert s[..|a|] == a && s[..|b|] == b && s[|a| + 1..] == x && s[|b| + 1..] == y;
  }

  function JobName(trace: string, k: nat): string { trace + "-" + Decimal(k) }

  function EventName(trace: string, k: nat, tag: string): EventId {
    Recorded(JobName(trace, k) + "-" + tag)
  }

  lemma {:induction false} JobNamesDiffer(trace: string, j: nat, k: nat)
    requires JobName(trace, j) == JobName(trace, k)
    ensures j == k
  {
    var s := JobName(trace, j);
    assert s[|trace| + 1..] == Decimal(j) && s[|trace| + 1..] == Decimal(k);
    DecimalInjective(j, k);
  }

  lemma {:induction false} EventNamesDiffer(trace: string, j: nat, x: string, k: nat, y: string)
    requires EventName(trace, j, x) == EventName(trace, k, y)
    ensures j == k && x == y
  {
    var s := JobName(trace, j) + "-" + x;
    var n := |trace| + 1;
    assert s[n..] == Decimal(j) + "-" + x;
    assert s == JobName(trace, k) + "-" + y && s[n..] == Decimal(k) + "-" + y;
    DecimalPlain(j);
    DecimalPlain(k);
    DashSplits(Decimal(j), x, Decimal(k), y);
    DecimalInjective(j, k);
  }

  // ---------------------------------------------------------------- events

  function ActionOf(trace: string, k: nat, j: O.Job): Interaction {
    Interaction(JobName(trace, k), j.agent, j.target.id,
                if j.retryOf.Some? then Some(JobName(trace, j.retryOf.value)) else None)
  }

  /** The events of one interaction: its start, perhaps a wait and a resume in between, its end. */
  function EventsOf(trace: string, k: nat, j: O.Job): seq<Event> {
    var length := j.end - j.start;
    [Start(EventName(trace, k, "start"), j.start, ActionOf(trace, k, j))] +
    (if j.waits then [Wait(EventName(trace, k, "wait"), j.start + length * 0.3, j.agent, JobName(trace, k)),
                      Resume(EventName(trace, k, "resume"), j.start + length * 0.7, j.agent, JobName(trace, k))]
     else []) +
    [End(EventName(trace, k, "end"), j.end, j.agent, JobName(trace, k), if j.failed then Failed else Completed)]
  }

  function AllEvents(trace: string, jobs: seq<O.Job>): seq<Event> {
    if jobs == [] then [] else AllEvents(trace, jobs[..|jobs| - 1]) + EventsOf(trace, |jobs| - 1, jobs[|jobs| - 1])
  }

  function TagOf(e: Event): string {
    match e
    case Start(_, _, _) => "start"
    case Wait(_, _, _, _) => "wait"
    case Resume(_, _, _, _) => "resume"
    case End(_, _, _, _, _) => "end"
  }

  /** The event is one of this job's, named after it. */
  ghost predicate Belongs(trace: string, jobs: seq<O.Job>, e: Event, k: nat) {
    && k < |jobs| && e.id == EventName(trace, k, TagOf(e))
    && (e.Start? ==> e.interaction == ActionOf(trace, k, jobs[k]))
  }

  lemma {:induction false} OwnEvents(trace: string, jobs: seq<O.Job>, k: nat)
    requires k < |jobs|
    ensures forall e :: e in EventsOf(trace, k, jobs[k]) ==> Belongs(trace, jobs, e, k)
    ensures var es := EventsOf(trace, k, jobs[k]); forall x, y :: 0 <= x < y < |es| ==> TagOf(es[x]) != TagOf(es[y])
  {
    hide EventName, ActionOf;
  }

  lemma {:induction false} EventBelongs(trace: string, jobs: seq<O.Job>, e: Event) returns (k: nat)
    requires e in AllEvents(trace, jobs)
    ensures Belongs(trace, jobs, e, k)
  {
    hide EventsOf, EventName, ActionOf;
    var n := |jobs| - 1;
    if e in EventsOf(trace, n, jobs[n]) {
      OwnEvents(trace, jobs, n);
      k := n;
    } else {
      k := EventBelongs(trace, jobs[..n], e);
    }
  }

  ghost predicate DistinctIds(events: seq<Event>) {
    forall x, y :: 0 <= x < y < |events| ==> events[x].id != events[y].id
  }

  lemma {:induction false} AllEventsDiffer(trace: string, jobs: seq<O.Job>)
    ensures DistinctIds(AllEvents(trace, jobs))
  {
    hide EventsOf, EventName, ActionOf;
    if jobs != [] {
      var n := |jobs| - 1;
      var a, b := AllEvents(trace, jobs[..n]), EventsOf(trace, n, jobs[n]);
      var all: seq<Event> := a + b;
      AllEventsDiffer(trace, jobs[..n]);
      OwnEvents(trace, jobs, n);
      forall x, y | 0 <= x < y < |all|
        ensures all[x].id != all[y].id
      {
        if x >= |a| {
          var i, j := x - |a|, y - |a|;
          assert all[x] == b[i] && all[y] == b[j];
          assert b[i] in b && b[j] in b;
          NamesApart(trace, n, TagOf(b[i]), n, TagOf(b[j]));
        } else if y >= |a| {
          var k := EventBelongs(trace, jobs[..n], a[x]);
          assert all[y] in b;
          NamesApart(trace, k, TagOf(a[x]), n, TagOf(all[y]));
        }
      }
    }
  }

  lemma {:induction false} NamesApart(trace: string, j: nat, x: string, k: nat, y: string)
    requires j != k || x != y
    ensures EventName(trace, j, x) != EventName(trace, k, y)
  {
    if EventName(trace, j, x) == EventName(trace, k, y) {
      EventNamesDiffer(trace, j, x, k, y);
    }
  }

  // ---------------------------------------------------------------- sorted traces play

  /** The same events in order of time, each from its own place. */
  ghost predicate IsSorting(events: seq<Event>, sorted: seq<Event>, from: seq<nat>) {
    && |sorted| == |events| == |from| && Distinct(from)
    && (forall i :: 0 <= i < |from| ==> from[i] < |events| && sorted[i] == events[from[i]])
    && (forall i, j :: 0 <= i < j < |sorted| ==> sorted[i].at <= sorted[j].at)
  }

  /** Everyone who acts is listed as an agent, every place as a destination. */
  ghost predicate Lists(bodies: W.Bodies, o: O.Organization) {
    && (forall a :: O.Employed(o, a) ==> a in bodies && bodies[a].kind == W.Agent)
    && (forall p :: p in o.places ==> p in bodies && bodies[p].kind == W.Destination)
  }

  /** A sorted organization trace can be played: playback and the work scene agree on it throughout. */
  lemma {:induction false} TraceIsPlayable(ph: W.Physics, entities: seq<W.Entity>, o: O.Organization, jobs: seq<O.Job>,
                                           trace: string, sorted: seq<Event>, from: seq<nat>)
    requires O.Manned(o, jobs) && O.AllProper(jobs) && Lists(W.Sync(ph, W.Empty, entities).bodies, o)
    requires IsSorting(AllEvents(trace, jobs), sorted, from)
    ensures P.Playable(ph, entities, sorted)
  {
    hide W.Sync, AllEvents, O.Employed, EventName;
    var events := AllEvents(trace, jobs);
    AllEventsDiffer(trace, jobs);
    forall i, j | 0 <= i < j < |sorted|
      ensures sorted[i].id != sorted[j].id
      ensures sorted[i].Start? && sorted[j].Start? ==> sorted[i].interaction.id != sorted[j].interaction.id
    {
      assert from[i] != from[j];
      assert events[from[i]].id != events[from[j]].id;
      if sorted[i].Start? && sorted[j].Start? {
        StartsDiffer(trace, jobs, sorted[i], sorted[j]);
      }
    }
    forall i | 0 <= i < |sorted| && sorted[i].Start?
      ensures W.Startable(W.Sync(ph, W.Empty, entities).bodies, sorted[i].interaction)
    {
      assert sorted[i] in events;
      var k := EventBelongs(trace, jobs, sorted[i]);
      assert O.Proper(jobs[k]) && O.Known(o, jobs[k].target);
    }
  }

  /** So once an organization trace has played at all, stage and scene agree on every agent. */
  lemma {:induction false} OrganizationShowsScene(ph: W.Physics, entities: seq<W.Entity>, o: O.Organization,
                                                  jobs: seq<O.Job>, trace: string, sorted: seq<Event>, from: seq<nat>,
                                                  duration: real, calls: seq<P.Call>, id: Id)
    requires O.Manned(o, jobs) && O.AllProper(jobs) && Lists(W.Sync(ph, W.Empty, entities).bodies, o)
    requires IsSorting(AllEvents(trace, jobs), sorted, from)
    requires (forall c :: c in calls ==> c.seconds >= 0.0) && exists c :: c in calls && c.play
    ensures P.Agrees(P.PlayedAll(ph, entities, Some(P.Example(sorted, duration)), calls), sorted, id)
  {
    hide P.Agrees, P.PlayedAll, P.Playable, IsSorting, Lists;
    TraceIsPlayable(ph, entities, o, jobs, trace, sorted, from);
    P.PlaybackShowsScene(ph, entities, P.Example(sorted, duration), calls, id);
  }

  lemma {:induction false} StartsDiffer(trace: string, jobs: seq<O.Job>, a: Event, b: Event)
    requires a in AllEvents(trace, jobs) && b in AllEvents(trace, jobs) && a.Start? && b.Start? && a.id != b.id
    ensures a.interaction.id != b.interaction.id
  {
    hide AllEvents;
    var j := EventBelongs(trace, jobs, a);
    var k := EventBelongs(trace, jobs, b);
    if JobName(trace, j) == JobName(trace, k) {
      JobNamesDiffer(trace, j, k);
    }
  }
}
