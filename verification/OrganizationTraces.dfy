/** The organization traces: workstreams compete for agents, and both sides of a handoff are reserved. */
module OrganizationTraces {
  import opened Common

  const REST := 0.7

  datatype Phase = Handoff | Branch(n: nat) | Rework(n: nat) | Gate
  datatype Target = Place(id: Id) | Peer(id: Id)

  /** One scheduled interaction; its serial number is its place in the list. */
  datatype Job = Job(item: nat, stage: nat, phase: Phase, agent: Id, target: Target, start: real, end: real,
                     failed: bool, waits: bool, retryOf: Option<nat>)

  function Participants(j: Job): set<Id> {
    if j.target.Peer? then {j.agent, j.target.id} else {j.agent}
  }

  // ---------------------------------------------------------------- what a schedule promises

  predicate RestBetween(a: Job, b: Job) { a.end + REST <= b.start }

  /** Nobody takes part in two interactions closer than the rest. */
  ghost predicate Spaced(jobs: seq<Job>) {
    forall i, j {:trigger RestBetween(jobs[i], jobs[j])} ::
      0 <= i < j < |jobs| && Participants(jobs[i]) * Participants(jobs[j]) != {} ==> RestBetween(jobs[i], jobs[j])
  }

  function Rank(j: Job): nat { PhaseRank(j.stage, j.phase) }

  function PhaseRank(stage: nat, phase: Phase): nat {
    stage * 3 + match phase
      case Handoff => 0
      case Branch(_) => 1
      case Rework(_) => 1
      case Gate => 2
  }

  predicate Follows(a: Job, b: Job) { a.end <= b.start }

  /** Within a workstream: stage after stage, and in a stage the handoff, then branches and rework, then the gate. */
  ghost predicate Ordered(jobs: seq<Job>) {
    forall i, j {:trigger Follows(jobs[i], jobs[j])} ::
      0 <= i < |jobs| && 0 <= j < |jobs| && jobs[i].item == jobs[j].item && Rank(jobs[i]) < Rank(jobs[j]) ==>
          Follows(jobs[i], jobs[j])
  }

  /** Every failed attempt is retried next, by the same agent and no sooner than 1.6 later; nothing else is a retry. */
  ghost predicate Reworked(jobs: seq<Job>) {
    && (forall i :: 0 <= i < |jobs| && jobs[i].failed ==>
          i + 1 < |jobs| && jobs[i + 1].retryOf == Some(i) && Retries(jobs[i], jobs[i + 1]))
    && (forall i :: 0 <= i < |jobs| && jobs[i].retryOf.Some? ==>
          0 < i && jobs[i].retryOf == Some(i - 1) && jobs[i - 1].failed)
  }

  predicate Retries(a: Job, b: Job) {
    b.agent == a.agent && b.item == a.item && b.stage == a.stage && a.end + 1.6 <= b.start && !b.failed
  }

  /** Interactions run forward and no agent hands off to itself. */
  predicate Proper(j: Job) { 0.0 <= j.start < j.end && (j.target.Peer? ==> j.target.id != j.agent) }

  ghost predicate AllProper(jobs: seq<Job>) {
    forall i :: 0 <= i < |jobs| ==> Proper(jobs[i])
  }

  /** What follows for a viewer: while a handoff is live its receiver is in no other live interaction. */
  lemma {:induction false} ReceiverIsFree(jobs: seq<Job>, i: nat, j: nat, t: real)
    requires Spaced(jobs) && i < |jobs| && j < |jobs| && i != j && jobs[i].target.Peer?
             && jobs[i].start <= t <= jobs[i].end
    requires jobs[i].target.id in Participants(jobs[j])
    ensures !(jobs[j].start <= t <= jobs[j].end)
  {
    var p := jobs[i].target.id;
    assert p in Participants(jobs[i]) * Participants(jobs[j]);
    if i < j {
      assert RestBetween(jobs[i], jobs[j]);
    } else {
      assert p in Participants(jobs[j]) * Participants(jobs[i]);
      assert RestBetween(jobs[j], jobs[i]);
    }
  }

  // ---------------------------------------------------------------- the scheduler

  function FreeAt(available: map<Id, real>, p: Id): real {
    if p in available then available[p] else 0.0
  }

  /** Everyone is free again only after the rest that follows their last interaction. */
  ghost predicate Reserved(available: map<Id, real>, jobs: seq<Job>) {
    && (forall i, p :: 0 <= i < |jobs| && p in Participants(jobs[i]) ==> jobs[i].end + REST <= FreeAt(available, p))
    && (forall p :: p in available ==> available[p] >= 0.0)
  }

  lemma {:induction false} SpacedMore(available: map<Id, real>, jobs: seq<Job>, job: Job)
    requires Spaced(jobs) && Reserved(available, jobs)
             && forall p :: p in Participants(job) ==> FreeAt(available, p) <= job.start
    ensures Spaced(jobs + [job])
  {
    var more := jobs + [job];
    forall i, j | 0 <= i < j < |more| && Participants(more[i]) * Participants(more[j]) != {}
      ensures RestBetween(more[i], more[j])
    {
      if j < |jobs| {
        assert RestBetween(jobs[i], jobs[j]);
      } else {
        var p :| p in Participants(more[i]) * Participants(more[j]);
        assert p in Participants(jobs[i]) && p in Participants(job);
      }
    }
  }

  function Reserve(available: map<Id, real>, j: Job): map<Id, real> {
    var own := available[j.agent := j.end + REST];
    if j.target.Peer? then own[j.target.id := j.end + REST] else own
  }

  lemma {:induction false} ReservedMore(available: map<Id, real>, jobs: seq<Job>, job: Job)
    requires Reserved(available, jobs) && Proper(job)
             && forall p :: p in Participants(job) ==> FreeAt(available, p) <= job.start
    ensures Reserved(Reserve(available, job), jobs + [job])
  {
    var after, more := Reserve(available, job), jobs + [job];
    forall i, p | 0 <= i < |more| && p in Participants(more[i])
      ensures more[i].end + REST <= FreeAt(after, p)
    {
      if i < |jobs| {
        assert jobs[i].end + REST <= FreeAt(available, p);
        assert FreeAt(available, p) <= FreeAt(after, p) by { if p in Participants(job) {} }
      }
    }
  }

  class Scheduler {
    var available: map<Id, real>
    var jobs: seq<Job>

    ghost predicate Valid()
      reads this
    {
      Spaced(jobs) && Reserved(available, jobs) && AllProper(jobs)
    }

    constructor ()
      ensures Valid() && jobs == []
    {
      available, jobs := map[], [];
    }

    /** Put an interaction at the first moment all its participants are free, and reserve them through their rest. */
    method Schedule(item: nat, stage: nat, phase: Phase, agent: Id, target: Target, earliest: real, length: real,
                    failed: bool, waits: bool, retryOf: Option<nat>) returns (end: real)
      requires Valid() && length > 0.0 && (target.Peer? ==> target.id != agent)
      modifies this
      ensures Valid() && |jobs| == |old(jobs)| + 1 && jobs[..|old(jobs)|] == old(jobs)
      ensures var j := jobs[|old(jobs)|];
              && j == Job(item, stage, phase, agent, target, j.start, end, failed, waits, retryOf)
              && j.start >= earliest && end == j.start + length
              && (j.start == earliest || j.start == FreeAt(old(available), agent)
                  || (target.Peer? && j.start == FreeAt(old(available), target.id)))
    {
      var start := Later(earliest, FreeAt(available, agent));
      if target.Peer? {
        start := Later(start, FreeAt(available, target.id));
      }
      end := start + length;
      var job := Job(item, stage, phase, agent, target, start, end, failed, waits, retryOf);
      SpacedMore(available, jobs, job);
      ReservedMore(available, jobs, job);
      hide Spaced, Reserved;
      available := available[agent := end + REST];
      if target.Peer? {
        available := available[target.id := end + REST];
      }
      jobs := jobs + [job];
    }
  }

  function Later(a: real, b: real): real { if a < b then b else a }

  // ---------------------------------------------------------------- growing a schedule phase by phase

  /** New interactions of one phase of one workstream, all between two moments. */
  ghost predicate Grown(a: seq<Job>, b: seq<Job>, item: nat, rank: nat, from: real, to: real) {
    a <= b && forall k :: |a| <= k < |b| ==> InPhase(b[k], item, rank, from, to)
  }

  predicate InPhase(j: Job, item: nat, rank: nat, from: real, to: real) {
    j.item == item && Rank(j) == rank && from <= j.start && j.end <= to
  }

  lemma {:induction false} GrownTwice(a: seq<Job>, b: seq<Job>, c: seq<Job>, item: nat, rank: nat, from: real,
                                      mid: real, to: real)
    requires Grown(a, b, item, rank, from, mid) && Grown(b, c, item, rank, from, to) && mid <= to
    ensures Grown(a, c, item, rank, from, to)
  {
    forall k | |a| <= k < |c|
      ensures InPhase(c[k], item, rank, from, to)
    {
      if k < |b| {
        assert InPhase(b[k], item, rank, from, mid) && c[k] == b[k];
      }
    }
  }

  /** So far the workstream has only earlier phases, all over by `ready`, and no later workstream has begun. */
  ghost predicate Upto(jobs: seq<Job>, item: nat, rank: nat, ready: real) {
    forall i :: 0 <= i < |jobs| ==>
      jobs[i].item <= item && (jobs[i].item == item ==> Rank(jobs[i]) < rank && jobs[i].end <= ready)
  }

  lemma {:induction false} PhaseAdded(a: seq<Job>, b: seq<Job>, item: nat, rank: nat, from: real, to: real)
    requires Ordered(a) && Upto(a, item, rank, from) && Grown(a, b, item, rank, from, to) && from <= to
    ensures Ordered(b) && Upto(b, item, rank + 1, to)
  {
    forall k | 0 <= k < |b|
      ensures if k < |a| then b[k] == a[k] else InPhase(b[k], item, rank, from, to)
    {
    }
    forall i, j | 0 <= i < |b| && 0 <= j < |b| && b[i].item == b[j].item && Rank(b[i]) < Rank(b[j])
      ensures Follows(b[i], b[j])
    {
      if i < |a| && j < |a| {
        assert Follows(a[i], a[j]);
      }
    }
  }

  lemma {:induction false} UptoLater(jobs: seq<Job>, item: nat, rank: nat, ready: real, rank': nat, ready': real)
    requires Upto(jobs, item, rank, ready) && rank <= rank' && ready <= ready'
    ensures Upto(jobs, item, rank', ready')
  {
  }

  lemma {:induction false} ReworkedOne(jobs: seq<Job>, j: Job)
    requires Reworked(jobs) && !j.failed && j.retryOf.None?
    ensures Reworked(jobs + [j])
  {
    assert forall i :: 0 <= i < |jobs| ==> (jobs + [j])[i] == jobs[i];
  }

  lemma {:induction false} ReworkedTwo(jobs: seq<Job>, a: Job, b: Job)
    requires Reworked(jobs) && a.failed && a.retryOf.None? && b.retryOf == Some(|jobs|) && Retries(a, b)
    ensures Reworked(jobs + [a] + [b])
  {
    var more := jobs + [a] + [b];
    assert forall i :: 0 <= i < |jobs| ==> more[i] == jobs[i];
    assert more[|jobs|] == a && more[|jobs| + 1] == b;
  }

  // ---------------------------------------------------------------- the workstreams

  /** Teams with their members, the places of work, and the size of the trace. */
  datatype Organization = Organization(groups: seq<seq<Id>>, places: seq<Id>, count: nat, stages: nat, spacing: real)

  ghost predicate Staffed(o: Organization) {
    o.groups != [] && o.places != [] && forall g :: 0 <= g < |o.groups| ==> o.groups[g] != []
  }

  function Pick(o: Organization, team: nat, seat: nat): Id
    requires Staffed(o)
  {
    var group := o.groups[team % |o.groups|];
    group[seat % |group|]
  }

  function PlaceAt(o: Organization, n: nat): Target
    requires o.places != []
  {
    Place(o.places[n % |o.places|])
  }

  function WorkerAt(o: Organization, item: nat, stage: nat, branch: nat): Id
    requires Staffed(o)
  {
    Pick(o, item + stage + branch, item * 3 + branch)
  }

  /** The branch workers: one entry per person, in the order they were first picked. */
  method Workers(o: Organization, item: nat, stage: nat) returns (workers: seq<Id>)
    requires Staffed(o)
    ensures workers != [] && Distinct(workers) && forall w :: w in workers ==> Employed(o, w)
    ensures forall b :: 0 <= b < 2 + (item + stage) % 4 ==> WorkerAt(o, item, stage, b) in workers
  {
    PickEmployed(o, item + stage, item * 3);
    hide Employed;
    workers := [WorkerAt(o, item, stage, 0)];
    for b := 1 to 2 + (item + stage) % 4
      invariant workers != [] && Distinct(workers) && forall w :: w in workers ==> Employed(o, w)
      invariant forall k :: 0 <= k < b ==> WorkerAt(o, item, stage, k) in workers
    {
      var agent := WorkerAt(o, item, stage, b);
      PickEmployed(o, item + stage + b, item * 3 + b);
      if agent !in workers {
        workers := workers + [agent];
      }
    }
  }

  ghost predicate Good(s: Scheduler, o: Organization)
    reads s
  {
    s.Valid() && Reworked(s.jobs) && Manned(o, s.jobs)
  }

  ghost predicate Employed(o: Organization, a: Id) {
    exists g, k :: 0 <= g < |o.groups| && 0 <= k < |o.groups[g]| && o.groups[g][k] == a
  }

  ghost predicate Known(o: Organization, t: Target) {
    if t.Peer? then Employed(o, t.id) else t.id in o.places
  }

  /** Only members of the organization act, and only on its members and places. */
  ghost predicate Manned(o: Organization, jobs: seq<Job>) {
    forall i :: 0 <= i < |jobs| ==> Employed(o, jobs[i].agent) && Known(o, jobs[i].target)
  }

  lemma {:induction false} PickEmployed(o: Organization, team: nat, seat: nat)
    requires Staffed(o)
    ensures Employed(o, Pick(o, team, seat))
  {
    var g := team % |o.groups|;
    var k := seat % |o.groups[g]|;
    assert o.groups[g][k] == Pick(o, team, seat);
  }

  /** One branch, and its rework at the next place if it failed. */
  method RunBranch(s: Scheduler, o: Organization, item: nat, stage: nat, branch: nat, agent: Id, ready: real)
    returns (end: real)
    requires Staffed(o) && Good(s, o) && Employed(o, agent)
    modifies s
    ensures Good(s, o) && ready < end && Grown(old(s.jobs), s.jobs, item, stage * 3 + 1, ready, end)
    ensures |old(s.jobs)| < |s.jobs| && IsBranch(s.jobs[|old(s.jobs)|], item, stage, agent)
  {
    hide Spaced, Reserved, Reworked, Employed;
    var hotspot := (item / 5 + stage) % |o.places|;
    var target := PlaceAt(o, if item % 3 == 0 then hotspot else item * 2 + stage * 3 + branch);
    var failed := (item + stage + branch) % 11 == 0;
    var length := (5 + (item * 7 + stage * 3 + branch * 5) % 14) as real;
    var first := |s.jobs|;
    ghost var before := s.jobs;
    var waits := (item + branch + stage) % 5 == 0;
    end := s.Schedule(item, stage, Branch(branch), agent, target, ready + branch as real * 0.65, length, failed, waits,
                      None);
    assert s.jobs == before + [s.jobs[first]];
    if failed {
      ghost var a := s.jobs[first];
      end := s.Schedule(item, stage, Rework(branch), agent, PlaceAt(o, hotspot + 1), end + 1.6, (6 + branch) as real,
                        false, false, Some(first));
      assert s.jobs == before + [a] + [s.jobs[first + 1]];
      ReworkedTwo(before, a, s.jobs[first + 1]);
    } else {
      ReworkedOne(before, s.jobs[first]);
    }
  }

  /** Every worker's branch; done when the last of them is. */
  method RunBranches(s: Scheduler, o: Organization, item: nat, stage: nat, workers: seq<Id>, ready: real)
    returns (latest: real)
    requires Staffed(o) && Good(s, o) && forall w :: w in workers ==> Employed(o, w)
    modifies s
    ensures Good(s, o) && ready <= latest && Grown(old(s.jobs), s.jobs, item, stage * 3 + 1, ready, latest)
    ensures forall b :: 0 <= b < |workers| ==> Attended(s.jobs, item, stage, workers[b])
  {
    hide Good, Grown;
    latest := ready;
    GrownNothing(s.jobs, item, stage * 3 + 1, ready);
    for b := 0 to |workers|
      invariant Good(s, o) && ready <= latest && Grown(old(s.jobs), s.jobs, item, stage * 3 + 1, ready, latest)
      invariant |old(s.jobs)| <= |s.jobs| && forall k :: 0 <= k < b ==> Attended(s.jobs, item, stage, workers[k])
    {
      ghost var before := s.jobs;
      var end := RunBranch(s, o, item, stage, b, workers[b], ready);
      GrownPrefix(before, s.jobs, item, stage * 3 + 1, ready, end);
      var later := Later(latest, end);
      GrownEnds(before, s.jobs, item, stage * 3 + 1, ready, end, later);
      GrownTwice(old(s.jobs), before, s.jobs, item, stage * 3 + 1, ready, latest, later);
      forall k | 0 <= k < b + 1
        ensures Attended(s.jobs, item, stage, workers[k])
      {
        if k < b {
          StillAttended(before, s.jobs, item, stage, workers[k]);
        } else {
          assert IsBranch(s.jobs[|before|], item, stage, workers[k]);
        }
      }
      latest := later;
    }
  }

  predicate IsBranch(j: Job, item: nat, stage: nat, agent: Id) {
    j.item == item && j.stage == stage && j.agent == agent && j.phase.Branch?
  }

  predicate IsHandoff(j: Job, item: nat, stage: nat, owner: Id, lead: Id) {
    j.item == item && j.stage == stage && j.agent == owner && j.target == Peer(lead) && j.phase.Handoff?
  }

  predicate IsGate(j: Job, item: nat, stage: nat, lead: Id) {
    j.item == item && j.stage == stage && j.agent == lead && j.waits && j.phase.Gate?
  }

  ghost predicate Attended(jobs: seq<Job>, item: nat, stage: nat, agent: Id) {
    exists k :: 0 <= k < |jobs| && IsBranch(jobs[k], item, stage, agent)
  }

  ghost predicate HandedOff(jobs: seq<Job>, item: nat, stage: nat, owner: Id, lead: Id) {
    exists k :: 0 <= k < |jobs| && IsHandoff(jobs[k], item, stage, owner, lead)
  }

  ghost predicate Approved(jobs: seq<Job>, item: nat, stage: nat, lead: Id) {
    exists k :: 0 <= k < |jobs| && IsGate(jobs[k], item, stage, lead)
  }

  lemma {:induction false} StillAttended(a: seq<Job>, b: seq<Job>, item: nat, stage: nat, agent: Id)
    requires Attended(a, item, stage, agent) && a <= b
    ensures Attended(b, item, stage, agent)
  {
    var k :| 0 <= k < |a| && IsBranch(a[k], item, stage, agent);
    assert b[k] == a[k];
  }

  function LeadOf(o: Organization, item: nat, stage: nat): Id
    requires Staffed(o)
  {
    Pick(o, item + stage, item + stage * 2)
  }

  function OwnerOf(o: Organization, item: nat, stage: nat): Id
    requires Staffed(o)
  {
    if stage == 0 then Pick(o, item, item) else LeadOf(o, item, stage - 1)
  }

  /**
   A stage's work is all there: a handoff if the lead changes, a branch for everyone picked, the gate in the third
   stage.
   */
  ghost predicate StageDone(o: Organization, jobs: seq<Job>, item: nat, stage: nat)
    requires Staffed(o)
  {
    && (OwnerOf(o, item, stage) != LeadOf(o, item, stage) ==>
        HandedOff(jobs, item, stage, OwnerOf(o, item, stage), LeadOf(o, item, stage)))
    && (forall b :: 0 <= b < 2 + (item + stage) % 4 ==> Attended(jobs, item, stage, WorkerAt(o, item, stage, b)))
    && (stage == 2 ==> Approved(jobs, item, stage, LeadOf(o, item, stage)))
  }

  lemma {:induction false} StillDone(o: Organization, a: seq<Job>, b: seq<Job>, item: nat, stage: nat)
    requires Staffed(o) && StageDone(o, a, item, stage) && a <= b
    ensures StageDone(o, b, item, stage)
  {
    hide Pick;
    forall k | 0 <= k < |a|
      ensures b[k] == a[k]
    {
    }
    forall n | 0 <= n < 2 + (item + stage) % 4
      ensures Attended(b, item, stage, WorkerAt(o, item, stage, n))
    {
      StillAttended(a, b, item, stage, WorkerAt(o, item, stage, n));
    }
  }

  lemma {:induction false} GrownNothing(jobs: seq<Job>, item: nat, rank: nat, from: real)
    ensures Grown(jobs, jobs, item, rank, from, from)
  {
  }

  lemma {:induction false} GrownPrefix(a: seq<Job>, b: seq<Job>, item: nat, rank: nat, from: real, to: real)
    requires Grown(a, b, item, rank, from, to)
    ensures a <= b
  {
  }

  lemma {:induction false} GrownEnds(a: seq<Job>, b: seq<Job>, item: nat, rank: nat, from: real, to: real, later: real)
    requires Grown(a, b, item, rank, from, to) && to <= later
    ensures Grown(a, b, item, rank, from, later)
  {
    forall k | |a| <= k < |b|
      ensures InPhase(b[k], item, rank, from, later)
    {
      assert InPhase(b[k], item, rank, from, to);
    }
  }

  /** One single interaction as a phase of its own. */
  method RunOne(s: Scheduler, o: Organization, item: nat, stage: nat, phase: Phase, agent: Id, target: Target,
                earliest: real, length: real, waits: bool)
    returns (end: real)
    requires Good(s, o) && Employed(o, agent) && Known(o, target) && length > 0.0
             && (target.Peer? ==> target.id != agent)
    modifies s
    ensures Good(s, o) && earliest < end
    ensures Grown(old(s.jobs), s.jobs, item, PhaseRank(stage, phase), earliest, end) && |s.jobs| == |old(s.jobs)| + 1
    ensures var j := s.jobs[|old(s.jobs)|];
            j == Job(item, stage, phase, agent, target, j.start, end, false, waits, None)
  {
    hide Spaced, Reserved, Reworked, Employed;
    ghost var before := s.jobs;
    end := s.Schedule(item, stage, phase, agent, target, earliest, length, false, waits, None);
    assert s.jobs == before + [s.jobs[|before|]];
    ReworkedOne(before, s.jobs[|before|]);
  }

  /** What holds between two phases of a workstream. */
  ghost predicate Between(s: Scheduler, o: Organization, item: nat, rank: nat, ready: real)
    reads s
  {
    Good(s, o) && Ordered(s.jobs) && Upto(s.jobs, item, rank, ready)
  }

  lemma {:induction false} NextPhase(a: seq<Job>, b: seq<Job>, item: nat, rank: nat, ready: real, from: real, to: real)
    requires Ordered(a) && Upto(a, item, rank, ready) && ready <= from <= to && Grown(a, b, item, rank, from, to)
    ensures Ordered(b) && Upto(b, item, rank + 1, to)
  {
    hide Ordered, Upto, Grown;
    UptoLater(a, item, rank, ready, rank, from);
    PhaseAdded(a, b, item, rank, from, to);
  }

  /** One stage: hand off to the stage's lead, run the branches, and in the third stage wait at the approval gate. */
  method RunStage(s: Scheduler, o: Organization, item: nat, stage: nat, owner: Id, ready: real)
    returns (lead: Id, done: real)
    requires Staffed(o) && Between(s, o, item, stage * 3, ready) && owner == OwnerOf(o, item, stage)
    modifies s
    ensures Between(s, o, item, (stage + 1) * 3, done) && ready <= done && old(s.jobs) <= s.jobs
    ensures lead == LeadOf(o, item, stage) && StageDone(o, s.jobs, item, stage)
  {
    hide Good, Ordered, Upto, Grown, Attended, WorkerAt, Pick, OwnerOf, Staffed, Employed;
    LeadsEmployed(o, item, stage);
    lead := LeadOf(o, item, stage);
    done := ready;
    ghost var start := s.jobs;
    if lead != owner {
      done := RunOne(s, o, item, stage, Handoff, owner, Peer(lead), ready + 0.8, 2.5 + (item % 3) as real, false);
      NextPhase(start, s.jobs, item, stage * 3, ready, ready + 0.8, done);
      GrownPrefix(start, s.jobs, item, stage * 3, ready + 0.8, done);
      assert IsHandoff(s.jobs[|start|], item, stage, owner, lead);
    } else {
      UptoLater(s.jobs, item, stage * 3, ready, stage * 3 + 1, ready);
    }
    var workers := Workers(o, item, stage);
    ghost var handed := s.jobs;
    var branched := RunBranches(s, o, item, stage, workers, done);
    NextPhase(handed, s.jobs, item, stage * 3 + 1, done, done, branched);
    GrownPrefix(handed, s.jobs, item, stage * 3 + 1, done, branched);
    done := branched;
    ghost var worked := s.jobs;
    assert lead != owner ==> IsHandoff(worked[|start|], item, stage, owner, lead);
    AllAttend(o, worked, item, stage, workers);
    if stage == 2 {
      done := RunGate(s, o, item, lead, branched);
    } else {
      UptoLater(s.jobs, item, stage * 3 + 2, branched, stage * 3 + 3, branched);
    }
    StillThere(o, start, worked, s.jobs, item, stage, owner, lead);
  }

  lemma {:induction false} LeadsEmployed(o: Organization, item: nat, stage: nat)
    requires Staffed(o)
    ensures Employed(o, LeadOf(o, item, stage)) && Employed(o, OwnerOf(o, item, stage))
  {
    PickEmployed(o, item + stage, item + stage * 2);
    if stage > 0 {
      PickEmployed(o, item + stage - 1, item + (stage - 1) * 2);
    } else {
      PickEmployed(o, item, item);
    }
  }

  method RunGate(s: Scheduler, o: Organization, item: nat, lead: Id, ready: real) returns (done: real)
    requires Staffed(o) && Between(s, o, item, 8, ready) && Employed(o, lead)
    modifies s
    ensures Between(s, o, item, 9, done) && ready <= done && old(s.jobs) <= s.jobs && Approved(s.jobs, item, 2, lead)
  {
    hide Good, Ordered, Upto, Grown;
    ghost var worked := s.jobs;
    done := RunOne(s, o, item, 2, Gate, lead, PlaceAt(o, item + 2), ready + 0.5, (9 + item % 6) as real, true);
    NextPhase(worked, s.jobs, item, 8, ready, ready + 0.5, done);
    GrownPrefix(worked, s.jobs, item, 8, ready + 0.5, done);
    assert IsGate(s.jobs[|worked|], item, 2, lead);
  }

  lemma {:induction false} AllAttend(o: Organization, jobs: seq<Job>, item: nat, stage: nat, workers: seq<Id>)
    requires Staffed(o) && forall b :: 0 <= b < |workers| ==> Attended(jobs, item, stage, workers[b])
    requires forall b :: 0 <= b < 2 + (item + stage) % 4 ==> WorkerAt(o, item, stage, b) in workers
    ensures forall b :: 0 <= b < 2 + (item + stage) % 4 ==> Attended(jobs, item, stage, WorkerAt(o, item, stage, b))
  {
    hide Attended, WorkerAt;
  }

  lemma {:induction false} StillThere(o: Organization, start: seq<Job>, worked: seq<Job>, jobs: seq<Job>, item: nat,
                                      stage: nat, owner: Id, lead: Id)
    requires Staffed(o) && owner == OwnerOf(o, item, stage) && lead == LeadOf(o, item, stage) && worked <= jobs
             && |start| <= |worked|
    requires lead != owner ==> |start| < |worked| && IsHandoff(worked[|start|], item, stage, owner, lead)
    requires forall b :: 0 <= b < 2 + (item + stage) % 4 ==> Attended(worked, item, stage, WorkerAt(o, item, stage, b))
    requires stage == 2 ==> Approved(jobs, item, stage, lead)
    ensures StageDone(o, jobs, item, stage)
  {
    hide Pick, WorkerAt, Attended;
    if lead != owner {
      assert jobs[|start|] == worked[|start|];
    }
    forall b | 0 <= b < 2 + (item + stage) % 4
      ensures Attended(jobs, item, stage, WorkerAt(o, item, stage, b))
    {
      StillAttended(worked, jobs, item, stage, WorkerAt(o, item, stage, b));
    }
  }

  ghost predicate ItemDone(o: Organization, jobs: seq<Job>, item: nat, stages: nat)
    requires Staffed(o)
  {
    forall stage :: 0 <= stage < stages ==> StageDone(o, jobs, item, stage)
  }

  lemma {:induction false} StillItemDone(o: Organization, a: seq<Job>, b: seq<Job>, item: nat, stages: nat)
    requires Staffed(o) && ItemDone(o, a, item, stages) && a <= b
    ensures ItemDone(o, b, item, stages)
  {
    hide StageDone;
    forall stage | 0 <= stage < stages
      ensures StageDone(o, b, item, stage)
    {
      StillDone(o, a, b, item, stage);
    }
  }

  /** One workstream, stage after stage. */
  method RunItem(s: Scheduler, o: Organization, item: nat)
    requires Staffed(o) && Good(s, o) && Ordered(s.jobs) && forall i :: 0 <= i < |s.jobs| ==> s.jobs[i].item < item
    modifies s
    ensures Good(s, o) && Ordered(s.jobs) && forall i :: 0 <= i < |s.jobs| ==> s.jobs[i].item <= item
    ensures old(s.jobs) <= s.jobs && ItemDone(o, s.jobs, item, o.stages)
  {
    hide Good, Ordered, Staffed, Pick, StageDone;
    var ready := 0.2 + item as real * o.spacing + (item % 4) as real * 1.3;
    var owner := Pick(o, item, item);
    for stage := 0 to o.stages
      invariant Between(s, o, item, stage * 3, ready) && owner == OwnerOf(o, item, stage)
      invariant old(s.jobs) <= s.jobs && ItemDone(o, s.jobs, item, stage)
    {
      hide Upto;
      ghost var before := s.jobs;
      owner, ready := RunStage(s, o, item, stage, owner, ready);
      StillItemDone(o, before, s.jobs, item, stage);
    }
  }

  /** The whole trace: every workstream scheduled in turn. */
  method Plan(o: Organization) returns (jobs: seq<Job>)
    requires Staffed(o)
    ensures Spaced(jobs) && Ordered(jobs) && Reworked(jobs) && AllProper(jobs) && Manned(o, jobs)
    ensures forall item :: 0 <= item < o.count ==> ItemDone(o, jobs, item, o.stages)
  {
    var s := new Scheduler();
    for item := 0 to o.count
      invariant fresh(s) && Good(s, o) && Ordered(s.jobs) && forall i :: 0 <= i < |s.jobs| ==> s.jobs[i].item < item
      invariant forall k :: 0 <= k < item ==> ItemDone(o, s.jobs, k, o.stages)
    {
      hide Good, Ordered, ItemDone, Staffed;
      ghost var before := s.jobs;
      RunItem(s, o, item);
      forall k | 0 <= k < item
        ensures ItemDone(o, s.jobs, k, o.stages)
      {
        StillItemDone(o, before, s.jobs, k, o.stages);
      }
    }
    jobs := s.jobs;
  }
}
