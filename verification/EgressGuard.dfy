/** The egress guard: enrolments, retractions and authorizations interleaved at the locks they take. */
module EgressGuard {
  import opened Common

  const MAX_GENERATION := 0xFFFF_FFFF_FFFF_FFFF
  const MAX_LOG := 1000

  type Ip = nat

  datatype Rule = Rule(name: string, ip: Ip, port: Option<nat>, generation: nat)
  datatype Address = Address(ip: Ip, port: nat)
  datatype Entry = Entry(initiator: string, host: string, ip: Ip, port: nat, allowed: bool)

  // ---------------------------------------------------------------- the policy

  predicate Matches(r: Rule, ip: Ip, port: nat) { r.ip == ip && (r.port.None? || r.port.value == port) }

  predicate Enrolled(rules: seq<Rule>, ip: Ip, port: nat) {
    exists k :: 0 <= k < |rules| && Matches(rules[k], ip, port)
  }

  /** A request: what was resolved for it, and the inference port it read at the start. */
  datatype Request = Request(initiator: string, host: string, port: nat, resolved: seq<Address>, inferencePort: nat)

  /** Loopback is open on the inference port; every other address needs a rule. */
  predicate Allowed(loopback: Ip -> bool, rules: seq<Rule>, q: Request, a: Address) {
    (loopback(a.ip) && a.port == q.inferencePort) || Enrolled(rules, a.ip, q.port)
  }

  function Dropped(rules: seq<Rule>, keep: Rule -> bool): seq<Rule> {
    if rules == [] then []
    else Dropped(rules[..|rules| - 1], keep) + if keep(rules[|rules| - 1]) then [rules[|rules| - 1]] else []
  }

  function Last<T>(s: seq<T>, n: nat): seq<T> {
    if |s| <= n then s else s[|s| - n..]
  }

  function Next(g: nat): nat { if g < MAX_GENERATION then g + 1 else MAX_GENERATION }

  // ---------------------------------------------------------------- the guard itself

  /** The guard's locked fields; each method below runs under its lock. */
  class Guard {
    var next: nat
    var allow: seq<Rule>
    var log: seq<Entry>
    var inferencePort: nat

    constructor ()
      ensures next == 1 && allow == [] && log == [] && inferencePort == 11434
    {
      next, allow, log, inferencePort := 1, [], [], 11434;
    }

    /** First locked step of enrolling: take a generation. */
    method TakeGeneration() returns (g: nat)
      modifies this`next
      ensures g == old(next) && next == Next(old(next))
    {
      g := next;
      next := if next < MAX_GENERATION then next + 1 else MAX_GENERATION;
    }

    /** Second locked step: add the rule. */
    method AddRule(r: Rule)
      modifies this`allow
      ensures allow == old(allow) + [r]
    {
      allow := allow + [r];
    }

    method RemoveLabel(name: string)
      modifies this`allow
      ensures allow == Dropped(old(allow), (r: Rule) => r.name != name)
    {
      var kept := [];
      for k := 0 to |allow|
        invariant kept == Dropped(allow[..k], (r: Rule) => r.name != name)
      {
        assert allow[..k + 1][..k] == allow[..k];
        if allow[k].name != name {
          kept := kept + [allow[k]];
        }
      }
      assert allow[..|allow|] == allow;
      allow := kept;
    }

    method Retract(g: nat)
      modifies this`allow
      ensures allow == Dropped(old(allow), (r: Rule) => r.generation != g)
    {
      var kept := [];
      for k := 0 to |allow|
        invariant kept == Dropped(allow[..k], (r: Rule) => r.generation != g)
      {
        assert allow[..k + 1][..k] == allow[..k];
        if allow[k].generation != g {
          kept := kept + [allow[k]];
        }
      }
      assert allow[..|allow|] == allow;
      allow := kept;
    }

    /** The check of one resolved address, under the rules as they are now. */
    method Check(loopback: Ip -> bool, q: Request, a: Address) returns (ok: bool)
      ensures ok <==> Allowed(loopback, allow, q, a)
    {
      if loopback(a.ip) && a.port == q.inferencePort {
        return true;
      }
      for k := 0 to |allow|
        invariant forall j :: 0 <= j < k ==> !Matches(allow[j], a.ip, q.port)
      {
        if Matches(allow[k], a.ip, q.port) {
          return true;
        }
      }
      return false;
    }

    method Record(e: Entry)
      modifies this`log
      ensures log == Logged(old(log), e)
    {
      if |log| >= MAX_LOG {
        log := log[1..];
      }
      log := log + [e];
    }

    /** Authorize a resolved request with nothing else running in between. */
    method Authorize(loopback: Ip -> bool, q: Request) returns (granted: Option<seq<Address>>)
      requires q.resolved != []
      modifies this`log
      ensures granted == Verdict(Passing(loopback, q, Throughout(allow, |q.resolved|), |q.resolved|))
      ensures log != [] && log == Logged(old(log), log[|log| - 1]) && log[|log| - 1].allowed == granted.Some?
    {
      var authorized := [];
      for k := 0 to |q.resolved|
        invariant log == old(log) && authorized == Passing(loopback, q, Throughout(allow, |q.resolved|), k)
      {
        var ok := Check(loopback, q, q.resolved[k]);
        if ok {
          authorized := authorized + [q.resolved[k]];
        }
      }
      var shown := if authorized != [] then authorized[0] else q.resolved[0];
      var e := Entry(q.initiator, q.host, shown.ip, q.port, authorized != []);
      Record(e);
      granted := if authorized != [] then Some(authorized) else None;
    }
  }

  /** The same rules at every check. */
  function Throughout(rules: seq<Rule>, n: nat): (rulesAt: seq<seq<Rule>>)
    ensures |rulesAt| == n && forall k :: 0 <= k < n ==> rulesAt[k] == rules
  {
    seq(n, _ => rules)
  }

  function Logged(log: seq<Entry>, e: Entry): seq<Entry> {
    if |log| >= MAX_LOG then log[1..] + [e] else log + [e]
  }

  function Verdict(authorized: seq<Address>): Option<seq<Address>> {
    if authorized == [] then None else Some(authorized)
  }

  /** The first `n` resolved addresses that pass, in order, each under the rules it was checked with. */
  function Passing(loopback: Ip -> bool, q: Request, rulesAt: seq<seq<Rule>>, n: nat): seq<Address>
    requires n <= |q.resolved| && n <= |rulesAt|
  {
    if n == 0 then []
    else Passing(loopback, q, rulesAt, n - 1) +
         if Allowed(loopback, rulesAt[n - 1], q, q.resolved[n - 1]) then [q.resolved[n - 1]] else []
  }

  /** An address is granted exactly if it was resolved and allowed when it was checked. */
  lemma {:induction false} GrantedIffAllowed(loopback: Ip -> bool, q: Request, rulesAt: seq<seq<Rule>>, n: nat,
                                             a: Address)
    requires n <= |q.resolved| && n <= |rulesAt|
    ensures a in Passing(loopback, q, rulesAt, n) <==>
            exists k :: 0 <= k < n && q.resolved[k] == a && Allowed(loopback, rulesAt[k], q, a)
  {
    hide Allowed;
    if n > 0 {
      GrantedIffAllowed(loopback, q, rulesAt, n - 1, a);
    }
  }

  ghost predicate Rising(at: seq<nat>) {
    forall i, j :: 0 <= i < j < |at| ==> at[i] < at[j]
  }

  /** The places hold these addresses and lie below `n`. */
  ghost predicate PlacesOf(q: Request, n: nat, granted: seq<Address>, at: seq<nat>)
    requires n <= |q.resolved|
  {
    |at| == |granted| && forall i :: 0 <= i < |at| ==> at[i] < n && granted[i] == q.resolved[at[i]]
  }

  /** Where the granted addresses stand among the resolved ones: rising, and exactly at those allowed when checked. */
  ghost predicate Picks(loopback: Ip -> bool, q: Request, rulesAt: seq<seq<Rule>>, n: nat, granted: seq<Address>,
                        at: seq<nat>)
    requires n <= |q.resolved| && n <= |rulesAt|
  {
    Rising(at) && PlacesOf(q, n, granted, at) && MarksAllowed(loopback, q, rulesAt, n, at)
  }

  ghost predicate MarksAllowed(loopback: Ip -> bool, q: Request, rulesAt: seq<seq<Rule>>, n: nat, at: seq<nat>)
    requires n <= |q.resolved| && n <= |rulesAt|
  {
    forall k :: 0 <= k < n ==> (k in at <==> Allowed(loopback, rulesAt[k], q, q.resolved[k]))
  }

  /** The granted addresses come in the order in which they were resolved, each as often as it was. */
  lemma {:induction false} GrantedInOrder(loopback: Ip -> bool, q: Request, rulesAt: seq<seq<Rule>>, n: nat)
    returns (at: seq<nat>)
    requires n <= |q.resolved| && n <= |rulesAt|
    ensures Picks(loopback, q, rulesAt, n, Passing(loopback, q, rulesAt, n), at)
  {
    hide Allowed, Passing, Picks;
    if n == 0 {
      at := [];
      PicksNone(loopback, q, rulesAt);
    } else {
      var before := GrantedInOrder(loopback, q, rulesAt, n - 1);
      var granted := Passing(loopback, q, rulesAt, n - 1);
      PassingOn(loopback, q, rulesAt, n - 1);
      if Allowed(loopback, rulesAt[n - 1], q, q.resolved[n - 1]) {
        PickedOn(loopback, q, rulesAt, n - 1, granted, before);
        at := before + [n - 1];
      } else {
        SkippedOn(loopback, q, rulesAt, n - 1, granted, before);
        at := before;
      }
    }
  }

  lemma {:induction false} PicksNone(loopback: Ip -> bool, q: Request, rulesAt: seq<seq<Rule>>)
    ensures Picks(loopback, q, rulesAt, 0, Passing(loopback, q, rulesAt, 0), [])
  {
  }

  lemma {:induction false} PickedOn(loopback: Ip -> bool, q: Request, rulesAt: seq<seq<Rule>>, n: nat,
                                    granted: seq<Address>, at: seq<nat>)
    requires n < |q.resolved| && n < |rulesAt| && Picks(loopback, q, rulesAt, n, granted, at)
    requires Allowed(loopback, rulesAt[n], q, q.resolved[n])
    ensures Picks(loopback, q, rulesAt, n + 1, granted + [q.resolved[n]], at + [n])
  {
    RisingOn(q, n, granted, at);
    PlacesOn(q, n, granted, at);
    MarksOn(loopback, q, rulesAt, n, at);
    hide Allowed, Rising, PlacesOf, MarksAllowed;
  }

  lemma {:induction false} SkippedOn(loopback: Ip -> bool, q: Request, rulesAt: seq<seq<Rule>>, n: nat,
                                     granted: seq<Address>, at: seq<nat>)
    requires n < |q.resolved| && n < |rulesAt| && Picks(loopback, q, rulesAt, n, granted, at)
    requires !Allowed(loopback, rulesAt[n], q, q.resolved[n])
    ensures Picks(loopback, q, rulesAt, n + 1, granted, at)
  {
    RisingOn(q, n, granted, at);
    PlacesOn(q, n, granted, at);
    hide Allowed, Rising, PlacesOf;
  }

  lemma {:induction false} PassingOn(loopback: Ip -> bool, q: Request, rulesAt: seq<seq<Rule>>, n: nat)
    requires n < |q.resolved| && n < |rulesAt|
    ensures Passing(loopback, q, rulesAt, n + 1)
            == var before := Passing(loopback, q, rulesAt, n);
               if Allowed(loopback, rulesAt[n], q, q.resolved[n]) then before + [q.resolved[n]] else before
  {
    hide Allowed;
  }

  lemma {:induction false} MarksOn(loopback: Ip -> bool, q: Request, rulesAt: seq<seq<Rule>>, n: nat, at: seq<nat>)
    requires n < |q.resolved| && n < |rulesAt| && MarksAllowed(loopback, q, rulesAt, n, at)
    requires Allowed(loopback, rulesAt[n], q, q.resolved[n])
    ensures MarksAllowed(loopback, q, rulesAt, n + 1, at + [n])
  {
    hide Allowed;
    assert forall k :: k in at + [n] <==> k in at || k == n;
  }

  lemma {:induction false} RisingOn(q: Request, n: nat, granted: seq<Address>, at: seq<nat>)
    requires n <= |q.resolved| && Rising(at) && PlacesOf(q, n, granted, at)
    ensures Rising(at + [n]) && n !in at
  {
  }

  lemma {:induction false} PlacesOn(q: Request, n: nat, granted: seq<Address>, at: seq<nat>)
    requires n < |q.resolved| && PlacesOf(q, n, granted, at)
    ensures PlacesOf(q, n + 1, granted, at) && PlacesOf(q, n + 1, granted + [q.resolved[n]], at + [n])
  {
  }

  // ---------------------------------------------------------------- interleavings

  datatype Enrolment = Enrolment(name: string, ip: Ip, port: Option<nat>, generation: nat)

  /** An authorization under way: the addresses that passed so far, and the rules each check saw. */
  datatype Pending = Pending(request: Request, authorized: seq<Address>, rulesAt: seq<seq<Rule>>)

  /** An authorization that has returned: what it was asked, the rules each check saw, and what it answered. */
  datatype Answer = Answer(request: Request, rulesAt: seq<seq<Rule>>, granted: Option<seq<Address>>)

  /** The guard, the calls under way, and what has happened: generations issued, decisions recorded, answers given. */
  datatype State = State(next: nat, rules: seq<Rule>, log: seq<Entry>, inferencePort: nat,
                         enrolling: map<Id, Enrolment>, authorizing: map<Id, Pending>,
                         issued: nat, recorded: seq<Entry>, answers: seq<Answer>)

  const START := State(1, [], [], 11434, map[], map[], 0, [], [])

  datatype Action =
    | TakeGeneration(call: Id, name: string, ip: Ip, only: Option<nat>)
    | AddRule(call: Id)
    | RemoveLabel(name: string)
    | Retract(generation: nat)
    | SetInferencePort(port: nat)
    | BeginAuthorize(call: Id, initiator: string, host: string, port: nat, resolved: seq<Address>)
    | CheckNext(call: Id)
    | Decide(call: Id)

  predicate Enabled(s: State, a: Action) {
    match a
    case TakeGeneration(call, _, _, _) => call !in s.enrolling
    case AddRule(call) => call in s.enrolling
    case BeginAuthorize(call, _, _, _, resolved) => call !in s.authorizing && resolved != []
    case CheckNext(call) =>
      call in s.authorizing && |s.authorizing[call].rulesAt| < |s.authorizing[call].request.resolved|
    case Decide(call) => call in s.authorizing
        && |s.authorizing[call].rulesAt| == |s.authorizing[call].request.resolved| > 0
    case _ => true
  }

  function Apply(loopback: Ip -> bool, s: State, a: Action): State
    requires Enabled(s, a)
  {
    match a
    case TakeGeneration(call, name, ip, port) =>
      s.(next := Next(s.next), issued := s.issued + 1,
         enrolling := s.enrolling[call := Enrolment(name, ip, port, s.next)])
    case AddRule(call) =>
      var e := s.enrolling[call];
      s.(rules := s.rules + [Rule(e.name, e.ip, e.port, e.generation)], enrolling := s.enrolling - {call})
    case RemoveLabel(name) => s.(rules := Dropped(s.rules, (r: Rule) => r.name != name))
    case Retract(g) => s.(rules := Dropped(s.rules, (r: Rule) => r.generation != g))
    case SetInferencePort(port) => s.(inferencePort := port)
    case BeginAuthorize(call, initiator, host, port, resolved) =>
      s.(authorizing := s.authorizing[call :=
                                      Pending(Request(initiator, host, port, resolved, s.inferencePort), [], [])])
    case CheckNext(call) =>
      var p := s.authorizing[call];
      var a := p.request.resolved[|p.rulesAt|];
      var more := if Allowed(loopback, s.rules, p.request, a) then [a] else [];
      s.(authorizing := s.authorizing[call := p.(authorized := p.authorized + more, rulesAt := p.rulesAt + [s.rules])])
    case Decide(call) =>
      var p := s.authorizing[call];
      var shown := if p.authorized != [] then p.authorized[0] else p.request.resolved[0];
      var e := Entry(p.request.initiator, p.request.host, shown.ip, p.request.port, p.authorized != []);
      s.(log := Logged(s.log, e), recorded := s.recorded + [e], authorizing := s.authorizing - {call},
         answers := s.answers + [Answer(p.request, p.rulesAt, Verdict(p.authorized))])
  }

  // ---------------------------------------------------------------- what every interleaving keeps

  /** Generations in use are ones that were issued. */
  ghost predicate Issued(s: State) {
    && s.next == (if s.issued < MAX_GENERATION then s.issued + 1 else MAX_GENERATION)
    && (forall k :: 0 <= k < |s.rules| ==> 1 <= s.rules[k].generation <= s.issued)
    && (forall c :: c in s.enrolling ==> 1 <= s.enrolling[c].generation <= s.issued)
  }

  /** No generation is in use twice, among rules and calls about to add one. */
  ghost predicate Unique(s: State) {
    && (forall j, k :: 0 <= j < k < |s.rules| ==> s.rules[j].generation != s.rules[k].generation)
    && (forall k, c :: 0 <= k < |s.rules| && c in s.enrolling ==> s.rules[k].generation != s.enrolling[c].generation)
    && (forall c, d :: c in s.enrolling && d in s.enrolling && c != d ==>
          s.enrolling[c].generation != s.enrolling[d].generation)
  }

  /** Every authorization under way holds exactly the addresses that passed when they were checked. */
  ghost predicate Tracked(loopback: Ip -> bool, s: State) {
    forall c :: c in s.authorizing ==> Tracks(loopback, s.authorizing[c])
  }

  ghost predicate Tracks(loopback: Ip -> bool, p: Pending) {
    |p.rulesAt| <= |p.request.resolved| && p.authorized == Passing(loopback, p.request, p.rulesAt, |p.rulesAt|)
  }

  /**
   An answer grants exactly the addresses allowed at their own check, in order, and the decision logged for it says so.
   */
  ghost predicate AnswerFits(loopback: Ip -> bool, a: Answer, e: Entry) {
    && |a.rulesAt| == |a.request.resolved| > 0
    && a.granted == Verdict(Passing(loopback, a.request, a.rulesAt, |a.request.resolved|))
    && e.initiator == a.request.initiator && e.host == a.request.host && e.port == a.request.port
    && e.allowed == a.granted.Some?
    && e.ip == (if a.granted.Some? then a.granted.value[0] else a.request.resolved[0]).ip
  }

  ghost predicate Answered(loopback: Ip -> bool, s: State) {
    |s.answers| == |s.recorded| && forall k :: 0 <= k < |s.answers| ==>
                                     AnswerFits(loopback, s.answers[k], s.recorded[k])
  }

  ghost predicate Inv(loopback: Ip -> bool, s: State) {
    && Issued(s) && (s.issued <= MAX_GENERATION ==> Unique(s))
    && Tracked(loopback, s) && s.log == Last(s.recorded, MAX_LOG) && Answered(loopback, s)
  }

  /** Dropping rules keeps the others, in their order. */
  lemma {:induction false} DroppedAre(rules: seq<Rule>, keep: Rule -> bool)
    ensures |Dropped(rules, keep)| <= |rules|
    ensures forall r :: r in Dropped(rules, keep) <==> r in rules && keep(r)
  {
    if rules != [] {
      DroppedAre(rules[..|rules| - 1], keep);
      assert rules == rules[..|rules| - 1] + [rules[|rules| - 1]];
    }
  }

  ghost predicate DistinctGenerations(rules: seq<Rule>) {
    forall j, k :: 0 <= j < k < |rules| ==> rules[j].generation != rules[k].generation
  }

  lemma {:induction false} DroppedDistinct(rules: seq<Rule>, keep: Rule -> bool)
    requires DistinctGenerations(rules)
    ensures DistinctGenerations(Dropped(rules, keep))
  {
    if rules != [] {
      var init, last := rules[..|rules| - 1], rules[|rules| - 1];
      DroppedDistinct(init, keep);
      DroppedAre(init, keep);
      forall k | 0 <= k < |Dropped(init, keep)|
        ensures Dropped(init, keep)[k].generation != last.generation
      {
        assert Dropped(init, keep)[k] in init;
      }
    }
  }

  lemma {:induction false} DropKeeps(loopback: Ip -> bool, s: State, keep: Rule -> bool)
    requires Inv(loopback, s)
    ensures Inv(loopback, s.(rules := Dropped(s.rules, keep)))
  {
    hide Tracked, Answered, Last, Dropped;
    var t := s.(rules := Dropped(s.rules, keep));
    DroppedAre(s.rules, keep);
    if s.issued <= MAX_GENERATION {
      DroppedDistinct(s.rules, keep);
    }
    forall k | 0 <= k < |t.rules|
      ensures 1 <= t.rules[k].generation <= t.issued
      ensures s.issued <= MAX_GENERATION ==> forall c :: c in t.enrolling ==>
                                               t.rules[k].generation != t.enrolling[c].generation
    {
      assert t.rules[k] in s.rules;
    }
    TrackedSame(loopback, s, t);
  }

  lemma {:induction false} TrackedSame(loopback: Ip -> bool, s: State, t: State)
    requires Tracked(loopback, s) && t.authorizing == s.authorizing
    requires Answered(loopback, s) && t.answers == s.answers && t.recorded == s.recorded
    ensures Tracked(loopback, t) && Answered(loopback, t)
  {
    hide AnswerFits;
  }

  lemma {:induction false} TakeKeeps(loopback: Ip -> bool, s: State, call: Id, name: string, ip: Ip, port: Option<nat>)
    requires Inv(loopback, s) && call !in s.enrolling
    ensures Inv(loopback, Apply(loopback, s, TakeGeneration(call, name, ip, port)))
  {
    hide Tracked, Answered, Last;
    TrackedSame(loopback, s, Apply(loopback, s, TakeGeneration(call, name, ip, port)));
  }

  lemma {:induction false} AddKeeps(loopback: Ip -> bool, s: State, call: Id)
    requires Inv(loopback, s) && call in s.enrolling
    ensures Inv(loopback, Apply(loopback, s, AddRule(call)))
  {
    hide Tracked, Answered, Last;
    TrackedSame(loopback, s, Apply(loopback, s, AddRule(call)));
  }

  lemma {:induction false} BeginKeeps(loopback: Ip -> bool, s: State, call: Id, initiator: string, host: string,
                                      port: nat, resolved: seq<Address>)
    requires Inv(loopback, s) && call !in s.authorizing && resolved != []
    ensures Inv(loopback, Apply(loopback, s, BeginAuthorize(call, initiator, host, port, resolved)))
  {
    hide Last, Issued, Unique, AnswerFits;
    var t := Apply(loopback, s, BeginAuthorize(call, initiator, host, port, resolved));
    SameIssue(s, t);
  }

  lemma {:induction false} SameIssue(s: State, t: State)
    requires t.next == s.next && t.issued == s.issued && t.rules == s.rules && t.enrolling == s.enrolling
    ensures Issued(s) ==> Issued(t)
    ensures Unique(s) ==> Unique(t)
  {
  }

  lemma {:induction false} CheckKeeps(loopback: Ip -> bool, s: State, call: Id)
    requires Inv(loopback, s) && Enabled(s, CheckNext(call))
    ensures Inv(loopback, Apply(loopback, s, CheckNext(call)))
  {
    hide Last, Issued, Unique, Allowed, AnswerFits;
    var t := Apply(loopback, s, CheckNext(call));
    SameIssue(s, t);
    var p, q := s.authorizing[call], t.authorizing[call];
    assert Tracks(loopback, p);
    PassingPrefix(loopback, p.request, p.rulesAt, q.rulesAt, |p.rulesAt|);
    forall c | c in t.authorizing
      ensures Tracks(loopback, t.authorizing[c])
    {
      assert c != call ==> Tracks(loopback, s.authorizing[c]);
    }
  }

  lemma {:induction false} PassingPrefix(loopback: Ip -> bool, q: Request, a: seq<seq<Rule>>, b: seq<seq<Rule>>, n: nat)
    requires n <= |q.resolved| && n <= |a| && a <= b
    ensures Passing(loopback, q, a, n) == Passing(loopback, q, b, n)
  {
    hide Allowed;
    if n > 0 {
      PassingPrefix(loopback, q, a, b, n - 1);
      assert a[n - 1] == b[n - 1];
    }
  }

  lemma {:induction false} DecideKeeps(loopback: Ip -> bool, s: State, call: Id)
    requires Inv(loopback, s) && Enabled(s, Decide(call))
    ensures Inv(loopback, Apply(loopback, s, Decide(call)))
  {
    hide Issued, Unique, Passing, AnswerFits;
    var t := Apply(loopback, s, Decide(call));
    SameIssue(s, t);
    DecisionFits(loopback, s, call);
    forall c | c in t.authorizing
      ensures Tracks(loopback, t.authorizing[c])
    {
      assert Tracks(loopback, s.authorizing[c]);
    }
  }

  lemma {:induction false} ApplyKeeps(loopback: Ip -> bool, s: State, a: Action)
    requires Inv(loopback, s) && Enabled(s, a)
    ensures Inv(loopback, Apply(loopback, s, a))
  {
    match a
    case TakeGeneration(call, name, ip, port) => TakeKeeps(loopback, s, call, name, ip, port);
    case AddRule(call) => AddKeeps(loopback, s, call);
    case RemoveLabel(name) => DropKeeps(loopback, s, (r: Rule) => r.name != name);
    case Retract(g) => DropKeeps(loopback, s, (r: Rule) => r.generation != g);
    case SetInferencePort(port) =>
      TrackedSame(loopback, s, Apply(loopback, s, a));
      SameIssue(s, Apply(loopback, s, a));
    case BeginAuthorize(call, initiator, host, port, resolved) =>
      BeginKeeps(loopback, s, call, initiator, host, port, resolved);
    case CheckNext(call) => CheckKeeps(loopback, s, call);
    case Decide(call) => DecideKeeps(loopback, s, call);
  }

  /** A run: each state follows from the one before by one locked step of some call. */
  ghost predicate IsRun(loopback: Ip -> bool, states: seq<State>, actions: seq<Action>) {
    && |states| == |actions| + 1 && states[0] == START
    && forall k :: 0 <= k < |actions| ==>
         Enabled(states[k], actions[k]) && states[k + 1] == Apply(loopback, states[k], actions[k])
  }

  /** Every interleaving keeps the guard's invariant. */
  lemma {:induction false} EveryRunKeeps(loopback: Ip -> bool, states: seq<State>, actions: seq<Action>, n: nat)
    requires IsRun(loopback, states, actions) && n < |states|
    ensures Inv(loopback, states[n])
  {
    hide Apply, Enabled;
    if n > 0 {
      EveryRunKeeps(loopback, states, actions, n - 1);
      assert states[n - 1 + 1] == Apply(loopback, states[n - 1], actions[n - 1]);
      ApplyKeeps(loopback, states[n - 1], actions[n - 1]);
    }
  }

  // ---------------------------------------------------------------- consequences

  /**
   In every run within the generations there are, retracting removes at most the one rule that carries the generation.
   */
  lemma {:induction false} RetractRemovesOne(loopback: Ip -> bool, s: State, g: nat)
    requires Inv(loopback, s) && s.issued <= MAX_GENERATION
    ensures Dropped(s.rules, (r: Rule) => r.generation != g) == s.rules ||
            exists k :: 0 <= k < |s.rules| && s.rules[k].generation == g
                        && Dropped(s.rules, (r: Rule) => r.generation != g) == s.rules[..k] + s.rules[k + 1..]
  {
    var keep := (r: Rule) => r.generation != g;
    if k :| 0 <= k < |s.rules| && s.rules[k].generation == g {
      OnlyOneDropped(s.rules, keep, k);
    } else {
      NoneDropped(s.rules, keep);
    }
  }

  lemma {:induction false} NoneDropped(rules: seq<Rule>, keep: Rule -> bool)
    requires forall k :: 0 <= k < |rules| ==> keep(rules[k])
    ensures Dropped(rules, keep) == rules
  {
    if rules != [] {
      NoneDropped(rules[..|rules| - 1], keep);
    }
  }

  lemma {:induction false} OnlyOneDropped(rules: seq<Rule>, keep: Rule -> bool, k: nat)
    requires k < |rules| && !keep(rules[k]) && forall j :: 0 <= j < |rules| && j != k ==> keep(rules[j])
    ensures Dropped(rules, keep) == rules[..k] + rules[k + 1..]
  {
    var n := |rules| - 1;
    if k == n {
      NoneDropped(rules[..n], keep);
    } else {
      OnlyOneDropped(rules[..n], keep, k);
      assert rules[k + 1..] == rules[..n][k + 1..] + [rules[n]];
    }
  }

  lemma {:induction false} IssuedGrows(loopback: Ip -> bool, states: seq<State>, actions: seq<Action>, i: nat, j: nat)
    requires IsRun(loopback, states, actions) && i < j < |states| && actions[i].TakeGeneration?
    ensures states[i].issued < states[j].issued
    decreases j
  {
    assert states[j - 1 + 1] == Apply(loopback, states[j - 1], actions[j - 1]);
    if i < j - 1 {
      IssuedGrows(loopback, states, actions, i, j - 1);
    }
  }

  /** Two enrolments of one run get different generations exactly if the earlier one left the counter room to grow. */
  lemma {:induction false} GenerationsDiffer(loopback: Ip -> bool, states: seq<State>, actions: seq<Action>, i: nat,
                                             j: nat)
    requires IsRun(loopback, states, actions) && i < j < |actions| && actions[i].TakeGeneration?
             && actions[j].TakeGeneration?
    ensures states[i].next != states[j].next <==> states[i].issued < MAX_GENERATION - 1
    ensures states[j].issued < MAX_GENERATION ==> states[i].next < states[j].next
  {
    hide Apply, Enabled, Tracked, Unique, Last;
    EveryRunKeeps(loopback, states, actions, i);
    EveryRunKeeps(loopback, states, actions, j);
    IssuedGrows(loopback, states, actions, i, j);
  }

  lemma {:induction false} DecisionFits(loopback: Ip -> bool, s: State, call: Id)
    requires Tracked(loopback, s) && Enabled(s, Decide(call))
    ensures var t := Apply(loopback, s, Decide(call));
            && |t.answers| == |s.answers| + 1 && |t.recorded| == |s.recorded| + 1
            && AnswerFits(loopback, t.answers[|s.answers|], t.recorded[|s.recorded|])
  {
    hide Passing;
    assert Tracks(loopback, s.authorizing[call]);
  }

  // ---------------------------------------------------------------- an authorization over the run

  predicate Concerns(a: Action, call: Id) {
    (a.BeginAuthorize? || a.CheckNext? || a.Decide?) && a.call == call
  }

  /** Step `b` begins the call with this request, which takes the inference port of that moment. */
  ghost predicate Begins(states: seq<State>, actions: seq<Action>, call: Id, q: Request, b: nat) {
    && b < |actions| && b < |states| && actions[b].BeginAuthorize? && actions[b].call == call
    && q == Request(actions[b].initiator, actions[b].host, actions[b].port, actions[b].resolved,
                    states[b].inferencePort)
  }

  /** All steps of one call from its beginning up to step `n`: the beginning and then checks, in order. */
  ghost predicate Steps(states: seq<State>, actions: seq<Action>, call: Id, q: Request, at: seq<nat>, n: nat) {
    && |at| > 0 && n <= |actions| && n <= |states| && Begins(states, actions, call, q, at[0])
    && (forall i :: 0 <= i < |at| ==> at[i] < n)
    && (forall i, j :: 0 <= i < j < |at| ==> at[i] < at[j])
    && (forall i :: 1 <= i < |at| ==> actions[at[i]] == CheckNext(call))
    && (forall m :: at[0] < m < n && Concerns(actions[m], call) ==> m in at)
  }

  /** The rules of the guard at each of the checks. */
  function RulesSeen(states: seq<State>, at: seq<nat>): seq<seq<Rule>>
    requires forall i :: 0 <= i < |at| ==> at[i] < |states|
  {
    if |at| <= 1 then [] else RulesSeen(states, at[..|at| - 1]) + [states[at[|at| - 1]].rules]
  }

  lemma {:induction false} RulesSeenAt(states: seq<State>, at: seq<nat>)
    requires |at| > 0 && forall i :: 0 <= i < |at| ==> at[i] < |states|
    ensures |RulesSeen(states, at)| == |at| - 1
    ensures forall i :: 0 <= i < |at| - 1 ==> RulesSeen(states, at)[i] == states[at[i + 1]].rules
  {
    if |at| > 1 {
      RulesSeenAt(states, at[..|at| - 1]);
    }
  }

  lemma {:induction false} StepOf(loopback: Ip -> bool, states: seq<State>, actions: seq<Action>, k: nat)
    requires IsRun(loopback, states, actions) && k < |states| - 1
    ensures k < |actions| && Enabled(states[k], actions[k]) && states[k + 1] == Apply(loopback, states[k], actions[k])
  {
    hide Apply, Enabled;
  }

  /** One more step, of the same call or of none of its own. */
  lemma {:induction false} StepsOn(states: seq<State>, actions: seq<Action>, call: Id, q: Request, at: seq<nat>, n: nat)
    requires Steps(states, actions, call, q, at, n) && n < |actions| && n < |states|
    ensures !Concerns(actions[n], call) ==> Steps(states, actions, call, q, at, n + 1)
    ensures actions[n] == CheckNext(call) ==> Steps(states, actions, call, q, at + [n], n + 1)
  {
    hide Begins;
    if actions[n] == CheckNext(call) {
      var more := at + [n];
      assert more[0] == at[0] && more[|at|] == n;
      forall m | at[0] < m < n + 1 && Concerns(actions[m], call)
        ensures m in more
      {
        assert m < n ==> m in at;
      }
    }
  }

  /** What a step does to an authorization that is under way afterwards. */
  lemma {:induction false} PendingStep(loopback: Ip -> bool, s: State, a: Action, call: Id)
    requires Enabled(s, a) && call in Apply(loopback, s, a).authorizing
    ensures var p := Apply(loopback, s, a).authorizing[call];
            if a.BeginAuthorize? && a.call == call then
              p.rulesAt == [] && p.request == Request(a.initiator, a.host, a.port, a.resolved, s.inferencePort)
            else
              && call in s.authorizing && p.request == s.authorizing[call].request
              && (a == CheckNext(call) ==> p.rulesAt == s.authorizing[call].rulesAt + [s.rules])
              && (a != CheckNext(call) ==> p.rulesAt == s.authorizing[call].rulesAt && !Concerns(a, call))
  {
    hide Allowed, Dropped;
  }

  /** An authorization under way has checked its addresses against the rules of the guard at its own steps, in order. */
  lemma {:induction false} PendingSaw(loopback: Ip -> bool, states: seq<State>, actions: seq<Action>, n: nat, call: Id)
    returns (at: seq<nat>)
    requires IsRun(loopback, states, actions) && n < |states| && call in states[n].authorizing
    ensures Steps(states, actions, call, states[n].authorizing[call].request, at, n)
    ensures states[n].authorizing[call].rulesAt == RulesSeen(states, at)
  {
    hide Apply, Enabled, IsRun, Steps;
    RunStarts(loopback, states, actions);
    StepOf(loopback, states, actions, n - 1);
    var s, a := states[n - 1], actions[n - 1];
    PendingStep(loopback, s, a, call);
    if a.BeginAuthorize? && a.call == call {
      at := [n - 1];
      FirstStep(states, actions, call, states[n].authorizing[call].request, n - 1);
    } else {
      at := PendingSaw(loopback, states, actions, n - 1, call);
      StepsOn(states, actions, call, s.authorizing[call].request, at, n - 1);
      StepsBounded(states, actions, call, s.authorizing[call].request, at, n - 1);
      if a == CheckNext(call) {
        assert (at + [n - 1])[..|at|] == at;
        at := at + [n - 1];
      }
    }
  }

  lemma {:induction false} RunStarts(loopback: Ip -> bool, states: seq<State>, actions: seq<Action>)
    requires IsRun(loopback, states, actions)
    ensures |states| == |actions| + 1 && states[0] == START
  {
  }

  lemma {:induction false} FirstStep(states: seq<State>, actions: seq<Action>, call: Id, q: Request, b: nat)
    requires Begins(states, actions, call, q, b)
    ensures Steps(states, actions, call, q, [b], b + 1)
  {
  }

  lemma {:induction false} StepsBounded(states: seq<State>, actions: seq<Action>, call: Id, q: Request, at: seq<nat>,
                                        n: nat)
    requires Steps(states, actions, call, q, at, n)
    ensures |at| > 0 && forall i :: 0 <= i < |at| ==> at[i] < |states| && at[i] < n
  {
  }

  /**
   What an authorization answers in a run: the addresses allowed by the rules the guard had when each was checked, in
   order, a denial exactly if there was none, and a logged decision that says so.
   */
  lemma {:induction false} DecisionIsExact(loopback: Ip -> bool, states: seq<State>, actions: seq<Action>, n: nat)
    returns (at: seq<nat>)
    requires IsRun(loopback, states, actions) && n < |actions| && actions[n].Decide? && n + 1 < |states|
    ensures |states[n + 1].answers| == |states[n].answers| + 1 && |states[n + 1].recorded| == |states[n].recorded| + 1
    ensures var x := states[n + 1].answers[|states[n].answers|];
            && Steps(states, actions, actions[n].call, x.request, at, n) && |at| == |x.request.resolved| + 1
            && x.rulesAt == RulesSeen(states, at)
            && AnswerFits(loopback, x, states[n + 1].recorded[|states[n].recorded|])
  {
    hide IsRun, Steps, AnswerFits, RulesSeen;
    var call := actions[n].call;
    StepOf(loopback, states, actions, n);
    EveryRunKeeps(loopback, states, actions, n);
    DecisionFits(loopback, states[n], call);
    at := PendingSaw(loopback, states, actions, n, call);
    var p := states[n].authorizing[call];
    StepsBounded(states, actions, call, p.request, at, n);
    RulesSeenAt(states, at);
  }

  /** Step `d` decides the call that gave answer `k`, after the steps `at`. */
  ghost predicate AnsweredAt(states: seq<State>, actions: seq<Action>, x: Answer, k: nat, d: nat, at: seq<nat>) {
    && d < |actions| && d < |states| && actions[d].Decide? && |states[d].answers| == k
    && Steps(states, actions, actions[d].call, x.request, at, d) && |at| == |x.request.resolved| + 1
  }

  predicate Grants(x: Answer, a: Address) { x.granted.Some? && a in x.granted.value }

  /** Answers are kept, and each was given by one deciding step. */
  lemma {:induction false} AnswerGiven(loopback: Ip -> bool, states: seq<State>, actions: seq<Action>, n: nat, k: nat)
    returns (d: nat, at: seq<nat>)
    requires IsRun(loopback, states, actions) && n < |states| && k < |states[n].answers|
    ensures d < n && AnsweredAt(states, actions, states[n].answers[k], k, d, at)
    ensures (forall i :: 0 <= i < |at| ==> at[i] < |states|) && states[n].answers[k].rulesAt == RulesSeen(states, at)
  {
    hide IsRun, Steps, Apply, Enabled, AnswerFits, RulesSeen;
    RunStarts(loopback, states, actions);
    StepOf(loopback, states, actions, n - 1);
    AnswersKept(loopback, states[n - 1], actions[n - 1]);
    if k < |states[n - 1].answers| {
      d, at := AnswerGiven(loopback, states, actions, n - 1, k);
    } else {
      d := n - 1;
      at := DecisionIsExact(loopback, states, actions, n - 1);
      StepsBounded(states, actions, actions[d].call, states[n].answers[k].request, at, d);
    }
  }

  lemma {:induction false} AnswersKept(loopback: Ip -> bool, s: State, a: Action)
    requires Enabled(s, a)
    ensures s.answers <= Apply(loopback, s, a).answers
    ensures !a.Decide? ==> Apply(loopback, s, a).answers == s.answers
    ensures a.Decide? ==> |Apply(loopback, s, a).answers| == |s.answers| + 1
  {
  }

  /**
   In every run, an answer grants an address exactly if it was resolved for it and allowed by the rules the guard had at
   its check.
   */
  lemma {:induction false} EveryAnswerIsExact(loopback: Ip -> bool, states: seq<State>, actions: seq<Action>, n: nat,
                                              k: nat)
    returns (d: nat, at: seq<nat>)
    requires IsRun(loopback, states, actions) && n < |states| && k < |states[n].answers|
    ensures d < n && AnsweredAt(states, actions, states[n].answers[k], k, d, at)
    ensures forall i :: 0 <= i < |at| ==> at[i] < |states|
    ensures var x := states[n].answers[k];
            forall a :: Grants(x, a) <==>
              exists i :: 0 <= i < |x.request.resolved| && x.request.resolved[i] == a
                          && Allowed(loopback, states[at[i + 1]].rules, x.request, a)
  {
    hide IsRun, Steps, Passing, Allowed, RulesSeen;
    d, at := AnswerGiven(loopback, states, actions, n, k);
    EveryRunKeeps(loopback, states, actions, n);
    var x := states[n].answers[k];
    assert AnswerFits(loopback, x, states[n].recorded[k]);
    RulesSeenAt(states, at);
    forall a
      ensures Grants(x, a) <==>
              exists i :: 0 <= i < |x.request.resolved| && x.request.resolved[i] == a
                          && Allowed(loopback, states[at[i + 1]].rules, x.request, a)
    {
      GrantedIffAllowed(loopback, x.request, x.rulesAt, |x.rulesAt|, a);
    }
  }

  // ---------------------------------------------------------------- a retracted generation stays gone

  /** A generation that was issued, and that no rule bears and no enrolment will add. */
  ghost predicate Gone(s: State, g: nat) {
    && g <= s.issued && (forall k :: 0 <= k < |s.rules| ==> s.rules[k].generation != g)
    && (forall c :: c in s.enrolling ==> s.enrolling[c].generation != g)
  }

  lemma {:induction false} GoneStep(loopback: Ip -> bool, s: State, a: Action, g: nat)
    requires Issued(s) && Gone(s, g) && Enabled(s, a) && Apply(loopback, s, a).issued <= MAX_GENERATION
    ensures Gone(Apply(loopback, s, a), g)
  {
    hide Allowed, Dropped;
    match a
    case RemoveLabel(name) => GoneDropped(s, (r: Rule) => r.name != name, g);
    case Retract(h) => GoneDropped(s, (r: Rule) => r.generation != h, g);
    case _ =>
  }

  lemma {:induction false} GoneDropped(s: State, keep: Rule -> bool, g: nat)
    requires g <= s.issued && forall c :: c in s.enrolling ==> s.enrolling[c].generation != g
    requires forall r :: r in s.rules && keep(r) ==> r.generation != g
    ensures Gone(s.(rules := Dropped(s.rules, keep)), g)
  {
    DroppedAre(s.rules, keep);
    var kept := Dropped(s.rules, keep);
    forall k | 0 <= k < |kept|
      ensures kept[k].generation != g
    {
      assert kept[k] in s.rules;
    }
  }

  lemma {:induction false} StaysGone(loopback: Ip -> bool, states: seq<State>, actions: seq<Action>, m: nat, n: nat,
                                     g: nat)
    requires IsRun(loopback, states, actions) && m <= n < |states| && Gone(states[m], g)
             && states[n].issued <= MAX_GENERATION
    ensures Gone(states[n], g)
    decreases n
  {
    hide Apply, Enabled, IsRun, Gone, Tracked, Answered, Unique;
    if m < n {
      StepOf(loopback, states, actions, n - 1);
      IssuedStep(loopback, states[n - 1], actions[n - 1]);
      StaysGone(loopback, states, actions, m, n - 1, g);
      EveryRunKeeps(loopback, states, actions, n - 1);
      GoneStep(loopback, states[n - 1], actions[n - 1], g);
    }
  }

  lemma {:induction false} IssuedStep(loopback: Ip -> bool, s: State, a: Action)
    requires Enabled(s, a)
    ensures s.issued <= Apply(loopback, s, a).issued
  {
  }

  /**
   Retracting an issued generation that no enrolment under way still holds: while the generations last, no rule bears it
   ever again, whatever is enrolled later.
   */
  lemma {:induction false} RetractedForGood(loopback: Ip -> bool, states: seq<State>, actions: seq<Action>, m: nat,
                                            n: nat)
    requires IsRun(loopback, states, actions) && m < n < |states| && m < |actions| && actions[m].Retract?
    requires states[n].issued <= MAX_GENERATION && actions[m].generation <= states[m].issued
    requires forall c :: c in states[m].enrolling ==> states[m].enrolling[c].generation != actions[m].generation
    ensures forall k :: 0 <= k < |states[n].rules| ==> states[n].rules[k].generation != actions[m].generation
  {
    hide IsRun, Enabled, Dropped;
    var g := actions[m].generation;
    StepOf(loopback, states, actions, m);
    GoneDropped(states[m], (r: Rule) => r.generation != g, g);
    StaysGone(loopback, states, actions, m + 1, n, g);
  }

  /** A run of `n` enrolments, one after another. */
  lemma {:induction false} Enrolments(loopback: Ip -> bool, n: nat) returns (states: seq<State>, actions: seq<Action>)
    ensures IsRun(loopback, states, actions) && |actions| == 2 * n
    ensures states[2 * n].enrolling == map[]
    ensures forall k :: 0 <= k < n ==> actions[2 * k].TakeGeneration?
    ensures forall k :: 0 <= k <= n ==> states[2 * k].issued == k
  {
    if n == 0 {
      states, actions := [START], [];
    } else {
      var before, steps := Enrolments(loopback, n - 1);
      var take, add := TakeGeneration("c", "node", 1, None), AddRule("c");
      var taken := Apply(loopback, before[2 * n - 2], take);
      states := before + [taken, Apply(loopback, taken, add)];
      actions := steps + [take, add];
      forall k | 0 <= k < |actions|
        ensures Enabled(states[k], actions[k]) && states[k + 1] == Apply(loopback, states[k], actions[k])
      {
        if k < 2 * n - 2 {
          assert before[k + 1] == Apply(loopback, before[k], steps[k]);
        }
      }
    }
  }

  /** The counter does run out: there is a run in which two enrolments get the same generation. */
  lemma {:induction false} GenerationsRunOut(loopback: Ip -> bool)
    ensures exists states, actions, i, j :: SharedGeneration(loopback, states, actions, i, j)
  {
    hide IsRun, Apply;
    var states, actions := Enrolments(loopback, MAX_GENERATION + 1);
    var i, j := 2 * (MAX_GENERATION - 1), 2 * MAX_GENERATION;
    RunLength(loopback, states, actions);
    assert actions[2 * (MAX_GENERATION - 1)].TakeGeneration? && actions[2 * MAX_GENERATION].TakeGeneration?;
    assert states[2 * (MAX_GENERATION - 1)].issued == MAX_GENERATION - 1;
    GenerationsDiffer(loopback, states, actions, i, j);
    assert SharedGeneration(loopback, states, actions, i, j);
  }

  ghost predicate SharedGeneration(loopback: Ip -> bool, states: seq<State>, actions: seq<Action>, i: nat, j: nat) {
    && IsRun(loopback, states, actions) && i < j < |actions| && actions[i].TakeGeneration? && actions[j].TakeGeneration?
    && states[i].next == states[j].next
  }

  lemma {:induction false} RunLength(loopback: Ip -> bool, states: seq<State>, actions: seq<Action>)
    requires IsRun(loopback, states, actions)
    ensures |states| == |actions| + 1
  {
  }

  // ---------------------------------------------------------------- pinning inference

  function Loopbacks(loopback: Ip -> bool, addrs: seq<Address>): seq<Address> {
    if addrs == [] then []
    else
      var last := addrs[|addrs| - 1];
      Loopbacks(loopback, addrs[..|addrs| - 1]) + if loopback(last.ip) then [last] else []
  }

  /** Inference is pinned to loopback whenever a loopback address was authorized. */
  function PinFor(loopback: Ip -> bool, addrs: seq<Address>, inference: bool): seq<Address> {
    if !inference || Loopbacks(loopback, addrs) == [] then addrs else Loopbacks(loopback, addrs)
  }

  lemma {:induction false} LoopbacksAre(loopback: Ip -> bool, addrs: seq<Address>)
    ensures forall a :: a in Loopbacks(loopback, addrs) <==> a in addrs && loopback(a.ip)
  {
    if addrs != [] {
      LoopbacksAre(loopback, addrs[..|addrs| - 1]);
      assert addrs == addrs[..|addrs| - 1] + [addrs[|addrs| - 1]];
    }
  }

  /** Pinning never invents or loses the last address, and leaves inference no way out of loopback if there is one. */
  lemma {:induction false} PinIsSafe(loopback: Ip -> bool, addrs: seq<Address>, inference: bool)
    ensures forall a :: a in PinFor(loopback, addrs, inference) ==> a in addrs
    ensures addrs != [] ==> PinFor(loopback, addrs, inference) != []
    ensures inference && (exists a :: a in addrs && loopback(a.ip)) ==>
            forall a :: a in PinFor(loopback, addrs, inference) ==> loopback(a.ip)
  {
    LoopbacksAre(loopback, addrs);
    if a :| a in addrs && loopback(a.ip) {
      assert a in Loopbacks(loopback, addrs);
    }
  }
}
