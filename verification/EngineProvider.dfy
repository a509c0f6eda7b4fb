/** The browser's connection to the local engine: replies arrive late, and stale ones must not show. */
module EngineProvider {
  import opened Common
  import opened WorkspaceRecords

  type Token = string

  /**
   Displayed data is known by where it came from: the token of the engine asked, and the number of the poll or read.
   */
  datatype Piece = Piece(token: Token, number: nat)

  /** The workspace is merged: from several tokens in general, last brought by one poll. */
  datatype Workspace = Workspace(tokens: set<Token>, number: nat, organization: Organization, tasks: Shown)

  datatype View = View(workspace: Option<Workspace>, items: Option<Piece>, approvals: Option<Piece>,
                       teams: Option<Piece>, attention: Option<Piece>, catalog: Option<Piece>, digest: set<Token>)

  const EMPTY := View(None, None, None, None, None, None, {})

  function TokenOf(p: Option<Piece>): set<Token> {
    if p.Some? then {p.value.token} else {}
  }

  predicate FetchedWith(p: Option<Piece>, t: Token) { p.Some? && p.value.token == t }

  /** The tokens behind everything displayed but the digest, whose replies are not checked. */
  function Sources(v: View): (tokens: set<Token>)
    ensures forall t :: t in tokens <==>
              || (v.workspace.Some? && t in v.workspace.value.tokens) || FetchedWith(v.items, t)
              || FetchedWith(v.approvals, t) || FetchedWith(v.teams, t) || FetchedWith(v.attention, t)
              || FetchedWith(v.catalog, t)
  {
    (if v.workspace.Some? then v.workspace.value.tokens else {})
    + TokenOf(v.items) + TokenOf(v.approvals) + TokenOf(v.teams) + TokenOf(v.attention) + TokenOf(v.catalog)
  }

  /** Which of a poll's five requests succeeded, and the workspace itself. */
  datatype Got = Got(workspace: Option<Snapshot>, items: bool, approvals: bool, teams: bool, attention: bool)

  /** A poll under way: the engine it asked, its number, and the effect whose signal can stop it. */
  datatype Poll = Poll(engine: nat, version: nat, effect: Option<nat>)

  /** A catalog read: the engine it asked, whether it was aborted, whether it is under way, when the next may follow. */
  datatype Read = Read(engine: nat, aborted: bool, pending: bool, nextReadAt: real)

  /**
   The provider's refs and state: the tokens of the engines made so far, the current one, the calls under way, what is
   displayed, and (as history) the calls that started polls.
   */
  datatype State = State(tokens: seq<Token>, engine: nat, alive: bool, pollVersion: nat, polls: map<Id, Poll>,
                         tasks: map<Id, nat>, digests: map<Id, nat>, lookups: seq<Read>, catalogRead: Option<nat>,
                         effect: nat, cleaned: bool, view: View, starts: seq<Id>)

  function Fresh(token: Token): State {
    State([token], 0, true, 0, map[], map[], map[], [], None, 0, false, EMPTY, [])
  }

  /** Engines, reads and polls referred to exist; every poll under way is where its version says in the history. */
  ghost predicate WellFormed(s: State) {
    && s.engine < |s.tokens| && |s.starts| == s.pollVersion && (s.alive ==> !s.cleaned)
    && (forall c :: c in s.polls ==> PollKnown(s, c))
    && (forall c :: c in s.tasks ==> s.tasks[c] < |s.tokens|)
    && (forall c :: c in s.digests ==> s.digests[c] < |s.tokens|)
    && (forall k :: 0 <= k < |s.lookups| ==> s.lookups[k].engine < |s.tokens|)
    && s.catalogRead == (if s.lookups == [] then None else Some(|s.lookups| - 1))
  }

  ghost predicate PollKnown(s: State, c: Id)
    requires c in s.polls && |s.starts| == s.pollVersion
  {
    s.polls[c].engine < |s.tokens| && 1 <= s.polls[c].version <= s.pollVersion && s.starts[s.polls[c].version - 1] == c
  }

  /** Everything displayed but the digest was fetched with the current token. */
  ghost predicate ShowsCurrent(s: State) {
    s.engine < |s.tokens| && Sources(s.view) <= {s.tokens[s.engine]}
  }

  // ---------------------------------------------------------------- polling

  function PollStarted(s: State, call: Id, signal: Option<nat>): State {
    s.(pollVersion := s.pollVersion + 1, starts := s.starts + [call],
       polls := s.polls[call := Poll(s.engine, s.pollVersion + 1, signal)])
  }

  /** Not aborted, mounted, asked of the current engine, and the latest poll. */
  predicate IsCurrent(s: State, p: Poll) {
    !(p.effect.Some? && (p.effect.value < s.effect || s.cleaned)) && s.alive && p.engine == s.engine
    && p.version == s.pollVersion
  }

  /** A snapshot of the organization shown is merged into it, any other replaces it. */
  function Merged(w: Option<Workspace>, p: Piece, snapshot: Snapshot): Workspace {
    if w.Some? && w.value.organization == snapshot.organization
    then Workspace(w.value.tokens + {p.token}, p.number, snapshot.organization,
                   AbsorbedAll(w.value.tasks, snapshot.tasks))
    else Workspace({p.token}, p.number, snapshot.organization, AbsorbedAll(map[], snapshot.tasks))
  }

  /** What a poll brings: each part that arrived, as the poll fetched it. */
  function Polled(v: View, p: Piece, got: Got): View
    requires got.workspace.Some?
  {
    v.(workspace := Some(Merged(v.workspace, p, got.workspace.value)),
       items := if got.items then Some(p) else v.items,
       approvals := if got.approvals then Some(p) else v.approvals,
       teams := if got.teams then Some(p) else v.teams,
       attention := if got.attention then Some(p) else v.attention)
  }

  predicate Applies(s: State, call: Id, got: Got)
    requires call in s.polls
  {
    IsCurrent(s, s.polls[call]) && got.workspace.Some?
  }

  /** The poll's own engine and number. */
  function Fetched(s: State, call: Id): Piece
    requires call in s.polls && s.polls[call].engine < |s.tokens|
  {
    Piece(s.tokens[s.polls[call].engine], s.polls[call].version)
  }

  function PollFinished(s: State, call: Id, got: Got): State
    requires call in s.polls && s.polls[call].engine < |s.tokens|
  {
    s.(polls := s.polls - {call}, view :=
       if Applies(s, call, got) then Polled(s.view, Fetched(s, call), got) else s.view)
  }

  // ---------------------------------------------------------------- the agent catalog

  predicate ReadKnown(s: State) { s.catalogRead.Some? ==> s.catalogRead.value < |s.lookups| }

  /** No read is begun: the provider is gone, or an unforced read finds a good one under way or recent enough. */
  predicate Served(s: State, force: bool, now: real)
    requires ReadKnown(s)
  {
    !s.alive || (!force && s.catalogRead.Some? &&
                 var r := s.lookups[s.catalogRead.value];
                 r.engine == s.engine && !r.aborted && (r.pending || now < r.nextReadAt))
  }

  /** The reads with the latest one aborted. */
  function Superseded(s: State): seq<Read>
    requires ReadKnown(s)
  {
    if s.catalogRead.None? then s.lookups
    else s.lookups[s.catalogRead.value := s.lookups[s.catalogRead.value].(aborted := true)]
  }

  function CatalogRefreshed(s: State, force: bool, now: real): State
    requires ReadKnown(s)
  {
    if Served(s, force, now) then s
    else s.(lookups := Superseded(s) + [Read(s.engine, false, true, 0.0)], catalogRead := Some(|s.lookups|))
  }

  /** The latest read, not aborted, of the current engine. */
  predicate IsLatest(s: State, k: nat)
    requires k < |s.lookups|
  {
    s.alive && s.lookups[k].engine == s.engine && s.catalogRead == Some(k) && !s.lookups[k].aborted
  }

  function CatalogFinished(s: State, k: nat, ok: bool, now: real): State
    requires k < |s.lookups| && s.lookups[k].engine < |s.tokens|
  {
    var read := s.lookups[k];
    var next := if !IsLatest(s, k) then read.nextReadAt else if ok then now + 30.0 else now + 5.0;
    s.(view := if ok && IsLatest(s, k) then s.view.(catalog := Some(Piece(s.tokens[read.engine], k))) else s.view,
       lookups := s.lookups[k := read.(pending := false, nextReadAt := next)])
  }

  // ---------------------------------------------------------------- submitting and cancelling

  function TaskStarted(s: State, call: Id): State {
    s.(tasks := s.tasks[call := s.engine])
  }

  predicate Merges(s: State, call: Id, confirmed: Option<Task>)
    requires call in s.tasks
  {
    confirmed.Some? && s.tasks[call] == s.engine
  }

  /** A task merged into the workspace displayed, if there is one. */
  function WithTask(v: View, t: Token, task: Task): View {
    if v.workspace.None? then v
    else
      var w := v.workspace.value;
      v.(workspace := Some(w.(tokens := w.tokens + {t}, tasks := Absorbed(w.tasks, task))))
  }

  function TaskFinished(s: State, call: Id, confirmed: Option<Task>, poll: Id): State
    requires call in s.tasks && s.tasks[call] < |s.tokens|
  {
    var done := s.(tasks := s.tasks - {call});
    if !Merges(s, call, confirmed) then done
    else PollStarted(done.(view := WithTask(s.view, s.tokens[s.tasks[call]], confirmed.value)), poll, None)
  }

  // ---------------------------------------------------------------- the digest

  function DigestStarted(s: State, call: Id): State {
    s.(digests := s.digests[call := s.engine])
  }

  /** The digest is shown whatever has happened since it was asked for. */
  function DigestFinished(s: State, call: Id, ok: bool): State
    requires call in s.digests && s.digests[call] < |s.tokens|
  {
    s.(digests := s.digests - {call}, view := if ok then s.view.(digest := {s.tokens[s.digests[call]]}) else s.view)
  }

  // ---------------------------------------------------------------- connecting, mounting and unmounting

  function CleanedUp(s: State): State
    requires ReadKnown(s)
  {
    s.(alive := false, cleaned := true, lookups := Superseded(s))
  }

  function Ticked(s: State, poll: Id, now: real): State
    requires ReadKnown(s)
  {
    PollStarted(CatalogRefreshed(s, false, now), poll, Some(s.effect))
  }

  function EffectRun(s: State, poll: Id, now: real): State
    requires ReadKnown(s)
  {
    Ticked(s.(alive := true, cleaned := false, effect := s.effect + 1), poll, now)
  }

  /**
   Connecting again, with its re-render: another token clears the view and restarts the effect, unless the provider
   is gone.
   */
  function Connected(s: State, token: Token, first: Id, second: Id, now: real): State
    requires ReadKnown(s) && s.engine < |s.tokens|
  {
    var changed := token != s.tokens[s.engine];
    var fresh' := s.(tokens := s.tokens + [token], engine := |s.tokens|, view := if changed then EMPTY else s.view);
    var asked := CatalogRefreshed(PollStarted(fresh', first, None), true, now);
    if changed && s.alive then EffectRun(CleanedUp(asked), second, now) else asked
  }

  // ---------------------------------------------------------------- every interleaving

  datatype Action =
    | Tick(poll: Id, now: real)
    | StartPoll(poll: Id)
    | PollReply(poll: Id, got: Got)
    | RefreshCatalog(force: bool, now: real)
    | CatalogReply(read: nat, ok: bool, now: real)
    | StartTask(task: Id)
    | TaskReply(task: Id, confirmed: Option<Task>, poll: Id)
    | StartDigest(digest: Id)
    | DigestReply(digest: Id, ok: bool)
    | Connect(token: Token, first: Id, second: Id, now: real)
    | Unmount
    | Mount(poll: Id, now: real)

  /** Calls carry names of their own, and only what is under way can be answered. */
  predicate Enabled(s: State, a: Action) {
    match a
    case Tick(poll, _) => poll !in s.polls && s.alive
    case StartPoll(poll) => poll !in s.polls
    case PollReply(poll, _) => poll in s.polls && s.polls[poll].engine < |s.tokens|
    case RefreshCatalog(_, _) => true
    case CatalogReply(read, _, _) =>
      read < |s.lookups| && s.lookups[read].pending && s.lookups[read].engine < |s.tokens|
    case StartTask(task) => task !in s.tasks
    case TaskReply(task, _, poll) => task in s.tasks && poll !in s.polls && s.tasks[task] < |s.tokens|
    case StartDigest(digest) => digest !in s.digests
    case DigestReply(digest, _) => digest in s.digests && s.digests[digest] < |s.tokens|
    case Connect(_, first, second, _) => first !in s.polls && second !in s.polls && first != second
    case Unmount => true
    case Mount(poll, _) => poll !in s.polls
  }

  function Apply(s: State, a: Action): State
    requires Enabled(s, a) && ReadKnown(s) && s.engine < |s.tokens|
  {
    match a
    case Tick(poll, now) => Ticked(s, poll, now)
    case StartPoll(poll) => PollStarted(s, poll, None)
    case PollReply(poll, got) => PollFinished(s, poll, got)
    case RefreshCatalog(force, now) => CatalogRefreshed(s, force, now)
    case CatalogReply(read, ok, now) => CatalogFinished(s, read, ok, now)
    case StartTask(task) => TaskStarted(s, task)
    case TaskReply(task, confirmed, poll) => TaskFinished(s, task, confirmed, poll)
    case StartDigest(digest) => DigestStarted(s, digest)
    case DigestReply(digest, ok) => DigestFinished(s, digest, ok)
    case Connect(token, first, second, now) => Connected(s, token, first, second, now)
    case Unmount => CleanedUp(s)
    case Mount(poll, now) => EffectRun(s, poll, now)
  }

  ghost predicate Inv(s: State) { WellFormed(s) && ShowsCurrent(s) }

  lemma {:induction false} PollStartedKeeps(s: State, call: Id, signal: Option<nat>)
    requires Inv(s) && call !in s.polls
    ensures Inv(PollStarted(s, call, signal))
  {
    var t := PollStarted(s, call, signal);
    forall c | c in t.polls
      ensures PollKnown(t, c)
    {
      if c != call {
        assert PollKnown(s, c);
      }
    }
  }

  lemma {:induction false} SamePolls(s: State, t: State)
    requires WellFormed(s) && t.polls.Keys <= s.polls.Keys && (forall c :: c in t.polls ==> t.polls[c] == s.polls[c])
    requires t.starts == s.starts && t.pollVersion == s.pollVersion && s.tokens <= t.tokens
    ensures forall c :: c in t.polls ==> PollKnown(t, c)
  {
    forall c | c in t.polls
      ensures PollKnown(t, c)
    {
      assert PollKnown(s, c);
    }
  }

  lemma {:induction false} PollFinishedKeeps(s: State, call: Id, got: Got)
    requires Inv(s) && call in s.polls && s.polls[call].engine < |s.tokens|
    ensures Inv(PollFinished(s, call, got))
  {
    SamePolls(s, PollFinished(s, call, got));
  }

  lemma {:induction false} CatalogRefreshedKeeps(s: State, force: bool, now: real)
    requires Inv(s)
    ensures Inv(CatalogRefreshed(s, force, now))
    ensures CatalogRefreshed(s, force, now).polls == s.polls && CatalogRefreshed(s, force, now).effect == s.effect
  {
    SamePolls(s, CatalogRefreshed(s, force, now));
  }

  lemma {:induction false} CatalogFinishedKeeps(s: State, k: nat, ok: bool, now: real)
    requires Inv(s) && k < |s.lookups|
    ensures Inv(CatalogFinished(s, k, ok, now))
  {
    SamePolls(s, CatalogFinished(s, k, ok, now));
  }

  lemma {:induction false} TaskFinishedKeeps(s: State, call: Id, confirmed: Option<Task>, poll: Id)
    requires Inv(s) && call in s.tasks && poll !in s.polls
    ensures Inv(TaskFinished(s, call, confirmed, poll))
  {
    var done := s.(tasks := s.tasks - {call});
    SamePolls(s, done);
    if Merges(s, call, confirmed) {
      var merged := done.(view := WithTask(s.view, s.tokens[s.tasks[call]], confirmed.value));
      SamePolls(s, merged);
      PollStartedKeeps(merged, poll, None);
    }
  }

  lemma {:induction false} CleanedUpKeeps(s: State)
    requires Inv(s)
    ensures Inv(CleanedUp(s))
  {
    SamePolls(s, CleanedUp(s));
  }

  lemma {:induction false} TickedKeeps(s: State, poll: Id, now: real)
    requires Inv(s) && poll !in s.polls
    ensures Inv(Ticked(s, poll, now))
  {
    hide CatalogRefreshed, PollStarted, ShowsCurrent;
    CatalogRefreshedKeeps(s, false, now);
    PollStartedKeeps(CatalogRefreshed(s, false, now), poll, Some(s.effect));
  }

  lemma {:induction false} EffectRunKeeps(s: State, poll: Id, now: real)
    requires Inv(s) && poll !in s.polls
    ensures Inv(EffectRun(s, poll, now))
  {
    hide Ticked, Sources;
    var woken := s.(alive := true, cleaned := false, effect := s.effect + 1);
    SamePolls(s, woken);
    assert Inv(woken);
    TickedKeeps(woken, poll, now);
  }

  /** Another token leaves nothing displayed, the same token nothing wrong. */
  /** A new engine, with the view cleared if its token is another. */
  lemma {:induction false} ReplacedKeeps(s: State, token: Token)
    requires Inv(s)
    ensures Inv(s.(tokens := s.tokens + [token], engine := |s.tokens|,
                   view := if token != s.tokens[s.engine] then EMPTY else s.view))
  {
    SamePolls(s, s.(tokens := s.tokens + [token], engine := |s.tokens|,
                    view := if token != s.tokens[s.engine] then EMPTY else s.view));
  }

  lemma {:induction false} ConnectedKeeps(s: State, token: Token, first: Id, second: Id, now: real)
    requires Inv(s) && first !in s.polls && second !in s.polls && first != second
    ensures Inv(Connected(s, token, first, second, now))
  {
    var changed := token != s.tokens[s.engine];
    var fresh' := s.(tokens := s.tokens + [token], engine := |s.tokens|, view := if changed then EMPTY else s.view);
    ReplacedKeeps(s, token);
    PollStartedKeeps(fresh', first, None);
    var started := PollStarted(fresh', first, None);
    hide CatalogRefreshed, Inv, EffectRun, PollStarted;
    CatalogRefreshedKeeps(started, true, now);
    var asked := CatalogRefreshed(started, true, now);
    StartedPolls(fresh', first, None);
    assert asked.polls == started.polls == fresh'.polls[first := Poll(fresh'.engine, fresh'.pollVersion + 1, None)];
    if changed && s.alive {
      CleanedUpKeeps(asked);
      EffectRunKeeps(CleanedUp(asked), second, now);
    }
  }

  lemma {:induction false} StartedPolls(s: State, call: Id, signal: Option<nat>)
    ensures PollStarted(s, call, signal).polls == s.polls[call := Poll(s.engine, s.pollVersion + 1, signal)]
  {
  }

  lemma {:induction false} ApplyKeeps(s: State, a: Action)
    requires Inv(s) && Enabled(s, a)
    ensures Inv(Apply(s, a))
  {
    match a
    case Tick(poll, now) => TickedKeeps(s, poll, now);
    case StartPoll(poll) => PollStartedKeeps(s, poll, None);
    case PollReply(poll, got) => PollFinishedKeeps(s, poll, got);
    case RefreshCatalog(force, now) => CatalogRefreshedKeeps(s, force, now);
    case CatalogReply(read, ok, now) => CatalogFinishedKeeps(s, read, ok, now);
    case StartTask(task) => SamePolls(s, TaskStarted(s, task));
    case TaskReply(task, confirmed, poll) => TaskFinishedKeeps(s, task, confirmed, poll);
    case StartDigest(digest) => SamePolls(s, DigestStarted(s, digest));
    case DigestReply(digest, ok) => SamePolls(s, DigestFinished(s, digest, ok));
    case Connect(token, first, second, now) => ConnectedKeeps(s, token, first, second, now);
    case Unmount => CleanedUpKeeps(s);
    case Mount(poll, now) => EffectRunKeeps(s, poll, now);
  }

  /** A run: calls start and replies arrive in any order, each step as the code takes it. */
  ghost predicate IsRun(token: Token, states: seq<State>, actions: seq<Action>) {
    && |states| == |actions| + 1 && states[0] == Fresh(token)
    && forall k :: 0 <= k < |actions| ==> Follows(states[k], actions[k], states[k + 1])
  }

  ghost predicate Follows(s: State, a: Action, t: State) {
    Enabled(s, a) && ReadKnown(s) && s.engine < |s.tokens| && t == Apply(s, a)
  }

  /** In every state of every run, everything displayed but the digest was fetched with the current token. */
  lemma {:induction false} EveryRunShowsCurrent(token: Token, states: seq<State>, actions: seq<Action>, n: nat)
    requires IsRun(token, states, actions) && n < |states|
    ensures WellFormed(states[n]) && ShowsCurrent(states[n])
  {
    hide Apply, Enabled;
    if n > 0 {
      EveryRunShowsCurrent(token, states, actions, n - 1);
      assert Follows(states[n - 1], actions[n - 1], states[n - 1 + 1]);
      ApplyKeeps(states[n - 1], actions[n - 1]);
    }
  }

  /** The history of polls only grows. */
  lemma {:induction false} StartsGrow(token: Token, states: seq<State>, actions: seq<Action>, m: nat, n: nat)
    requires IsRun(token, states, actions) && m <= n < |states|
    ensures states[m].starts <= states[n].starts
  {
    if m < n {
      hide Apply, Enabled;
      StartsGrow(token, states, actions, m, n - 1);
      assert Follows(states[n - 1], actions[n - 1], states[n - 1 + 1]);
      ApplyExtends(states[n - 1], actions[n - 1]);
    }
  }

  lemma {:induction false} ApplyExtends(s: State, a: Action)
    requires Enabled(s, a) && ReadKnown(s) && s.engine < |s.tokens|
    ensures s.starts <= Apply(s, a).starts
  {
    hide Connected, Superseded, Served, IsLatest, Polled;
    if a.Connect? {
      ConnectedExtends(s, a.token, a.first, a.second, a.now);
    }
  }

  lemma {:induction false} ConnectedExtends(s: State, token: Token, first: Id, second: Id, now: real)
    requires ReadKnown(s) && s.engine < |s.tokens|
    ensures Connected(s, token, first, second, now).starts
            == s.starts + [first] + if token == s.tokens[s.engine] || !s.alive then [] else [second]
  {
  }

  /**
   A poll's replies are applied only if it is the last poll started, so none was started after it, and only if the
   engine it asked is still the current one.
   */
  lemma {:induction false} OnlyLatestPollShows(token: Token, states: seq<State>, actions: seq<Action>, n: nat)
    requires IsRun(token, states, actions) && n < |actions| && actions[n].PollReply?
    requires actions[n].poll in states[n].polls && Applies(states[n], actions[n].poll, actions[n].got)
    ensures var call := actions[n].poll;
            && states[n].polls[call].engine == states[n].engine
            && states[n].starts != [] && states[n].starts[|states[n].starts| - 1] == call
            && forall m :: 0 <= m <= n ==> |states[m].starts| <= states[n].polls[call].version
  {
    hide Polled;
    assert Follows(states[n], actions[n], states[n + 1]);
    EveryRunShowsCurrent(token, states, actions, n);
    assert PollKnown(states[n], actions[n].poll);
    forall m | 0 <= m <= n
      ensures |states[m].starts| <= states[n].polls[actions[n].poll].version
    {
      StartsGrow(token, states, actions, m, n);
    }
  }

  // ---------------------------------------------------------------- what does show

  /** The poll a reply belongs to is the last one started, of the current engine, and nothing has stopped it. */
  ghost predicate IsAwaited(s: State, call: Id) {
    && call in s.polls && s.alive && s.polls[call].engine == s.engine
    && s.polls[call].version == |s.starts| && s.starts != [] && s.starts[|s.starts| - 1] == call
    && (s.polls[call].effect.Some? ==> s.polls[call].effect.value >= s.effect && !s.cleaned)
  }

  /** One part of the display after a reply: what was fetched if it arrived, and otherwise what was there. */
  predicate PartAfter(before: Option<Piece>, after: Option<Piece>, arrived: bool, fetched: Piece) {
    after == if arrived then Some(fetched) else before
  }

  /**
   The tasks displayed after a snapshot: all of it, and what was displayed of the same organization, each in its latest
   state.
   */
  ghost predicate TasksAfter(before: Option<Workspace>, after: Workspace, snapshot: Snapshot) {
    && after.organization == snapshot.organization
    && var shown :=
         if before.Some? && before.value.organization == snapshot.organization then before.value.tasks else map[];
       forall id ::
         && (id in after.tasks <==> exists q :: Known(shown, snapshot.tasks, id, q))
         && (id in after.tasks ==> Known(shown, snapshot.tasks, id, after.tasks[id]))
         && (forall q :: Known(shown, snapshot.tasks, id, q) ==> q <= after.tasks[id])
  }

  /**
   In every run a poll's reply shows exactly if its poll is awaited and the workspace arrived: then the workspace is of
   the current token under the poll's number, every part that arrived is exactly what was fetched, and the rest is as
   before. Otherwise nothing displayed changes.
   */
  lemma {:induction false} AwaitedPollShows(token: Token, states: seq<State>, actions: seq<Action>, n: nat)
    requires IsRun(token, states, actions) && n < |actions| && actions[n].PollReply? && n + 1 < |states|
    ensures var s, t, call, got := states[n], states[n + 1], actions[n].poll, actions[n].got;
            if IsAwaited(s, call) && got.workspace.Some? then
              && s.engine < |s.tokens|
              && var fetched := Piece(s.tokens[s.engine], |s.starts|);
                 && t.view.workspace.Some? && t.view.workspace.value.tokens == {fetched.token}
                 && t.view.workspace.value.number == fetched.number
                 && TasksAfter(s.view.workspace, t.view.workspace.value, got.workspace.value)
                 && PartAfter(s.view.items, t.view.items, got.items, fetched)
                 && PartAfter(s.view.approvals, t.view.approvals, got.approvals, fetched)
                 && PartAfter(s.view.teams, t.view.teams, got.teams, fetched)
                 && PartAfter(s.view.attention, t.view.attention, got.attention, fetched)
                 && t.view.catalog == s.view.catalog && t.view.digest == s.view.digest
            else t.view == s.view
  {
    assert Follows(states[n], actions[n], states[n + 1]);
    EveryRunShowsCurrent(token, states, actions, n);
    assert PollKnown(states[n], actions[n].poll);
    var s, got := states[n], actions[n].got;
    if got.workspace.Some? {
      MergedTasks(s.view.workspace, Piece(s.tokens[s.engine], |s.starts|), got.workspace.value);
    }
    hide TasksAfter, AbsorbedAll;
  }

  lemma {:induction false} MergedTasks(w: Option<Workspace>, p: Piece, snapshot: Snapshot)
    ensures TasksAfter(w, Merged(w, p, snapshot), snapshot)
  {
    var shown := if w.Some? && w.value.organization == snapshot.organization then w.value.tasks else map[];
    forall id {
      LatestIsShown(shown, snapshot.tasks, id);
    }
  }

  /** The same for the catalog: the latest read of the current engine, if it was not aborted. */
  lemma {:induction false} LatestReadShows(token: Token, states: seq<State>, actions: seq<Action>, n: nat)
    requires IsRun(token, states, actions) && n < |actions| && actions[n].CatalogReply? && n + 1 < |states|
    ensures var s, t, k := states[n], states[n + 1], actions[n].read;
            && k < |s.lookups| && s.engine < |s.tokens|
            && t.view == (if s.alive && actions[n].ok && k == |s.lookups| - 1 && s.lookups[k].engine == s.engine
                          && !s.lookups[k].aborted
                          then s.view.(catalog := Some(Piece(s.tokens[s.engine], k))) else s.view)
  {
    assert Follows(states[n], actions[n], states[n + 1]);
    EveryRunShowsCurrent(token, states, actions, n);
  }

  /** A step that neither starts a poll, nor reconnects or unmounts, nor answers the call. */
  predicate Undisturbing(a: Action, call: Id) {
    match a
    case PollReply(poll, _) => poll != call
    case RefreshCatalog(_, _) => true
    case CatalogReply(_, _, _) => true
    case StartTask(_) => true
    case TaskReply(_, confirmed, _) => confirmed.None?
    case StartDigest(_) => true
    case DigestReply(_, _) => true
    case _ => false
  }

  lemma {:induction false} UndisturbedStep(s: State, a: Action, call: Id)
    requires ReadKnown(s) && s.engine < |s.tokens| && Enabled(s, a) && Undisturbing(a, call) && IsAwaited(s, call)
    ensures IsAwaited(Apply(s, a), call)
  {
    hide Superseded, Polled;
  }

  /** Whichever step starts a poll of a mounted provider, the poll is awaited after it. */
  predicate StartsPoll(s: State, a: Action, call: Id)
    requires s.engine < |s.tokens|
  {
    match a
    case Tick(poll, _) => poll == call
    case StartPoll(poll) => poll == call && s.alive
    case Mount(poll, _) => poll == call
    case TaskReply(task, confirmed, poll) => 
      poll == call && s.alive && confirmed.Some? && task in s.tasks && s.tasks[task] == s.engine
    case Connect(token, first, second, _) => s.alive && call == if token == s.tokens[s.engine] then first else second
    case _ => false
  }

  lemma {:induction false} StartedIsAwaited(s: State, a: Action, call: Id)
    requires Inv(s) && ReadKnown(s) && Enabled(s, a) && StartsPoll(s, a, call)
    ensures IsAwaited(Apply(s, a), call)
  {
    hide Superseded, Served, Sources, Connected;
    if a.Connect? {
      ConnectedIsAwaited(s, a.token, a.first, a.second, a.now);
    }
  }

  lemma {:induction false} ConnectedIsAwaited(s: State, token: Token, first: Id, second: Id, now: real)
    requires Inv(s) && ReadKnown(s) && s.alive
    ensures IsAwaited(Connected(s, token, first, second, now), if token == s.tokens[s.engine] then first else second)
  {
    hide Superseded, Served, Sources;
    ConnectedExtends(s, token, first, second, now);
  }

  /** A poll that starts and is answered with its workspace, nothing disturbing it in between, shows what it brought. */
  lemma {:induction false} UndisturbedPollShows(token: Token, states: seq<State>, actions: seq<Action>, m: nat, n: nat,
                                                call: Id)
    requires IsRun(token, states, actions) && m < n < |actions| && n + 1 < |states|
    requires states[m].engine < |states[m].tokens| && StartsPoll(states[m], actions[m], call)
    requires forall k :: m < k < n ==> Undisturbing(actions[k], call)
    requires actions[n].PollReply? && actions[n].poll == call && actions[n].got.workspace.Some?
    ensures states[n].engine < |states[n].tokens|
    ensures var after := states[n + 1].view.workspace;
            && after.Some? && after.value.tokens == {states[n].tokens[states[n].engine]}
            && after.value.number == |states[n].starts|
            && TasksAfter(states[n].view.workspace, after.value, actions[n].got.workspace.value)
  {
    hide IsRun, Apply, Enabled, IsAwaited;
    AwaitedUntil(token, states, actions, m, n, call);
    EveryRunShowsCurrent(token, states, actions, n);
    AwaitedPollShows(token, states, actions, n);
  }

  lemma {:induction false} AwaitedUntil(token: Token, states: seq<State>, actions: seq<Action>, m: nat, n: nat,
                                        call: Id)
    requires IsRun(token, states, actions) && m < n < |states| && m < |actions|
    requires states[m].engine < |states[m].tokens| && StartsPoll(states[m], actions[m], call)
    requires forall k :: m < k < n && k < |actions| ==> Undisturbing(actions[k], call)
    ensures IsAwaited(states[n], call)
  {
    hide IsRun, Apply, Enabled, IsAwaited, StartsPoll, Undisturbing;
    StepOf(token, states, actions, n - 1);
    EveryRunShowsCurrent(token, states, actions, n - 1);
    if m == n - 1 {
      StartedIsAwaited(states[m], actions[m], call);
    } else {
      AwaitedUntil(token, states, actions, m, n - 1, call);
      UndisturbedStep(states[n - 1], actions[n - 1], call);
    }
  }

  /** The read is the latest, under way, of the current engine, and nothing has stopped it. */
  ghost predicate ReadAwaited(s: State, k: nat) {
    && s.alive && k < |s.lookups| && k == |s.lookups| - 1
    && s.lookups[k].engine == s.engine && s.lookups[k].pending && !s.lookups[k].aborted
  }

  /** A step that neither begins a read, nor reconnects or unmounts, nor answers this read. */
  predicate LeavesRead(a: Action, k: nat) {
    match a
    case StartPoll(_) => true
    case PollReply(_, _) => true
    case CatalogReply(read, _, _) => read != k
    case StartTask(_) => true
    case TaskReply(_, _, _) => true
    case StartDigest(_) => true
    case DigestReply(_, _) => true
    case _ => false
  }

  lemma {:induction false} ReadStep(s: State, a: Action, k: nat)
    requires ReadKnown(s) && s.engine < |s.tokens| && Enabled(s, a) && LeavesRead(a, k) && ReadAwaited(s, k)
    ensures ReadAwaited(Apply(s, a), k)
  {
    hide Polled, IsCurrent;
  }

  lemma {:induction false} ReadAwaitedUntil(token: Token, states: seq<State>, actions: seq<Action>, m: nat, n: nat)
    requires IsRun(token, states, actions) && m < n < |states| && m < |actions| && states[m].alive
    requires actions[m].RefreshCatalog? && actions[m].force
    requires forall k :: m < k < n && k < |actions| ==> LeavesRead(actions[k], |states[m].lookups|)
    ensures ReadAwaited(states[n], |states[m].lookups|)
  {
    hide IsRun, Enabled, LeavesRead, Apply;
    StepOf(token, states, actions, n - 1);
    EveryRunShowsCurrent(token, states, actions, n - 1);
    if m == n - 1 {
      ForcedReadBegins(states[m], actions[m]);
    } else {
      ReadAwaitedUntil(token, states, actions, m, n - 1);
      ReadStep(states[n - 1], actions[n - 1], |states[m].lookups|);
    }
  }

  lemma {:induction false} ForcedReadBegins(s: State, a: Action)
    requires ReadKnown(s) && s.engine < |s.tokens| && Enabled(s, a) && a.RefreshCatalog? && a.force && s.alive
    ensures ReadAwaited(Apply(s, a), |s.lookups|)
  {
  }

  /** A forced catalog read that is answered, nothing disturbing it in between, shows what it brought. */
  lemma {:induction false} ForcedReadShows(token: Token, states: seq<State>, actions: seq<Action>, m: nat, n: nat)
    requires IsRun(token, states, actions) && m < n < |actions| && n + 1 < |states| && states[m].alive
    requires actions[m].RefreshCatalog? && actions[m].force
    requires forall k :: m < k < n ==> LeavesRead(actions[k], |states[m].lookups|)
    requires actions[n].CatalogReply? && actions[n].read == |states[m].lookups| && actions[n].ok
    ensures states[n].engine < |states[n].tokens|
    ensures states[n + 1].view.catalog == Some(Piece(states[n].tokens[states[n].engine], |states[m].lookups|))
  {
    hide IsRun, Enabled, Apply, LeavesRead;
    ReadAwaitedUntil(token, states, actions, m, n);
    LatestReadShows(token, states, actions, n);
  }

  /**
   After an answered read an unforced one begins no sooner than 30 seconds after a success and 5 after a failure, and
   then does.
   */
  lemma {:induction false} ReadsArePaced(s: State, k: nat, ok: bool, now: real, later: real)
    requires WellFormed(s) && ReadAwaited(s, k)
    ensures s.lookups[k].engine < |s.tokens| && ReadKnown(CatalogFinished(s, k, ok, now))
    ensures var t := CatalogFinished(s, k, ok, now);
            |CatalogRefreshed(t, false, later).lookups| - |t.lookups| ==
                if later < now + (if ok then 30.0 else 5.0) then 0 else 1
  {
  }

  // ---------------------------------------------------------------- no step back

  predicate NoOlder(p: Option<Piece>, q: Option<Piece>) {
    p.Some? ==> q.Some? && p.value.number <= q.value.number
  }

  /** Every part displayed before is displayed after, brought by the same poll or read or by a later one. */
  predicate ViewNoOlder(v: View, w: View) {
    && (v.workspace.Some? ==> w.workspace.Some? && v.workspace.value.number <= w.workspace.value.number)
    && NoOlder(v.items, w.items) && NoOlder(v.approvals, w.approvals) && NoOlder(v.teams, w.teams)
    && NoOlder(v.attention, w.attention) && NoOlder(v.catalog, w.catalog)
  }

  predicate NumberedTo(p: Option<Piece>, n: nat) {
    p.Some? ==> p.value.number <= n
  }

  /** Nothing displayed is numbered beyond the polls and reads begun. */
  predicate Dated(s: State) {
    && (s.view.workspace.Some? ==> s.view.workspace.value.number <= s.pollVersion)
    && NumberedTo(s.view.items, s.pollVersion) && NumberedTo(s.view.approvals, s.pollVersion)
    && NumberedTo(s.view.teams, s.pollVersion) && NumberedTo(s.view.attention, s.pollVersion)
    && (s.view.catalog.Some? ==> s.view.catalog.value.number < |s.lookups|)
  }

  function CurrentToken(s: State): Token
    requires s.engine < |s.tokens|
  {
    s.tokens[s.engine]
  }

  /** What a step leaves alone: the view, while polls and reads only become more. */
  ghost predicate OnlyBegins(s: State, t: State) {
    t.view == s.view && t.pollVersion >= s.pollVersion && |t.lookups| >= |s.lookups|
  }

  lemma {:induction false} BeginsDated(s: State, t: State)
    requires Dated(s) && OnlyBegins(s, t)
    ensures Dated(t) && ViewNoOlder(s.view, t.view)
  {
  }

  lemma {:induction false} PollDated(s: State, call: Id, got: Got)
    requires WellFormed(s) && Dated(s) && call in s.polls && s.polls[call].engine < |s.tokens|
    ensures Dated(PollFinished(s, call, got)) && ViewNoOlder(s.view, PollFinished(s, call, got).view)
  {
  }

  lemma {:induction false} CatalogDated(s: State, k: nat, ok: bool, now: real)
    requires WellFormed(s) && Dated(s) && k < |s.lookups| && s.lookups[k].engine < |s.tokens|
    ensures Dated(CatalogFinished(s, k, ok, now)) && ViewNoOlder(s.view, CatalogFinished(s, k, ok, now).view)
  {
  }

  lemma {:induction false} TaskDated(s: State, call: Id, confirmed: Option<Task>, poll: Id)
    requires Dated(s) && call in s.tasks && s.tasks[call] < |s.tokens|
    ensures Dated(TaskFinished(s, call, confirmed, poll))
            && ViewNoOlder(s.view, TaskFinished(s, call, confirmed, poll).view)
  {
    if Merges(s, call, confirmed) {
      var merged := WithTask(s.view, s.tokens[s.tasks[call]], confirmed.value);
      assert ViewNoOlder(s.view, merged) && Dated(s.(view := merged));
      hide WithTask, ViewNoOlder;
    }
  }

  lemma {:induction false} ConnectedDated(s: State, token: Token, first: Id, second: Id, now: real)
    requires ReadKnown(s) && s.engine < |s.tokens| && Dated(s)
    ensures var t := Connected(s, token, first, second, now);
            && t.engine < |t.tokens| && CurrentToken(t) == token && Dated(t)
            && (token == CurrentToken(s) ==> ViewNoOlder(s.view, t.view))
  {
    var t := Connected(s, token, first, second, now);
    assert t.pollVersion >= s.pollVersion && |t.lookups| >= |s.lookups|;
    assert t.view == if token == CurrentToken(s) then s.view else EMPTY;
    hide Connected;
  }

  lemma {:induction false} OthersBegin(s: State, a: Action)
    requires Enabled(s, a) && ReadKnown(s) && s.engine < |s.tokens|
    requires !a.PollReply? && !a.CatalogReply? && !a.TaskReply? && !a.DigestReply? && !a.Connect?
    ensures OnlyBegins(s, Apply(s, a))
  {
  }

  lemma {:induction false} DigestDated(s: State, call: Id, ok: bool)
    requires Dated(s) && call in s.digests && s.digests[call] < |s.tokens|
    ensures Dated(DigestFinished(s, call, ok)) && ViewNoOlder(s.view, DigestFinished(s, call, ok).view)
  {
  }

  lemma {:induction false} DatedStep(s: State, a: Action)
    requires Inv(s) && Enabled(s, a) && Dated(s)
    ensures var t := Apply(s, a);
            && Inv(t) && Dated(t)
            && (CurrentToken(t) == CurrentToken(s) ==> ViewNoOlder(s.view, t.view))
  {
    ApplyKeeps(s, a);
    if a.PollReply? {
      hide PollFinished, ViewNoOlder;
      PollDated(s, a.poll, a.got);
    } else if a.CatalogReply? {
      hide CatalogFinished, ViewNoOlder;
      CatalogDated(s, a.read, a.ok, a.now);
    } else if a.TaskReply? {
      hide TaskFinished, ViewNoOlder;
      TaskDated(s, a.task, a.confirmed, a.poll);
    } else if a.DigestReply? {
      hide DigestFinished, ViewNoOlder;
      DigestDated(s, a.digest, a.ok);
    } else if a.Connect? {
      hide Connected, ViewNoOlder;
      ConnectedDated(s, a.token, a.first, a.second, a.now);
    } else {
      hide Apply, ViewNoOlder;
      OthersBegin(s, a);
      BeginsDated(s, Apply(s, a));
    }
  }

  lemma {:induction false} EveryRunIsDated(token: Token, states: seq<State>, actions: seq<Action>, n: nat)
    requires IsRun(token, states, actions) && n < |states|
    ensures Inv(states[n]) && Dated(states[n])
  {
    hide Apply, Enabled, Inv;
    if n == 0 {
      FreshInv(token);
    } else {
      EveryRunIsDated(token, states, actions, n - 1);
      assert Follows(states[n - 1], actions[n - 1], states[n - 1 + 1]);
      DatedStep(states[n - 1], actions[n - 1]);
    }
  }

  /** The current token is the same at every moment from `m` to `n`. */
  ghost predicate TokenStays(states: seq<State>, m: nat, n: nat) {
    && m <= n < |states|
    && forall k :: m <= k <= n ==>
         states[m].engine < |states[m].tokens| && states[k].engine < |states[k].tokens|
         && CurrentToken(states[k]) == CurrentToken(states[m])
  }

  /**
   While the token stays, nothing displayed steps back: every part is the one shown before or was brought by a poll or
   catalog read begun later, reconnections with the same token included.
   */
  lemma {:induction false} DisplayNeverStepsBack(token: Token, states: seq<State>, actions: seq<Action>, m: nat, n: nat)
    requires IsRun(token, states, actions) && TokenStays(states, m, n)
    ensures ViewNoOlder(states[m].view, states[n].view)
  {
    hide Apply, Enabled, Inv, Dated, CurrentToken, IsRun;
    if m < n {
      assert TokenStays(states, m, n - 1);
      DisplayNeverStepsBack(token, states, actions, m, n - 1);
      EveryRunIsDated(token, states, actions, n - 1);
      StepOf(token, states, actions, n - 1);
      DatedStep(states[n - 1], actions[n - 1]);
      assert CurrentToken(states[n - 1]) == CurrentToken(states[m]) == CurrentToken(states[n]);
    }
  }

  /** The workspace displayed, and its organization, at every moment from `m` to `n`. */
  ghost predicate OrganizationStays(states: seq<State>, m: nat, n: nat) {
    && m <= n < |states|
    && forall k :: m <= k <= n ==>
         && states[m].view.workspace.Some? && states[k].view.workspace.Some?
         && states[k].view.workspace.value.organization == states[m].view.workspace.value.organization
  }

  lemma {:induction false} TasksStep(s: State, a: Action)
    requires Inv(s) && Enabled(s, a) && s.view.workspace.Some? && Apply(s, a).view.workspace.Some?
    requires Apply(s, a).view.workspace.value.organization == s.view.workspace.value.organization
    ensures NoTaskOlder(s.view.workspace.value.tasks, Apply(s, a).view.workspace.value.tasks)
  {
    hide Sources, AbsorbedAll;
    if a.PollReply? {
      hide IsCurrent, WellFormed;
      if a.got.workspace.Some? {
        AbsorbingKeepsUp(s.view.workspace.value.tasks, a.got.workspace.value.tasks);
      }
    } else if a.TaskReply? {
      hide WellFormed;
    } else if a.Connect? {
      hide Connected;
      ConnectedView(s, a.token, a.first, a.second, a.now);
    } else if a.CatalogReply? || a.DigestReply? {
    } else {
      hide Apply;
      OthersBegin(s, a);
    }
  }

  lemma {:induction false} ConnectedView(s: State, token: Token, first: Id, second: Id, now: real)
    requires ReadKnown(s) && s.engine < |s.tokens|
    ensures Connected(s, token, first, second, now).view == if token == s.tokens[s.engine] then s.view else EMPTY
  {
  }

  /** While one organization's workspace is displayed, no task goes away or back to an earlier state. */
  lemma {:induction false} TasksNeverStepBack(token: Token, states: seq<State>, actions: seq<Action>, m: nat, n: nat)
    requires IsRun(token, states, actions) && OrganizationStays(states, m, n)
    ensures NoTaskOlder(states[m].view.workspace.value.tasks, states[n].view.workspace.value.tasks)
  {
    hide Apply, Enabled, IsRun, WellFormed, ShowsCurrent;
    if m < n {
      assert OrganizationStays(states, m, n - 1);
      TasksNeverStepBack(token, states, actions, m, n - 1);
      EveryRunShowsCurrent(token, states, actions, n - 1);
      StepOf(token, states, actions, n - 1);
      TasksStep(states[n - 1], actions[n - 1]);
    }
  }

  /**
   A confirmed submission or cancellation of the current engine is displayed in its latest state, if there is a
   workspace.
   */
  lemma {:induction false} ConfirmedTaskShows(token: Token, states: seq<State>, actions: seq<Action>, n: nat)
    requires IsRun(token, states, actions) && n < |actions| && actions[n].TaskReply? && n + 1 < |states|
    ensures var s, t, reply := states[n], states[n + 1], actions[n].confirmed;
            if reply.Some? && actions[n].task in s.tasks && s.tasks[actions[n].task] == s.engine
                && s.view.workspace.Some? then
              && t.view.workspace.Some?
              && var was, now := s.view.workspace.value.tasks, t.view.workspace.value.tasks;
                 && now.Keys == was.Keys + {reply.value.id}
                 && (forall id :: id in was && id != reply.value.id ==> now[id] == was[id])
                 && now[reply.value.id]
                    == (if reply.value.id in was && was[reply.value.id] > reply.value.sequence then was[reply.value.id]
                        else reply.value.sequence)
                 && s.engine < |s.tokens|
                 && t.view == s.view.(workspace :=
                                      Some(s.view.workspace.value.(tokens := {s.tokens[s.engine]}, tasks := now)))
            else t.view == s.view
  {
    assert Follows(states[n], actions[n], states[n + 1]);
    EveryRunShowsCurrent(token, states, actions, n);
    var s := states[n];
    if s.view.workspace.Some? {
      var current := s.tokens[s.engine];
      assert Sources(s.view) <= {current};
      assert s.view.workspace.value.tokens + {current} == {current};
    }
  }

  lemma {:induction false} StepOf(token: Token, states: seq<State>, actions: seq<Action>, k: nat)
    requires IsRun(token, states, actions) && k < |states| - 1
    ensures k < |actions| && Follows(states[k], actions[k], states[k + 1])
  {
    hide Follows;
  }

  // ---------------------------------------------------------------- nothing arrives while the provider is gone

  /** The parts that polls and catalog reads replace. */
  function Parts(v: View): seq<Option<Piece>> {
    [v.items, v.approvals, v.teams, v.attention, v.catalog]
  }

  lemma {:induction false} GoneStep(s: State, a: Action)
    requires ReadKnown(s) && s.engine < |s.tokens| && Enabled(s, a) && !s.alive
    ensures Parts(Apply(s, a).view) in {Parts(s.view), Parts(EMPTY)}
  {
    if a.Connect? {
      var t := Connected(s, a.token, a.first, a.second, a.now);
      assert t.view == if a.token == CurrentToken(s) then s.view else EMPTY;
    }
  }

  /** From an unmount to the next mount no reply shows: every part stays, or is cleared by another token. */
  lemma {:induction false} NothingShowsWhileGone(token: Token, states: seq<State>, actions: seq<Action>, m: nat, n: nat)
    requires IsRun(token, states, actions) && m <= n < |states| && forall k :: m <= k < n ==> !states[k].alive
    ensures Parts(states[n].view) in {Parts(states[m].view), Parts(EMPTY)}
  {
    hide Apply, Enabled, Parts, IsRun;
    if m < n {
      NothingShowsWhileGone(token, states, actions, m, n - 1);
      StepOf(token, states, actions, n - 1);
      GoneStep(states[n - 1], actions[n - 1]);
    }
  }

  // ---------------------------------------------------------------- the digest over whole runs

  /** The digest displayed, if any, was fetched with the current token. */
  ghost predicate DigestCurrent(s: State) {
    s.engine < |s.tokens| && s.view.digest <= {s.tokens[s.engine]}
  }

  /** A digest arrives that was asked for with another token than the current one. */
  ghost predicate LateDigest(s: State, a: Action) {
    && a.DigestReply? && a.ok && a.digest in s.digests && s.digests[a.digest] < |s.tokens| && s.engine < |s.tokens|
    && s.tokens[s.digests[a.digest]] != s.tokens[s.engine]
  }

  /** The token, the engine and the digest as they were. */
  ghost predicate SameDigest(s: State, t: State) {
    t.tokens == s.tokens && t.engine == s.engine && t.view.digest == s.view.digest
  }

  lemma {:induction false} DigestUntouched(s: State, a: Action)
    requires ReadKnown(s) && s.engine < |s.tokens| && Enabled(s, a) && !a.DigestReply? && !a.Connect?
    ensures SameDigest(s, Apply(s, a))
  {
  }

  lemma {:induction false} ConnectedDigest(s: State, token: Token, first: Id, second: Id, now: real)
    requires ReadKnown(s) && s.engine < |s.tokens|
    ensures var t := Connected(s, token, first, second, now);
            && t.tokens == s.tokens + [token] && t.engine == |s.tokens| && t.digests == s.digests
            && t.view.digest == if token == s.tokens[s.engine] then s.view.digest else {}
  {
  }

  lemma {:induction false} DigestStep(s: State, a: Action)
    requires ReadKnown(s) && s.engine < |s.tokens| && Enabled(s, a) && DigestCurrent(s)
    ensures DigestCurrent(Apply(s, a)) <==> !LateDigest(s, a)
  {
    if a.Connect? {
      hide Connected;
      ConnectedDigest(s, a.token, a.first, a.second, a.now);
    } else if !a.DigestReply? {
      hide Apply;
      DigestUntouched(s, a);
    } else {
      hide Connected, Ticked, EffectRun, CleanedUp, TaskFinished;
    }
  }

  /** The digest displayed is current at every moment of a run exactly if none arrives late. */
  lemma {:induction false} DigestCurrentUnlessLate(token: Token, states: seq<State>, actions: seq<Action>)
    requires IsRun(token, states, actions)
    ensures (forall n :: 0 <= n < |states| ==> DigestCurrent(states[n])) <==>
            (forall k :: 0 <= k < |actions| ==> !LateDigest(states[k], actions[k]))
  {
    hide Apply, Enabled, LateDigest, DigestCurrent;
    if forall n :: 0 <= n < |states| ==> DigestCurrent(states[n]) {
      forall k | 0 <= k < |actions|
        ensures !LateDigest(states[k], actions[k])
      {
        EveryRunShowsCurrent(token, states, actions, k);
        assert Follows(states[k], actions[k], states[k + 1]) && DigestCurrent(states[k])
               && DigestCurrent(states[k + 1]);
        DigestStep(states[k], actions[k]);
      }
    }
    if forall k :: 0 <= k < |actions| ==> !LateDigest(states[k], actions[k]) {
      forall n | 0 <= n < |states|
        ensures DigestCurrent(states[n])
      {
        NoneLateSoFar(token, states, actions, n);
      }
    }
  }

  lemma {:induction false} NoneLateSoFar(token: Token, states: seq<State>, actions: seq<Action>, n: nat)
    requires IsRun(token, states, actions) && n < |states|
    requires forall k :: 0 <= k < |actions| ==> !LateDigest(states[k], actions[k])
    ensures DigestCurrent(states[n])
  {
    hide Apply, Enabled, LateDigest;
    if n > 0 {
      NoneLateSoFar(token, states, actions, n - 1);
      EveryRunShowsCurrent(token, states, actions, n - 1);
      assert Follows(states[n - 1], actions[n - 1], states[n - 1 + 1]);
      DigestStep(states[n - 1], actions[n - 1]);
    }
  }

  /** Such runs exist: a digest is asked for, another token is connected, and the digest of the first is shown. */
  lemma {:induction false} DigestOutlivesConnection(token: Token, other: Token)
    requires token != other
    ensures exists states: seq<State>, actions: seq<Action> :: IsRun(token, states, actions) && |states| == 4
                                      && states[3].view.digest == {token} && states[3].tokens == [token, other]
                                      && states[3].engine == 1
  {
    hide Connected, WellFormed, ShowsCurrent;
    var s1 := DigestStarted(Fresh(token), "d");
    FreshInv(token);
    ApplyKeeps(Fresh(token), StartDigest("d"));
    ReadsKept(s1);
    var s2 := Connected(s1, other, "p", "q", 0.0);
    ConnectedKeeps(s1, other, "p", "q", 0.0);
    ConnectedDigest(s1, other, "p", "q", 0.0);
    ReadsKept(s2);
    ThreeSteps(token, s1, s2, DigestFinished(s2, "d", true), StartDigest("d"), Connect(other, "p", "q", 0.0),
               DigestReply("d", true));
  }

  lemma {:induction false} FreshInv(token: Token)
    ensures Inv(Fresh(token))
  {
  }

  lemma {:induction false} ThreeSteps(token: Token, s1: State, s2: State, s3: State, a1: Action, a2: Action, a3: Action)
    requires Follows(Fresh(token), a1, s1) && Follows(s1, a2, s2) && Follows(s2, a3, s3)
    ensures IsRun(token, [Fresh(token), s1, s2, s3], [a1, a2, a3])
  {
    hide Follows, Fresh;
  }

  lemma {:induction false} ReadsKept(s: State)
    requires Inv(s)
    ensures ReadKnown(s)
  {
  }

  /**
   After a connection with another token nothing is displayed until a reply of the new engine arrives, and no earlier
   poll can show.
   */
  lemma {:induction false} ConnectingClears(s: State, token: Token, first: Id, second: Id, now: real)
    requires Inv(s) && first !in s.polls && second !in s.polls && first != second
    ensures var t := Connected(s, token, first, second, now);
            && t.view == (if token == s.tokens[s.engine] then s.view else EMPTY)
            && forall c :: c in s.polls ==> c in t.polls && !IsCurrent(t, t.polls[c])
  {
    forall c | c in s.polls
      ensures c in Connected(s, token, first, second, now).polls
              && !IsCurrent(Connected(s, token, first, second, now), s.polls[c])
    {
      assert PollKnown(s, c);
    }
  }

  /** A script replayed: a step that cannot happen where it stands is passed over. */
  ghost function Replayed(token: Token, script: seq<Action>): (s: State)
    ensures Inv(s)
  {
    if script == [] then Fresh(token)
    else
      var before := Replayed(token, script[..|script| - 1]);
      var last := script[|script| - 1];
      if Enabled(before, last) then ApplyKeeps(before, last); Apply(before, last) else before
  }

  /** Replaying a script in which every step can happen is a run that ends where the replay ends. */
  lemma {:induction false} RunIsReplay(token: Token, states: seq<State>, actions: seq<Action>, n: nat)
    requires IsRun(token, states, actions) && n < |states|
    ensures states[n] == Replayed(token, actions[..n])
  {
    hide Apply, Enabled, Inv;
    if n > 0 {
      RunIsReplay(token, states, actions, n - 1);
      assert Follows(states[n - 1], actions[n - 1], states[n - 1 + 1]);
      assert actions[..n][..n - 1] == actions[..n - 1];
    }
  }

  // ---------------------------------------------------------------- the provider

  /** Put a poll's replies in place of what was displayed, the workspace merged. */
  method Show(v: View, fetched: Piece, got: Got) returns (w: View)
    requires got.workspace.Some?
    ensures w == Polled(v, fetched, got)
  {
    hide AbsorbedAll;
    var snapshot := got.workspace.value;
    var tokens, shown := {}, map[];
    if v.workspace.Some? && v.workspace.value.organization == snapshot.organization {
      tokens, shown := v.workspace.value.tokens, v.workspace.value.tasks;
    }
    var tasks := MergeTasks(shown, snapshot.tasks);
    assert {} + {fetched.token} == {fetched.token};
    w := v.(workspace := Some(Workspace(tokens + {fetched.token}, fetched.number, snapshot.organization, tasks)));
    if got.items {
      w := w.(items := Some(fetched));
    }
    if got.approvals {
      w := w.(approvals := Some(fetched));
    }
    if got.teams {
      w := w.(teams := Some(fetched));
    }
    if got.attention {
      w := w.(attention := Some(fetched));
    }
  }

  class Provider {
    var tokens: seq<Token>
    var engine: nat
    var alive: bool
    var pollVersion: nat
    var polls: map<Id, Poll>
    var tasks: map<Id, nat>
    var digests: map<Id, nat>
    var lookups: seq<Read>
    var catalogRead: Option<nat>
    var effect: nat
    var cleaned: bool
    var view: View
    ghost var starts: seq<Id>

    ghost function Now(): State
      reads this
    {
      State(tokens, engine, alive, pollVersion, polls, tasks, digests, lookups, catalogRead, effect, cleaned, view,
            starts)
    }

    constructor (token: Token)
      ensures Now() == Fresh(token)
    {
      tokens, engine, alive, pollVersion := [token], 0, true, 0;
      polls, tasks, digests, lookups, catalogRead := map[], map[], map[], [], None;
      effect, cleaned, view := 0, false, EMPTY;
      starts := [];
    }

    method BeginPoll(call: Id, signal: Option<nat>)
      modifies this
      ensures Now() == PollStarted(old(Now()), call, signal)
    {
      pollVersion := pollVersion + 1;
      starts := starts + [call];
      polls := polls[call := Poll(engine, pollVersion, signal)];
    }

    /** A poll's replies: shown only if it still is the current poll of the current engine. */
    method FinishPoll(call: Id, got: Got)
      requires call in polls && polls[call].engine < |tokens|
      modifies this
      ensures Now() == PollFinished(old(Now()), call, got)
    {
      var p := polls[call];
      polls := polls - {call};
      if (p.effect.Some? && (p.effect.value < effect || cleaned)) || !alive || p.engine != engine
          || p.version != pollVersion {
        return;
      }
      if got.workspace.Some? {
        view := Show(view, Piece(tokens[p.engine], p.version), got);
      }
    }

    /** Begin a catalog read unless a recent one serves; a new read aborts the one before. */
    method BeginCatalog(force: bool, now: real)
      requires ReadKnown(Now())
      modifies this
      ensures Now() == CatalogRefreshed(old(Now()), force, now)
    {
      if !alive {
        return;
      }
      if catalogRead.Some? {
        var previous := lookups[catalogRead.value];
        if !force && previous.engine == engine && !previous.aborted && (previous.pending || now < previous.nextReadAt) {
          return;
        }
        lookups := lookups[catalogRead.value := previous.(aborted := true)];
      }
      lookups := lookups + [Read(engine, false, true, 0.0)];
      catalogRead := Some(|lookups| - 1);
    }

    /** A catalog reply: shown only if its read is the latest, not aborted, and of the current engine. */
    method FinishCatalog(k: nat, ok: bool, now: real)
      requires k < |lookups| && lookups[k].engine < |tokens|
      modifies this
      ensures Now() == CatalogFinished(old(Now()), k, ok, now)
    {
      var read := lookups[k];
      var next := read.nextReadAt;
      if alive && read.engine == engine && catalogRead == Some(k) && !read.aborted {
        if ok {
          view := view.(catalog := Some(Piece(tokens[read.engine], k)));
        }
        next := now + if ok then 30.0 else 5.0;
      }
      lookups := lookups[k := read.(pending := false, nextReadAt := next)];
    }

    method BeginTask(call: Id)
      modifies this
      ensures Now() == TaskStarted(old(Now()), call)
    {
      tasks := tasks[call := engine];
    }

    /**
     A submission's or cancellation's reply: merged into the workspace if it is confirmed and the engine is still the
     same.
     */
    method FinishTask(call: Id, confirmed: Option<Task>, poll: Id)
      requires call in tasks && tasks[call] < |tokens|
      modifies this
      ensures Now() == TaskFinished(old(Now()), call, confirmed, poll)
    {
      var asked := tasks[call];
      tasks := tasks - {call};
      if confirmed.None? || asked != engine {
        return;
      }
      if view.workspace.Some? {
        var w := view.workspace.value;
        var tasks := MergeTasks(w.tasks, [confirmed.value]);
        view := view.(workspace := Some(w.(tokens := w.tokens + {tokens[asked]}, tasks := tasks)));
      }
      BeginPoll(poll, None);
    }

    method BeginDigest(call: Id)
      modifies this
      ensures Now() == DigestStarted(old(Now()), call)
    {
      digests := digests[call := engine];
    }

    method FinishDigest(call: Id, ok: bool)
      requires call in digests && digests[call] < |tokens|
      modifies this
      ensures Now() == DigestFinished(old(Now()), call, ok)
    {
      if ok {
        view := view.(digest := {tokens[digests[call]]});
      }
      digests := digests - {call};
    }

    /** The effect's clean-up: nothing of this mount may show any more. */
    method Cleanup()
      requires ReadKnown(Now())
      modifies this
      ensures Now() == CleanedUp(old(Now()))
    {
      alive, cleaned := false, true;
      if catalogRead.Some? {
        lookups := lookups[catalogRead.value := lookups[catalogRead.value].(aborted := true)];
      }
    }

    method RunTick(poll: Id, now: real)
      requires ReadKnown(Now())
      modifies this
      ensures Now() == Ticked(old(Now()), poll, now)
    {
      hide CatalogRefreshed, PollStarted;
      ghost var before := Now();
      BeginCatalog(false, now);
      SameEffect(before, false, now);
      BeginPoll(poll, Some(effect));
    }

    /** The effect itself: a new signal and the first tick. */
    method RunEffect(poll: Id, now: real)
      requires ReadKnown(Now())
      modifies this
      ensures Now() == EffectRun(old(Now()), poll, now)
    {
      hide Ticked;
      alive, cleaned, effect := true, false, effect + 1;
      RunTick(poll, now);
    }

    /**
     Connect again, with its re-render: another token clears the view and restarts the effect of a mounted provider.
     */
    method ApplyConnection(token: Token, first: Id, second: Id, now: real)
      requires ReadKnown(Now()) && engine < |tokens|
      modifies this
      ensures Now() == Connected(old(Now()), token, first, second, now)
    {
      hide CatalogRefreshed, EffectRun;
      var changed := token != tokens[engine];
      if changed {
        view := EMPTY;
      }
      tokens := tokens + [token];
      engine := |tokens| - 1;
      BeginPoll(first, None);
      ghost var started := Now();
      BeginCatalog(true, now);
      ReadStaysKnown(started, true, now);
      if changed && alive {
        Cleanup();
        RunEffect(second, now);
      }
    }

    method CanPerform(a: Action) returns (ready: bool)
      ensures ready == Enabled(Now(), a)
    {
      match a {
        case Tick(poll, _) => ready := poll !in polls && alive;
        case StartPoll(poll) => ready := poll !in polls;
        case PollReply(poll, _) => ready := poll in polls && polls[poll].engine < |tokens|;
        case RefreshCatalog(_, _) => ready := true;
        case CatalogReply(read, _, _) =>
          ready := read < |lookups| && lookups[read].pending && lookups[read].engine < |tokens|;
        case StartTask(task) => ready := task !in tasks;
        case TaskReply(task, _, poll) => ready := task in tasks && poll !in polls && tasks[task] < |tokens|;
        case StartDigest(digest) => ready := digest !in digests;
        case DigestReply(digest, _) => ready := digest in digests && digests[digest] < |tokens|;
        case Connect(_, first, second, _) => ready := first !in polls && second !in polls && first != second;
        case Unmount => ready := true;
        case Mount(poll, _) => ready := poll !in polls;
      }
    }

    /** One step of a run, whichever call or reply it is. */
    method Perform(a: Action)
      requires Enabled(Now(), a) && ReadKnown(Now()) && engine < |tokens|
      modifies this
      ensures Now() == Apply(old(Now()), a)
    {
      hide PollStarted, PollFinished, CatalogRefreshed, CatalogFinished, TaskStarted, TaskFinished,
        DigestStarted, DigestFinished, Connected, CleanedUp, Ticked, EffectRun;
      match a {
        case Tick(poll, now) => RunTick(poll, now);
        case StartPoll(poll) => BeginPoll(poll, None);
        case PollReply(poll, got) => FinishPoll(poll, got);
        case RefreshCatalog(force, now) => BeginCatalog(force, now);
        case CatalogReply(read, ok, now) => FinishCatalog(read, ok, now);
        case StartTask(task) => BeginTask(task);
        case TaskReply(task, confirmed, poll) => FinishTask(task, confirmed, poll);
        case StartDigest(digest) => BeginDigest(digest);
        case DigestReply(digest, ok) => FinishDigest(digest, ok);
        case Connect(token, first, second, now) => ApplyConnection(token, first, second, now);
        case Unmount => Cleanup();
        case Mount(poll, now) => RunEffect(poll, now);
      }
    }
  }

  /** Run any script of starts and replies in any order: what is displayed at the end, and the token then current. */
  method Run(token: Token, script: seq<Action>) returns (view: View, current: Token)
    ensures var s := Replayed(token, script); view == s.view && current == s.tokens[s.engine]
    ensures Sources(view) <= {current}
  {
    hide Apply, Sources;
    var p := new Provider(token);
    for k := 0 to |script|
      invariant fresh(p) && p.Now() == Replayed(token, script[..k])
    {
      assert script[..k + 1][..k] == script[..k];
      var ready := p.CanPerform(script[k]);
      if ready {
        p.Perform(script[k]);
      }
    }
    assert script[..|script|] == script;
    view, current := p.view, p.tokens[p.engine];
  }

  lemma {:induction false} SameEffect(s: State, force: bool, now: real)
    requires ReadKnown(s)
    ensures CatalogRefreshed(s, force, now).effect == s.effect
  {
  }

  lemma {:induction false} ReadStaysKnown(s: State, force: bool, now: real)
    requires ReadKnown(s)
    ensures ReadKnown(CatalogRefreshed(s, force, now)) && CatalogRefreshed(s, force, now).alive == s.alive
  {
  }
}
