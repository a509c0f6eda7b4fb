/** Sorting agents into their home teams before a build. */
module MapBuckets {
  import opened Common
  import opened MapTeams
  import S = Sorting

  // ---------------------------------------------------------------- the home team

  const UNASSIGNED: Id := "unassigned"

  datatype Team = Team(id: Id, pledged: seq<Id>)
  datatype Member = Member(id: Id, pledge: Option<Id>)

  predicate Claims(t: Team, m: Member) { m.id in t.pledged || Some(t.id) == m.pledge }

  /** The ids of the teams an agent belongs to. */
  function ClaimIds(m: Member, teams: seq<Team>): (ids: seq<Id>)
    ensures forall id :: id in ids <==> exists t :: t in teams && t.id == id && Claims(t, m)
  {
    if teams == [] then []
    else
      var init, last := teams[..|teams| - 1], teams[|teams| - 1];
      assert teams == init + [last];
      ClaimIds(m, init) + if Claims(last, m) then [last.id] else []
  }

  /** The order the ids are sorted by. */
  ghost predicate TotalOrder(less: (Id, Id) -> bool) {
    && (forall a, b :: less(a, b) ==> !less(b, a))
    && (forall a, b :: a == b || less(a, b) || less(b, a))
    && (forall a, b, c :: less(a, b) && less(b, c) ==> less(a, c))
  }

  /** The first of the ids once they are sorted. */
  function Least(less: (Id, Id) -> bool, ids: seq<Id>): (r: Id)
    requires ids != []
    ensures r in ids
    ensures TotalOrder(less) ==> forall x :: x in ids ==> x == r || less(r, x)
  {
    var last := ids[|ids| - 1];
    if |ids| == 1 then last
    else
      assert ids == ids[..|ids| - 1] + [last];
      var best := Least(less, ids[..|ids| - 1]);
      if less(last, best) then last else best
  }

  /** The team an agent is drawn in; none where the code ends up with no id at all. */
  function HomeOf(less: (Id, Id) -> bool, m: Member, teams: seq<Team>): Option<Id> {
    var ids := ClaimIds(m, teams);
    if (if m.pledge.Some? then m.pledge.value else "") in ids then m.pledge
    else if ids == [] || Least(less, ids) == "" then Some(UNASSIGNED)
    else Some(Least(less, ids))
  }

  predicate IsHomeless(m: Member, teams: seq<Team>) {
    m.pledge.None? && exists t :: t in teams && t.id == "" && m.id in t.pledged
  }

  /** Of the teams the agent belongs to, one whose id comes first. */
  ghost predicate IsFirst(less: (Id, Id) -> bool, m: Member, teams: seq<Team>, t: Team) {
    && t in teams && Claims(t, m)
    && forall u :: u in teams && Claims(u, m) ==> u.id == t.id || less(t.id, u.id)
  }

  /**
   The pledged team if it exists, else the least of the teams that list the agent, else none in particular; exactly
   the agents without a pledge that a team with an empty id lists get no home.
   */
  lemma {:induction false} HomeChosen(less: (Id, Id) -> bool, m: Member, teams: seq<Team>)
    requires TotalOrder(less)
    ensures HomeOf(less, m, teams).None? <==> IsHomeless(m, teams)
    ensures m.pledge.Some? && (exists t :: t in teams && t.id == m.pledge.value) ==> HomeOf(less, m, teams) == m.pledge
    ensures (forall t :: t in teams ==> !Claims(t, m)) ==> HomeOf(less, m, teams) == Some(UNASSIGNED)
    ensures !IsHomeless(m, teams) && (m.pledge.Some? ==> forall t :: t in teams ==> t.id != m.pledge.value) ==>
              forall t :: IsFirst(less, m, teams, t) ==>
                HomeOf(less, m, teams) == Some(if t.id == "" then UNASSIGNED else t.id)
  {
    var ids := ClaimIds(m, teams);
    if m.pledge.None? && "" in ids {
      var t :| t in teams && t.id == "" && Claims(t, m);
      assert m.id in t.pledged;
    }
    if IsHomeless(m, teams) {
      var t :| t in teams && t.id == "" && m.id in t.pledged;
      assert Claims(t, m);
    }
    if t :| m.pledge.Some? && t in teams && t.id == m.pledge.value {
      assert Claims(t, m);
    }
    forall t | IsFirst(less, m, teams, t)
      ensures ids != [] && Least(less, ids) == t.id
    {
      assert t.id in ids;
      var u :| u in teams && u.id == Least(less, ids) && Claims(u, m);
    }
  }

  // ---------------------------------------------------------------- records

  /** An agent's record with the home team chosen for it. */
  datatype Agent = Agent(id: Id, home: Id)

  /** A record that has a home, with it. */
  function WithHome(less: (Id, Id) -> bool, m: Member, teams: seq<Team>): Agent
    requires HomeOf(less, m, teams).Some?
  {
    Agent(m.id, HomeOf(less, m, teams).value)
  }

  predicate AllHomed(less: (Id, Id) -> bool, members: seq<Member>, teams: seq<Team>) {
    forall k :: 0 <= k < |members| ==> HomeOf(less, members[k], teams).Some?
  }

  function WithHomes(less: (Id, Id) -> bool, members: seq<Member>, teams: seq<Team>): (agents: seq<Agent>)
    requires AllHomed(less, members, teams)
    ensures |agents| == |members| && forall k :: 0 <= k < |agents| ==> agents[k] == WithHome(less, members[k], teams)
  {
    seq(|members|, k requires 0 <= k < |members| => WithHome(less, members[k], teams))
  }

  /** Of several records with one id only the last counts. */
  ghost predicate IsLast(agents: seq<Agent>, k: int) {
    0 <= k < |agents| && forall j :: k < j < |agents| ==> agents[j].id != agents[k].id
  }

  ghost predicate Counts(agents: seq<Agent>, a: Agent) {
    exists k :: IsLast(agents, k) && agents[k] == a
  }

  // ---------------------------------------------------------------- sorting by id

  ghost predicate Ascending(less: (Id, Id) -> bool, s: seq<Agent>) {
    forall i, j :: 0 <= i < j < |s| ==> less(s[i].id, s[j].id)
  }

  const ById: Agent -> Id := (a: Agent) => a.id

  lemma {:induction false} AscendingRises(less: (Id, Id) -> bool, s: seq<Agent>)
    ensures Ascending(less, s) <==> S.Rises(less, ById, s)
  {
    if Ascending(less, s) {
      forall i, j | 0 <= i < j < |s|
        ensures less(ById(s[i]), ById(s[j]))
      {
        assert less(s[i].id, s[j].id);
      }
    }
    if S.Rises(less, ById, s) {
      forall i, j | 0 <= i < j < |s|
        ensures less(s[i].id, s[j].id)
      {
        assert less(ById(s[i]), ById(s[j]));
      }
    }
  }

  lemma {:induction false} InsertedAscends(less: (Id, Id) -> bool, s: seq<Agent>, a: Agent)
    requires TotalOrder(less) && Ascending(less, s) && forall x :: x in s ==> x.id != a.id
    ensures Ascending(less, S.Inserted(less, ById, s, a))
  {
    AscendingRises(less, s);
    S.InsertedRises(less, ById, s, a);
    AscendingRises(less, S.Inserted(less, ById, s, a));
  }

  /** The records that count among the first `n`, by id. */
  ghost predicate SortedTo(less: (Id, Id) -> bool, agents: seq<Agent>, n: nat, sorted: seq<Agent>) {
    && Ascending(less, sorted)
    && forall a :: a in sorted <==> exists k :: 0 <= k < n && IsLast(agents, k) && agents[k] == a
  }

  /** The last record of each agent, sorted by id. */
  method SortAgents(less: (Id, Id) -> bool, agents: seq<Agent>) returns (sorted: seq<Agent>)
    requires TotalOrder(less)
    ensures Ascending(less, sorted) && forall a :: a in sorted <==> Counts(agents, a)
  {
    hide SortedTo, TotalOrder, Ascending;
    sorted := [];
    NoneSorted(less, agents);
    for k := 0 to |agents|
      invariant SortedTo(less, agents, k, sorted)
    {
      var last := CheckLast(agents, k);
      OneMoreSorted(less, agents, k, sorted);
      if last {
        sorted := S.Inserted(less, ById, sorted, agents[k]);
      }
    }
    AllSorted(less, agents, sorted);
  }

  lemma {:induction false} NoneSorted(less: (Id, Id) -> bool, agents: seq<Agent>)
    ensures SortedTo(less, agents, 0, [])
  {
  }

  lemma {:induction false} OneMoreSorted(less: (Id, Id) -> bool, agents: seq<Agent>, k: nat, sorted: seq<Agent>)
    requires TotalOrder(less) && k < |agents| && SortedTo(less, agents, k, sorted)
    ensures IsLast(agents, k) ==> SortedTo(less, agents, k + 1, S.Inserted(less, ById, sorted, agents[k]))
    ensures !IsLast(agents, k) ==> SortedTo(less, agents, k + 1, sorted)
  {
    if IsLast(agents, k) {
      forall x | x in sorted
        ensures x.id != agents[k].id
      {
        var j :| 0 <= j < k && IsLast(agents, j) && agents[j] == x;
      }
      InsertedAscends(less, sorted, agents[k]);
    }
  }

  lemma {:induction false} AllSorted(less: (Id, Id) -> bool, agents: seq<Agent>, sorted: seq<Agent>)
    requires SortedTo(less, agents, |agents|, sorted)
    ensures Ascending(less, sorted) && forall a :: a in sorted <==> Counts(agents, a)
  {
  }

  /** There is one way to sort: whatever order the same records come in, the build sees them in one order. */
  lemma {:induction false} OneOrder(less: (Id, Id) -> bool, s: seq<Agent>, t: seq<Agent>)
    requires TotalOrder(less) && Ascending(less, s) && Ascending(less, t) && forall a :: a in s <==> a in t
    ensures s == t
  {
    AscendingRises(less, s);
    AscendingRises(less, t);
    S.OneOrder(less, ById, s, t);
  }

  // ---------------------------------------------------------------- buckets

  /** This counted record, among the first `n`, puts `x` in the team `home`. */
  ghost predicate Belongs(agents: seq<Agent>, n: nat, home: Id, x: Id) {
    exists k :: 0 <= k < n && IsLast(agents, k) && agents[k] == Agent(x, home)
  }

  /** The buckets hold exactly the counted records among the first `n`. */
  ghost predicate Holds(agents: seq<Agent>, n: nat, buckets: seq<Bucket>) {
    && WellBucketed(buckets)
    && (forall i, x :: 0 <= i < |buckets| && x in buckets[i].members ==> Belongs(agents, n, buckets[i].id, x))
    && (forall k :: 0 <= k < n && IsLast(agents, k) ==> InBucket(buckets, agents[k]))
  }

  ghost predicate InBucket(buckets: seq<Bucket>, a: Agent) {
    exists i :: 0 <= i < |buckets| && buckets[i].id == a.home && a.id in buckets[i].members
  }

  /** One record comes before the other in the list. */
  ghost predicate ListedBefore(agents: seq<Agent>, x: Id, y: Id) {
    exists j, k :: 0 <= j < k < |agents| && agents[j].id == x && agents[k].id == y
  }

  /** The members of every bucket are in the order of the list. */
  ghost predicate ListOrder(agents: seq<Agent>, buckets: seq<Bucket>) {
    forall i, p, q :: 0 <= i < |buckets| && 0 <= p < q < |buckets[i].members| ==>
      ListedBefore(agents, buckets[i].members[p], buckets[i].members[q])
  }

  method SortHome(agents: seq<Agent>) returns (buckets: seq<Bucket>)
    ensures Holds(agents, |agents|, buckets) && ListOrder(agents, buckets)
  {
    buckets := [];
    for k := 0 to |agents|
      invariant Holds(agents, k, buckets) && ListOrder(agents, buckets)
    {
      hide Holds, ListOrder;
      var last := CheckLast(agents, k);
      if last {
        var i := FindBucket(buckets, agents[k].home);
        AddedTo(agents, k, buckets, i);
        AddedInOrder(agents, k, buckets, i);
        buckets := AddTo(buckets, i, agents[k]);
      } else {
        Skipped(agents, k, buckets);
      }
    }
  }

  method CheckLast(agents: seq<Agent>, k: nat) returns (last: bool)
    requires k < |agents|
    ensures last <==> IsLast(agents, k)
  {
    last := true;
    for j := k + 1 to |agents|
      invariant last <==> forall i :: k < i < j ==> agents[i].id != agents[k].id
    {
      if agents[j].id == agents[k].id {
        last := false;
      }
    }
  }

  /** The team's bucket, or the place of a new one at the end. */
  method FindBucket(buckets: seq<Bucket>, home: Id) returns (i: nat)
    ensures i <= |buckets| && (i < |buckets| ==> buckets[i].id == home)
    ensures i == |buckets| ==> forall k :: 0 <= k < |buckets| ==> buckets[k].id != home
  {
    i := 0;
    while i < |buckets| && buckets[i].id != home
      invariant i <= |buckets| && forall k :: 0 <= k < i ==> buckets[k].id != home
    {
      i := i + 1;
    }
  }

  function AddTo(buckets: seq<Bucket>, i: nat, a: Agent): seq<Bucket>
    requires i <= |buckets|
  {
    if i < |buckets| then buckets[i := buckets[i].(members := buckets[i].members + [a.id])]
    else buckets + [Bucket(a.home, [a.id])]
  }

  lemma {:induction false} StillBelongs(agents: seq<Agent>, k: nat, home: Id, x: Id)
    requires Belongs(agents, k, home, x)
    ensures Belongs(agents, k + 1, home, x)
  {
    var j :| 0 <= j < k && IsLast(agents, j) && agents[j] == Agent(x, home);
    assert 0 <= j < k + 1;
  }

  lemma {:induction false} Skipped(agents: seq<Agent>, k: nat, buckets: seq<Bucket>)
    requires k < |agents| && Holds(agents, k, buckets) && !IsLast(agents, k)
    ensures Holds(agents, k + 1, buckets)
  {
    hide Belongs, WellBucketed, InBucket;
    forall i, x | 0 <= i < |buckets| && x in buckets[i].members
      ensures Belongs(agents, k + 1, buckets[i].id, x)
    {
      StillBelongs(agents, k, buckets[i].id, x);
    }
  }

  lemma {:induction false} NotBefore(agents: seq<Agent>, k: nat, home: Id)
    requires IsLast(agents, k)
    ensures !Belongs(agents, k, home, agents[k].id)
  {
  }

  /** The record being added is in no bucket yet. */
  lemma {:induction false} NotYetIn(agents: seq<Agent>, k: nat, buckets: seq<Bucket>, i: nat)
    requires k < |agents| && Holds(agents, k, buckets) && IsLast(agents, k) && i < |buckets|
    ensures agents[k].id !in buckets[i].members
  {
    hide WellBucketed;
    NotBefore(agents, k, buckets[i].id);
  }

  lemma {:induction false} AddedTo(agents: seq<Agent>, k: nat, buckets: seq<Bucket>, i: nat)
    requires k < |agents| && Holds(agents, k, buckets) && IsLast(agents, k)
    requires i <= |buckets| && (i < |buckets| ==> buckets[i].id == agents[k].home)
    requires i == |buckets| ==> forall j :: 0 <= j < |buckets| ==> buckets[j].id != agents[k].home
    ensures Holds(agents, k + 1, AddTo(buckets, i, agents[k]))
  {
    var more := AddTo(buckets, i, agents[k]);
    forall j | 0 <= j < |buckets|
      ensures agents[k].id !in buckets[j].members
    {
      NotYetIn(agents, k, buckets, j);
    }
    AddedBelong(agents, k, buckets, i);
    AddedHeld(agents, k, buckets, i);
    AddedWell(agents[k], buckets, i);
  }

  lemma {:induction false} AddedInOrder(agents: seq<Agent>, k: nat, buckets: seq<Bucket>, i: nat)
    requires k < |agents| && Holds(agents, k, buckets) && ListOrder(agents, buckets) && i <= |buckets|
    ensures ListOrder(agents, AddTo(buckets, i, agents[k]))
  {
    hide WellBucketed, InBucket, ListedBefore;
    var more := AddTo(buckets, i, agents[k]);
    forall j, p, q | 0 <= j < |more| && 0 <= p < q < |more[j].members|
      ensures ListedBefore(agents, more[j].members[p], more[j].members[q])
    {
      if j < |buckets| && q < |buckets[j].members| {
        assert ListedBefore(agents, buckets[j].members[p], buckets[j].members[q]);
      } else {
        LastListed(agents, k, buckets[j].id, buckets[j].members[p]);
      }
    }
  }

  lemma {:induction false} LastListed(agents: seq<Agent>, k: nat, home: Id, x: Id)
    requires k < |agents| && Belongs(agents, k, home, x)
    ensures ListedBefore(agents, x, agents[k].id)
  {
    var j :| 0 <= j < k && IsLast(agents, j) && agents[j] == Agent(x, home);
  }

  lemma {:induction false} AddedBelong(agents: seq<Agent>, k: nat, buckets: seq<Bucket>, i: nat)
    requires k < |agents| && IsLast(agents, k) && i <= |buckets| && (i < |buckets| ==> buckets[i].id == agents[k].home)
    requires forall i, x :: 0 <= i < |buckets| && x in buckets[i].members ==> Belongs(agents, k, buckets[i].id, x)
    ensures var more := AddTo(buckets, i, agents[k]);
            forall j, x :: 0 <= j < |more| && x in more[j].members ==> Belongs(agents, k + 1, more[j].id, x)
  {
    var more := AddTo(buckets, i, agents[k]);
    assert Belongs(agents, k + 1, agents[k].home, agents[k].id);
    hide Belongs, IsLast;
    forall j, x | 0 <= j < |more| && x in more[j].members
      ensures Belongs(agents, k + 1, more[j].id, x)
    {
      if j < |buckets| && x in buckets[j].members {
        StillBelongs(agents, k, buckets[j].id, x);
      } else {
        assert x == agents[k].id && more[j].id == agents[k].home;
      }
    }
  }

  lemma {:induction false} AddedHeld(agents: seq<Agent>, k: nat, buckets: seq<Bucket>, i: nat)
    requires k < |agents| && i <= |buckets| && (i < |buckets| ==> buckets[i].id == agents[k].home)
    requires forall j :: 0 <= j < k && IsLast(agents, j) ==> InBucket(buckets, agents[j])
    ensures forall j :: 0 <= j < k + 1 && IsLast(agents, j) ==> InBucket(AddTo(buckets, i, agents[k]), agents[j])
  {
    hide IsLast;
    var more := AddTo(buckets, i, agents[k]);
    assert more[i].id == agents[k].home && agents[k].id in more[i].members;
    forall j | 0 <= j < k && IsLast(agents, j)
      ensures InBucket(more, agents[j])
    {
      var b :| 0 <= b < |buckets| && buckets[b].id == agents[j].home && agents[j].id in buckets[b].members;
      assert more[b].id == agents[j].home && agents[j].id in more[b].members;
    }
  }

  lemma {:induction false} AddedWell(a: Agent, buckets: seq<Bucket>, i: nat)
    requires WellBucketed(buckets) && i <= |buckets|
    requires if i < |buckets| then buckets[i].id == a.home
             else forall j :: 0 <= j < |buckets| ==> buckets[j].id != a.home
    requires forall j :: 0 <= j < |buckets| ==> a.id !in buckets[j].members
    ensures WellBucketed(AddTo(buckets, i, a))
  {
  }

  // ---------------------------------------------------------------- the order of the buckets

  /** The place of a team in the list, behind all of them if it is not there. */
  function Rank(teams: seq<Team>, id: Id): (r: nat)
    ensures r <= |teams| && (r < |teams| ==> teams[r].id == id) && forall k :: 0 <= k < r ==> teams[k].id != id
  {
    RankFrom(teams, id, 0)
  }

  function RankFrom(teams: seq<Team>, id: Id, n: nat): (r: nat)
    requires n <= |teams| && forall k :: 0 <= k < n ==> teams[k].id != id
    ensures r <= |teams| && (r < |teams| ==> teams[r].id == id) && forall k :: 0 <= k < r ==> teams[k].id != id
    decreases |teams| - n
  {
    if n == |teams| || teams[n].id == id then n else RankFrom(teams, id, n + 1)
  }

  /** Teams in the order of the list, the others after them by id. */
  function RankOrder(teams: seq<Team>, collates: (Id, Id) -> bool): (Id, Id) -> bool {
    (a: Id, b: Id) => Rank(teams, a) < Rank(teams, b) || (Rank(teams, a) == Rank(teams, b) && collates(a, b))
  }

  lemma {:induction false} RankOrderTotal(teams: seq<Team>, collates: (Id, Id) -> bool)
    requires TotalOrder(collates)
    ensures TotalOrder(RankOrder(teams, collates))
  {
    hide Rank;
  }

  const ByTeam: Bucket -> Id := (b: Bucket) => b.id

  /** The ids of the buckets come in this order. */
  ghost predicate InIdOrder(order: (Id, Id) -> bool, buckets: seq<Bucket>) {
    forall i, j :: 0 <= i < j < |buckets| ==> order(buckets[i].id, buckets[j].id)
  }

  lemma {:induction false} IdOrderRises(order: (Id, Id) -> bool, s: seq<Bucket>)
    ensures InIdOrder(order, s) <==> S.Rises(order, ByTeam, s)
  {
    if InIdOrder(order, s) {
      forall i, j | 0 <= i < j < |s|
        ensures order(ByTeam(s[i]), ByTeam(s[j]))
      {
        assert order(s[i].id, s[j].id);
      }
    }
    if S.Rises(order, ByTeam, s) {
      forall i, j | 0 <= i < j < |s|
        ensures order(s[i].id, s[j].id)
      {
        assert order(ByTeam(s[i]), ByTeam(s[j]));
      }
    }
  }

  function Ordered(order: (Id, Id) -> bool, buckets: seq<Bucket>): (r: seq<Bucket>)
    ensures |r| == |buckets| && forall b :: b in r <==> b in buckets
  {
    S.Sorted(order, ByTeam, buckets)
  }

  lemma {:induction false} OrderedRises(order: (Id, Id) -> bool, buckets: seq<Bucket>)
    requires TotalOrder(order) && WellBucketed(buckets)
    ensures InIdOrder(order, Ordered(order, buckets))
  {
    forall i, j | 0 <= i < j < |buckets|
      ensures order(ByTeam(buckets[i]), ByTeam(buckets[j])) || order(ByTeam(buckets[j]), ByTeam(buckets[i]))
    {
      assert buckets[i].id != buckets[j].id;
      assert order(buckets[i].id, buckets[j].id) || order(buckets[j].id, buckets[i].id);
    }
    hide WellBucketed, InIdOrder;
    S.SortedRises(order, ByTeam, buckets);
    IdOrderRises(order, Ordered(order, buckets));
  }

  /** Sorting the buckets keeps them well filled. */
  lemma {:induction false} OrderedHolds(order: (Id, Id) -> bool, agents: seq<Agent>, buckets: seq<Bucket>)
    requires TotalOrder(order) && Holds(agents, |agents|, buckets) && ListOrder(agents, buckets)
    ensures Holds(agents, |agents|, Ordered(order, buckets)) && ListOrder(agents, Ordered(order, buckets))
  {
    OrderedRises(order, buckets);
    hide TotalOrder, Belongs, ListedBefore;
    var r := Ordered(order, buckets);
    OrderedWell(order, buckets, r);
    forall i, x | 0 <= i < |r| && x in r[i].members
      ensures Belongs(agents, |agents|, r[i].id, x)
    {
      var j := PlaceOf(buckets, r, i);
    }
    forall k | 0 <= k < |agents| && IsLast(agents, k)
      ensures InBucket(r, agents[k])
    {
      assert InBucket(buckets, agents[k]);
      var j :| 0 <= j < |buckets| && buckets[j].id == agents[k].home && agents[k].id in buckets[j].members;
      var i := PlaceOf(r, buckets, j);
    }
    forall i, p, q | 0 <= i < |r| && 0 <= p < q < |r[i].members|
      ensures ListedBefore(agents, r[i].members[p], r[i].members[q])
    {
      var j := PlaceOf(buckets, r, i);
    }
  }

  lemma {:induction false} PlaceOf(buckets: seq<Bucket>, r: seq<Bucket>, i: nat) returns (j: nat)
    requires i < |r| && forall b :: b in r ==> b in buckets
    ensures j < |buckets| && buckets[j] == r[i]
  {
    assert r[i] in buckets;
    j :| 0 <= j < |buckets| && buckets[j] == r[i];
  }

  lemma {:induction false} OrderedWell(order: (Id, Id) -> bool, buckets: seq<Bucket>, r: seq<Bucket>)
    requires TotalOrder(order) && WellBucketed(buckets) && InIdOrder(order, r) && forall b :: b in r <==> b in buckets
    ensures WellBucketed(r)
  {
    forall i, j | 0 <= i < j < |r|
      ensures r[i].id != r[j].id && forall a :: a in r[i].members ==> a !in r[j].members
    {
      assert order(r[i].id, r[j].id);
      var p := PlaceOf(buckets, r, i);
      var q := PlaceOf(buckets, r, j);
      assert p != q;
    }
    forall i | 0 <= i < |r|
      ensures r[i].members != [] && Distinct(r[i].members)
    {
      var p := PlaceOf(buckets, r, i);
    }
  }
}
