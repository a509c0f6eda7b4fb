/** Dependency layering of a project's streams, with cycles found and set aside. */
module ProjectLayers {
  import opened Common

  datatype Dependency = Dependency(id: Id, reason: string)
  datatype Stream = Stream(
    id: Id, dependencies: Option<seq<Dependency>>, dependsOn: Option<Dependency>, coordination: bool, agents: nat)
  datatype Edge = Edge(from: Id, to: Id, reason: string)
  datatype Warning = MissingDependency(stream: Id, id: Id) | CircularDependencies

  /** A listed dependency, or the single one of a stream without a list. */
  ghost predicate Needs(s: Stream, d: Dependency) {
    (s.dependencies.Some? && d in s.dependencies.value) || (s.dependencies.None? && s.dependsOn == Some(d))
  }

  function DependenciesOf(s: Stream): (deps: seq<Dependency>)
    ensures forall d :: d in deps <==> Needs(s, d)
  {
    if s.dependencies.Some? then s.dependencies.value
    else if s.dependsOn.Some? then [s.dependsOn.value] else []
  }

  function StreamIds(streams: seq<Stream>): (ids: seq<Id>)
    ensures forall id :: id in ids <==> exists s :: s in streams && s.id == id
  {
    if streams == [] then []
    else
      var init, last := streams[..|streams| - 1], streams[|streams| - 1];
      assert streams == init + [last];
      StreamIds(init) + [last.id]
  }

  // ---------------------------------------------------------------- known links

  function LinksTo(to: Id, deps: seq<Dependency>, known: seq<Id>): (edges: seq<Edge>)
    ensures forall e :: e in edges <==> e.to == to && e.from in known && Dependency(e.from, e.reason) in deps
  {
    if deps == [] then []
    else
      var init, last := deps[..|deps| - 1], deps[|deps| - 1];
      assert deps == init + [last];
      LinksTo(to, init, known) + if last.id in known then [Edge(last.id, to, last.reason)] else []
  }

  /** The dependency links whose both ends are streams of the project. */
  function KnownLinks(streams: seq<Stream>, known: seq<Id>): (edges: seq<Edge>)
    ensures forall e :: e in edges <==>
              e.from in known && exists s :: s in streams && s.id == e.to && Needs(s, Dependency(e.from, e.reason))
  {
    if streams == [] then []
    else
      var init, last := streams[..|streams| - 1], streams[|streams| - 1];
      assert streams == init + [last];
      KnownLinks(init, known) + LinksTo(last.id, DependenciesOf(last), known)
  }

  function MissingTo(to: Id, deps: seq<Dependency>, known: seq<Id>): (r: seq<Warning>)
    ensures forall w :: w in r <==>
            w.MissingDependency? && w.stream == to && w.id !in known && exists d :: d in deps && d.id == w.id
  {
    if deps == [] then []
    else
      var init, last := deps[..|deps| - 1], deps[|deps| - 1];
      assert deps == init + [last];
      MissingTo(to, init, known) + if last.id in known then [] else [MissingDependency(to, last.id)]
  }

  /** A stream of the project names something unknown as a dependency. */
  ghost predicate IsMissing(streams: seq<Stream>, known: seq<Id>, w: Warning) {
    && w.MissingDependency? && w.id !in known
    && exists s :: s in streams && s.id == w.stream && exists d :: Needs(s, d) && d.id == w.id
  }

  function Missing(streams: seq<Stream>, known: seq<Id>): (r: seq<Warning>)
    ensures forall w :: w in r <==> IsMissing(streams, known, w)
  {
    if streams == [] then []
    else
      var init, last := streams[..|streams| - 1], streams[|streams| - 1];
      assert streams == init + [last];
      Missing(init, known) + MissingTo(last.id, DependenciesOf(last), known)
  }

  // ---------------------------------------------------------------- paths and cycles

  predicate Links(edges: seq<Edge>, u: Id, v: Id) {
    exists e :: e in edges && e.from == u && e.to == v
  }

  ghost predicate IsPath(edges: seq<Edge>, p: seq<Id>) {
    p != [] && forall k :: 0 <= k < |p| - 1 ==> Links(edges, p[k], p[k + 1])
  }

  /** A walk along the links that comes back to where it began. */
  ghost predicate IsCycle(edges: seq<Edge>, p: seq<Id>) {
    IsPath(edges, p) && |p| >= 2 && p[0] == p[|p| - 1]
  }

  ghost predicate HasCycle(edges: seq<Edge>) {
    exists p :: IsCycle(edges, p)
  }

  /** A walk from a stream on a cycle to this stream, which may be the same one. */
  ghost predicate Taints(edges: seq<Edge>, c: seq<Id>, p: seq<Id>, v: Id) {
    IsCycle(edges, c) && IsPath(edges, p) && p[0] == c[0] && p[|p| - 1] == v
  }

  /** On a cycle, or downstream of one. */
  ghost predicate Tainted(edges: seq<Edge>, v: Id) {
    exists c, p :: Taints(edges, c, p, v)
  }

  // ---------------------------------------------------------------- waves

  /** What stands earlier in `r` stands earlier in `s`. */
  ghost predicate KeepsOrder(s: seq<Id>, r: seq<Id>) {
    forall i, j :: 0 <= i < j < |r| ==> Earlier(s, r[i], r[j])
  }

  ghost predicate Earlier(s: seq<Id>, u: Id, v: Id) {
    exists a, b :: 0 <= a < b < |s| && s[a] == u && s[b] == v
  }

  /** Leaving something out or adding the last keeps the order. */
  lemma {:induction false} KeepsOrderSnoc(s: seq<Id>, r: seq<Id>, last: Id)
    requires KeepsOrder(s, r) && forall id :: id in r ==> id in s
    ensures KeepsOrder(s + [last], r) && KeepsOrder(s + [last], r + [last])
  {
    var more := s + [last];
    forall i, j | 0 <= i < j < |r|
      ensures Earlier(more, r[i], r[j])
    {
      assert Earlier(s, r[i], r[j]);
      var a, b :| 0 <= a < b < |s| && s[a] == r[i] && s[b] == r[j];
      assert more[a] == r[i] && more[b] == r[j];
    }
    forall i, j | 0 <= i < j < |r + [last]|
      ensures Earlier(more, (r + [last])[i], (r + [last])[j])
    {
      if j == |r| {
        assert r[i] in r;
        var a :| 0 <= a < |s| && s[a] == r[i];
        assert more[a] == r[i] && more[|s|] == last;
      } else {
        assert Earlier(more, r[i], r[j]);
      }
    }
  }

  lemma {:induction false} KeepsOrderJoin(s: seq<Id>, r: seq<Id>, q: seq<Id>)
    requires KeepsOrder(s, r) && KeepsOrder(r, q)
    ensures KeepsOrder(s, q)
  {
    forall i, j | 0 <= i < j < |q|
      ensures Earlier(s, q[i], q[j])
    {
      assert Earlier(r, q[i], q[j]);
      var a, b :| 0 <= a < b < |r| && r[a] == q[i] && r[b] == q[j];
      assert Earlier(s, r[a], r[b]);
    }
  }

  lemma {:induction false} KeepsItsOrder(s: seq<Id>)
    ensures KeepsOrder(s, s)
  {
    forall i, j | 0 <= i < j < |s|
      ensures Earlier(s, s[i], s[j])
    {
    }
  }

  function Ready(remaining: seq<Id>, edges: seq<Edge>, waiting: seq<Id>): (r: seq<Id>)
    ensures forall id :: id in r <==> id in remaining && !HasWaitingSource(edges, waiting, id)
    ensures Distinct(remaining) ==> Distinct(r)
    ensures KeepsOrder(remaining, r)
  {
    if remaining == [] then []
    else
      var init, last := remaining[..|remaining| - 1], remaining[|remaining| - 1];
      assert remaining == init + [last];
      assert Distinct(remaining) ==> Distinct(init) && last !in init;
      var rest := Ready(init, edges, waiting);
      KeepsOrderSnoc(init, rest, last);
      if HasWaitingSource(edges, waiting, last) then rest else rest + [last]
  }

  function Minus(s: seq<Id>, t: seq<Id>): (r: seq<Id>)
    ensures forall id :: id in r <==> id in s && id !in t
    ensures Distinct(s) ==> Distinct(r)
    ensures |r| <= |s| && ((exists id :: id in s && id in t) ==> |r| < |s|)
    ensures KeepsOrder(s, r)
  {
    if s == [] then []
    else
      var init, last := s[..|s| - 1], s[|s| - 1];
      assert s == init + [last];
      var rest := Minus(init, t);
      KeepsOrderSnoc(init, rest, last);
      if last in t then rest else rest + [last]
  }

  /** Waves cover exactly these ids, each id in one wave once. */
  ghost predicate Covers(waves: seq<seq<Id>>, ids: set<Id>) {
    && (forall k :: 0 <= k < |waves| ==> Distinct(waves[k]) && waves[k] != [])
    && (forall k, v :: 0 <= k < |waves| && v in waves[k] ==> v in ids)
    && (forall v :: v in ids ==> exists k :: 0 <= k < |waves| && v in waves[k])
    && (forall j, k, v :: 0 <= j < |waves| && 0 <= k < |waves| && v in waves[j] && v in waves[k] ==> j == k)
  }

  /** Everything a stream in a wave depends on stands in an earlier wave. */
  ghost predicate Layered(waves: seq<seq<Id>>, edges: seq<Edge>) {
    forall k, e :: 0 <= k < |waves| && e in edges && e.to in waves[k] ==> Before(waves, k, e.from)
  }

  /** No stream waits longer than it must: each later wave depends directly on the one just before. */
  ghost predicate Eager(waves: seq<seq<Id>>, edges: seq<Edge>) {
    forall k, v :: 0 < k < |waves| && v in waves[k] ==> HasWaitingSource(edges, waves[k - 1], v)
  }

  predicate Before(waves: seq<seq<Id>>, k: nat, v: Id) {
    exists j :: 0 <= j < k && j < |waves| && v in waves[j]
  }

  function Contents(s: seq<Id>): set<Id> {
    set id | id in s
  }

  /**
   Peel off the streams whose dependencies are done. What is left over is exactly what lies on or downstream of a
   cycle; everything else is layered after all it depends on.
   */
  method PeelWaves(ids: seq<Id>, edges: seq<Edge>) returns (waves: seq<seq<Id>>, stuck: seq<Id>)
    requires Distinct(ids)
    requires forall e :: e in edges ==> e.from in ids && e.to in ids
    ensures Covers(waves, Contents(ids) - Contents(stuck)) && Layered(waves, edges) && Eager(waves, edges)
    ensures Distinct(stuck) && forall id :: id in stuck <==> id in ids && Tainted(edges, id)
    ensures stuck != [] <==> HasCycle(edges)
    ensures KeepsOrder(ids, stuck) && forall k :: 0 <= k < |waves| ==> KeepsOrder(ids, waves[k])
  {
    hide HasWaitingSource, Covers, Layered, Eager, Distinct, KeepsOrder;
    KeepsItsOrder(ids);
    waves := [];
    var remaining := ids;
    var blocked := false;
    NonePeeled(ids, edges);
    while remaining != [] && !blocked
      invariant Distinct(remaining) && forall id :: id in remaining ==> id in ids
      invariant Covers(waves, Contents(ids) - Contents(remaining)) && Layered(waves, edges)
      invariant Eager(waves, edges)
      invariant KeepsOrder(ids, remaining) && forall k :: 0 <= k < |waves| ==> KeepsOrder(ids, waves[k])
      invariant waves != [] ==> forall v :: v in remaining ==>
                                  HasWaitingSource(edges, waves[|waves| - 1] + remaining, v)
      invariant blocked ==> remaining != [] && forall v :: v in remaining ==> HasWaitingSource(edges, remaining, v)
      decreases |remaining|, !blocked
    {
      var ready := Ready(remaining, edges, remaining);
      if ready == [] {
        blocked := true;
        assert forall v :: v in remaining ==> HasWaitingSource(edges, remaining, v) by {
          forall v | v in remaining
            ensures HasWaitingSource(edges, remaining, v)
          {
            assert v !in ready;
          }
        }
      } else {
        var rest := Minus(remaining, ready);
        assert ready[0] in remaining && ready[0] in ready;
        WaveAdded(waves, ids, edges, remaining, ready, rest);
        WaveEager(waves, edges, remaining, ready, rest);
        KeepsOrderJoin(ids, remaining, ready);
        KeepsOrderJoin(ids, remaining, rest);
        waves := waves + [ready];
        remaining := rest;
      }
    }
    stuck := remaining;
    StuckIsTainted(waves, ids, edges, stuck);
  }

  predicate HasWaitingSource(edges: seq<Edge>, waiting: seq<Id>, v: Id) {
    exists e :: e in edges && e.to == v && e.from in waiting
  }

  lemma {:induction false} NonePeeled(ids: seq<Id>, edges: seq<Edge>)
    ensures Covers([], Contents(ids) - Contents(ids)) && Layered([], edges) && Eager([], edges)
  {
  }

  lemma {:induction false} WaveEager(waves: seq<seq<Id>>, edges: seq<Edge>, remaining: seq<Id>, ready: seq<Id>,
                                     rest: seq<Id>)
    requires Eager(waves, edges)
    requires waves != [] ==> forall v :: v in remaining ==> HasWaitingSource(edges, waves[|waves| - 1] + remaining, v)
    requires forall id :: id in ready <==> id in remaining && !HasWaitingSource(edges, remaining, id)
    requires forall id :: id in rest <==> id in remaining && id !in ready
    ensures Eager(waves + [ready], edges)
    ensures forall v :: v in rest ==> HasWaitingSource(edges, ready + rest, v)
  {
    var more := waves + [ready];
    forall k, v | 0 < k < |more| && v in more[k]
      ensures HasWaitingSource(edges, more[k - 1], v)
    {
      if k == |waves| {
        assert HasWaitingSource(edges, waves[|waves| - 1] + remaining, v);
        var e :| e in edges && e.to == v && e.from in waves[|waves| - 1] + remaining;
        assert e.from !in remaining;
      } else {
        assert HasWaitingSource(edges, waves[k - 1], v);
      }
    }
    forall v | v in rest
      ensures HasWaitingSource(edges, ready + rest, v)
    {
      var e :| e in edges && e.to == v && e.from in remaining;
    }
  }

  lemma {:induction false} WaveAdded(waves: seq<seq<Id>>, ids: seq<Id>, edges: seq<Edge>, remaining: seq<Id>,
                                     ready: seq<Id>, rest: seq<Id>)
    requires forall e :: e in edges ==> e.from in ids && e.to in ids
    requires forall id :: id in remaining ==> id in ids
    requires Covers(waves, Contents(ids) - Contents(remaining)) && Layered(waves, edges)
    requires ready != [] && Distinct(ready)
    requires forall id :: id in ready ==> id in remaining && !HasWaitingSource(edges, remaining, id)
    requires forall id :: id in rest <==> id in remaining && id !in ready
    ensures Covers(waves + [ready], Contents(ids) - Contents(rest)) && Layered(waves + [ready], edges)
  {
    var more := waves + [ready];
    var done, now := Contents(ids) - Contents(remaining), Contents(ids) - Contents(rest);
    assert now == done + Contents(ready) && done !! Contents(ready);
    assert forall v :: v in ready <==> v in Contents(ready);
    forall v | v in now
      ensures exists k :: 0 <= k < |more| && v in more[k]
    {
      if v in ready {
        assert v in more[|waves|];
      } else {
        var k :| 0 <= k < |waves| && v in waves[k];
        assert v in more[k];
      }
    }
    forall k, e | 0 <= k < |more| && e in edges && e.to in more[k]
      ensures Before(more, k, e.from)
    {
      if k == |waves| {
        assert e.from in done;
        var j :| 0 <= j < |waves| && e.from in waves[j];
        assert e.from in more[j];
      } else {
        assert Before(waves, k, e.from);
        var j :| 0 <= j < k && j < |waves| && e.from in waves[j];
        assert e.from in more[j];
      }
    }
  }

  /** Walking up a path, each step stands in a strictly earlier wave. */
  lemma {:induction false} RanksFall(waves: seq<seq<Id>>, edges: seq<Edge>, p: seq<Id>, k: nat)
    requires Layered(waves, edges) && IsPath(edges, p) && k < |waves| && p[|p| - 1] in waves[k]
    ensures exists j :: 0 <= j && j + (|p| - 1) <= k && p[0] in waves[j]
    decreases |p|
  {
    if |p| > 1 {
      var n := |p| - 1;
      assert Links(edges, p[n - 1], p[n - 1 + 1]);
      var e :| e in edges && e.from == p[n - 1] && e.to == p[n];
      assert Before(waves, k, e.from);
      var j :| 0 <= j < k && j < |waves| && e.from in waves[j];
      RanksFall(waves, edges, p[..n], j);
    }
  }

  /** A layered stream is neither on a cycle nor downstream of one. */
  lemma {:induction false} LayeredIsClean(waves: seq<seq<Id>>, ids: set<Id>, edges: seq<Edge>, v: Id)
    requires Covers(waves, ids) && Layered(waves, edges) && v in ids
    ensures !Tainted(edges, v)
  {
    if Tainted(edges, v) {
      var c, p :| Taints(edges, c, p, v);
      var k :| 0 <= k < |waves| && v in waves[k];
      RanksFall(waves, edges, p, k);
      var j :| 0 <= j && j + (|p| - 1) <= k && p[0] in waves[j];
      RanksFall(waves, edges, c, j);
    }
  }

  /** Where every stream waits for another waiting one, walks back can be made as long as one likes. */
  lemma {:induction false} WalkBack(edges: seq<Edge>, stuck: seq<Id>, v: Id, n: nat) returns (p: seq<Id>)
    requires v in stuck && forall u :: u in stuck ==> HasWaitingSource(edges, stuck, u)
    ensures |p| == n + 1 && IsPath(edges, p) && p[n] == v && forall u :: u in p ==> u in stuck
    decreases n
  {
    if n == 0 {
      p := [v];
    } else {
      assert HasWaitingSource(edges, stuck, v);
      var e :| e in edges && e.to == v && e.from in stuck;
      var q := WalkBack(edges, stuck, e.from, n - 1);
      p := q + [v];
      assert Links(edges, q[n - 1], v);
      assert forall k :: 0 <= k < |p| - 1 ==> Links(edges, p[k], p[k + 1]) by {
        forall k | 0 <= k < |p| - 1
          ensures Links(edges, p[k], p[k + 1])
        {
          if k < n - 1 {
            assert Links(edges, q[k], q[k + 1]);
          }
        }
      }
    }
  }

  /** More places than values: some value repeats. */
  lemma {:induction false} Pigeonhole(p: seq<Id>, values: set<Id>) returns (i: nat, j: nat)
    requires |p| > |values| && forall u :: u in p ==> u in values
    ensures i < j < |p| && p[i] == p[j]
    decreases |p|
  {
    var last := p[|p| - 1];
    var init := p[..|p| - 1];
    if last in init {
      i :| 0 <= i < |init| && init[i] == last;
      j := |p| - 1;
    } else {
      assert last in p;
      i, j := Pigeonhole(init, values - {last});
    }
  }

  lemma {:induction false} StuckIsTainted(waves: seq<seq<Id>>, ids: seq<Id>, edges: seq<Edge>, stuck: seq<Id>)
    requires forall e :: e in edges ==> e.from in ids && e.to in ids
    requires forall id :: id in stuck ==> id in ids
    requires Covers(waves, Contents(ids) - Contents(stuck)) && Layered(waves, edges)
    requires forall v :: v in stuck ==> HasWaitingSource(edges, stuck, v)
    ensures forall id :: id in stuck <==> id in ids && Tainted(edges, id)
    ensures stuck != [] <==> HasCycle(edges)
  {
    forall v | v in ids
      ensures v in stuck <==> Tainted(edges, v)
    {
      if v in stuck {
        var c, p := FindCycle(edges, stuck, v);
        assert Taints(edges, c, p, v);
      } else {
        LayeredIsClean(waves, Contents(ids) - Contents(stuck), edges, v);
      }
    }
    if stuck != [] {
      var c, p := FindCycle(edges, stuck, stuck[0]);
      assert IsCycle(edges, c);
    }
    if HasCycle(edges) {
      var c :| IsCycle(edges, c);
      assert Links(edges, c[0], c[0 + 1]);
      assert IsPath(edges, [c[0]]) && Taints(edges, c, [c[0]], c[0]);
      assert c[0] in ids && Tainted(edges, c[0]);
    }
  }

  lemma {:induction false} FindCycle(edges: seq<Edge>, stuck: seq<Id>, v: Id) returns (c: seq<Id>, p: seq<Id>)
    requires v in stuck && forall u :: u in stuck ==> HasWaitingSource(edges, stuck, u)
    ensures Taints(edges, c, p, v)
  {
    var w := WalkBack(edges, stuck, v, |Contents(stuck)|);
    var i, j := Pigeonhole(w, Contents(stuck));
    c, p := w[i..j + 1], w[i..];
    PathPart(edges, w, i, j + 1);
    PathPart(edges, w, i, |w|);
  }

  lemma {:induction false} PathPart(edges: seq<Edge>, w: seq<Id>, i: nat, j: nat)
    requires IsPath(edges, w) && i < j <= |w|
    ensures IsPath(edges, w[i..j])
  {
    forall k | 0 <= k < |w[i..j]| - 1
      ensures Links(edges, w[i..j][k], w[i..j][k + 1])
    {
      assert Links(edges, w[i + k], w[i + k + 1]);
    }
  }
}
