/** Sorting by insertion, for any order of the keys, and that it leaves no choice. */
module Sorting {
  import opened Common

  type Order = (Id, Id) -> bool

  ghost predicate Transitive(before: Order) {
    forall a, b, c :: before(a, b) && before(b, c) ==> before(a, c)
  }

  ghost predicate Irreflexive(before: Order) {
    forall a :: !before(a, a)
  }

  /** Each element comes before all later ones. */
  ghost predicate Rises<T(!new)>(before: Order, key: T -> Id, s: seq<T>) {
    forall i, j :: 0 <= i < j < |s| ==> before(key(s[i]), key(s[j]))
  }

  /** Put in behind the last element that comes before it. */
  function Inserted<T(!new)>(before: Order, key: T -> Id, s: seq<T>, a: T): (r: seq<T>)
    ensures |r| == |s| + 1 && forall x :: x in r <==> x in s || x == a
  {
    if s == [] then [a]
    else
      var init, last := s[..|s| - 1], s[|s| - 1];
      assert s == init + [last];
      if before(key(last), key(a)) then s + [a] else Inserted(before, key, init, a) + [last]
  }

  lemma {:induction false} InsertedRises<T(!new)>(before: Order, key: T -> Id, s: seq<T>, a: T)
    requires Transitive(before) && Rises(before, key, s)
             && forall x :: x in s ==> before(key(x), key(a)) || before(key(a), key(x))
    ensures Rises(before, key, Inserted(before, key, s, a))
  {
    if s != [] {
      var init, last := s[..|s| - 1], s[|s| - 1];
      if before(key(last), key(a)) {
        LastRises(before, key, s, a);
      } else {
        assert last in s && forall x :: x in init ==> x in s;
        InsertedRises(before, key, init, a);
        var r := Inserted(before, key, init, a);
        forall i | 0 <= i < |r|
          ensures before(key(r[i]), key(last))
        {
          assert r[i] in r;
          if r[i] in init {
            var k :| 0 <= k < |init| && init[k] == r[i];
            assert s[k] == r[i];
          }
        }
      }
    }
  }

  lemma {:induction false} LastRises<T(!new)>(before: Order, key: T -> Id, s: seq<T>, a: T)
    requires Transitive(before) && Rises(before, key, s) && s != [] && before(key(s[|s| - 1]), key(a))
    ensures Rises(before, key, s + [a])
  {
    forall i | 0 <= i < |s|
      ensures before(key(s[i]), key(a))
    {
      assert i < |s| - 1 ==> before(key(s[i]), key(s[|s| - 1]));
    }
  }

  /** Inserting one after another. */
  function Sorted<T(!new)>(before: Order, key: T -> Id, s: seq<T>): (r: seq<T>)
    ensures |r| == |s| && forall x :: x in r <==> x in s
  {
    if s == [] then []
    else
      assert s == s[..|s| - 1] + [s[|s| - 1]];
      Inserted(before, key, Sorted(before, key, s[..|s| - 1]), s[|s| - 1])
  }

  /** Any two of these are in order one way or the other. */
  ghost predicate Comparable<T(!new)>(before: Order, key: T -> Id, s: seq<T>) {
    forall i, j :: 0 <= i < j < |s| ==> before(key(s[i]), key(s[j])) || before(key(s[j]), key(s[i]))
  }

  lemma {:induction false} SortedRises<T(!new)>(before: Order, key: T -> Id, s: seq<T>)
    requires Transitive(before) && Comparable(before, key, s)
    ensures Rises(before, key, Sorted(before, key, s))
  {
    if s != [] {
      var n := |s| - 1;
      SortedRises(before, key, s[..n]);
      forall x | x in Sorted(before, key, s[..n])
        ensures before(key(x), key(s[n])) || before(key(s[n]), key(x))
      {
        var k :| 0 <= k < n && s[..n][k] == x;
        assert s[k] == x;
      }
      InsertedRises(before, key, Sorted(before, key, s[..n]), s[n]);
    }
  }

  /** There is one way to sort: whatever order the same elements come in, they rise in one order. */
  lemma {:induction false} OneOrder<T(!new)>(before: Order, key: T -> Id, s: seq<T>, t: seq<T>)
    requires Transitive(before) && Irreflexive(before) && Rises(before, key, s) && Rises(before, key, t)
    requires forall a :: a in s <==> a in t
    ensures s == t
  {
    assert t != [] ==> t[0] in t;
    if s != [] {
      assert s[0] in t;
      var i, j := |s| - 1, |t| - 1;
      LastIsGreatest(before, key, s, t);
      LastIsGreatest(before, key, t, s);
      assert s[i] == t[j];
      forall a
        ensures a in s[..i] <==> a in t[..j]
      {
        BeforeLast(before, key, s, a);
        BeforeLast(before, key, t, a);
      }
      OneOrder(before, key, s[..i], t[..j]);
      assert s == s[..i] + [s[i]] && t == t[..j] + [t[j]];
    }
  }

  lemma {:induction false} LastIsGreatest<T(!new)>(before: Order, key: T -> Id, s: seq<T>, t: seq<T>)
    requires Rises(before, key, s) && s != [] && t != [] && forall a :: a in t ==> a in s
    ensures t[|t| - 1] == s[|s| - 1] || before(key(t[|t| - 1]), key(s[|s| - 1]))
  {
    assert t[|t| - 1] in s;
    var k :| 0 <= k < |s| && s[k] == t[|t| - 1];
  }

  lemma {:induction false} BeforeLast<T(!new)>(before: Order, key: T -> Id, s: seq<T>, a: T)
    requires Irreflexive(before) && Rises(before, key, s) && s != []
    ensures a in s[..|s| - 1] <==> a in s && a != s[|s| - 1]
  {
    var n := |s| - 1;
    assert s == s[..n] + [s[n]];
    if a in s[..n] {
      var k :| 0 <= k < n && s[..n][k] == a;
      assert before(key(s[k]), key(s[n]));
    }
  }
}
