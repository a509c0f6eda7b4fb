/** Small shared vocabulary of the workspace models. */
module Common {

  datatype Option<+T> = None | Some(value: T)

  /** Identifiers of agents, hosts, interactions and teams. */
  type Id = string

  type Byte = x: int | 0 <= x < 256
  type Bytes = seq<Byte>

  const LF: Byte := 10
  const CR: Byte := 13

  datatype Point = Point(x: real, y: real)

  /** A sequence in which no value occurs twice. */
  ghost predicate Distinct<T(!new)>(s: seq<T>) {
    forall i, j :: 0 <= i < j < |s| ==> s[i] != s[j]
  }

  /** The values of a sequence in order of first occurrence. */
  function Firsts(s: seq<Id>): (r: seq<Id>)
    ensures Distinct(r) && forall id :: id in r <==> id in s
  {
    if s == [] then []
    else
      var init := Firsts(s[..|s| - 1]);
      var last := s[|s| - 1];
      assert s == s[..|s| - 1] + [last];
      if last in init then init else init + [last]
  }
}
