/** Optional values, results and filtering, shared by every module. */
module Wrappers {
  datatype Option<+T> = None | Some(value: T)

  datatype Result<+T> = Ok(value: T) | Err(message: string)

  function Last<T>(s: seq<T>): T
    requires |s| > 0
  {
    s[|s| - 1]
  }

  ghost predicate Ascending(positions: seq<nat>) {
    forall i, j :: 0 <= i < j < |positions| ==> positions[i] < positions[j]
  }

  lemma {:induction false} FilterSnoc<T(!new)>(s: seq<T>, x: T, p: T -> bool)
    ensures Filter(s + [x], p) == Filter(s, p) + if p(x) then [x] else []
  {
    if s == [] {
      assert [x][1..] == [];
    } else {
      assert (s + [x])[1..] == s[1..] + [x];
      FilterSnoc(s[1..], x, p);
    }
  }

  /** The positions with a property, in order. */
  ghost function Positions<T(!new)>(s: seq<T>, p: T -> bool): seq<nat> {
    if s == [] then [] else
      var n := |s| - 1;
      Positions(s[..n], p) + if p(s[n]) then [n] else []
  }

  lemma {:induction false} PositionsSpec<T(!new)>(s: seq<T>, p: T -> bool)
    ensures Ascending(Positions(s, p))
    ensures forall k: nat :: k in Positions(s, p) <==> k < |s| && p(s[k])
  {
    if s != [] {
      var n := |s| - 1;
      PositionsSpec(s[..n], p);
      var front := Positions(s[..n], p);
      forall k: nat ensures k in Positions(s, p) <==> k in front || (k == n && p(s[n])) {
      }
      forall i | 0 <= i < |front| ensures front[i] < n {
        assert front[i] in front;
      }
    }
  }

  /** Filtering keeps exactly the positions with the property, each once and in their order. */
  lemma {:induction false} FilterKeepsPositions<T(!new)>(s: seq<T>, p: T -> bool)
    ensures |Filter(s, p)| == |Positions(s, p)|
    ensures forall i :: 0 <= i < |Positions(s, p)| ==>
      Positions(s, p)[i] < |s| && Filter(s, p)[i] == s[Positions(s, p)[i]]
  {
    if s != [] {
      var n := |s| - 1;
      assert s == s[..n] + [s[n]];
      FilterSnoc(s[..n], s[n], p);
      FilterKeepsPositions(s[..n], p);
    }
  }

  function Filter<T(!new)>(s: seq<T>, p: T -> bool): (r: seq<T>)
    ensures forall x :: x in r <==> x in s && p(x)
  {
    if s == [] then [] else (if p(s[0]) then [s[0]] else []) + Filter(s[1..], p)
  }
}
