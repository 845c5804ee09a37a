/** Result types and ordered enumeration of identifier sets. */
module Basics {

  datatype Option<+T> = None | Some(value: T)

  datatype Result<+T, +E> = Ok(value: T) | Err(error: E)

  const U64_MAX: nat := 0xFFFF_FFFF_FFFF_FFFF

  ghost predicate Distinct<T>(xs: seq<T>) { forall i, j :: 0 <= i < j < |xs| ==> xs[i] != xs[j] }

  /** The clock never goes back. */
  predicate Monotone(xs: seq<nat>) { forall i, j :: 0 <= i < j < |xs| ==> xs[i] <= xs[j] }

  /** Strictly increasing sequences: what iterating a `BTreeMap` yields. */
  predicate Increasing(xs: seq<nat>) {
    forall i, j :: 0 <= i < j < |xs| ==> xs[i] < xs[j]
  }

  /** The least element of a non-empty set of identifiers. */
  function Least(s: set<nat>): (m: nat)
    requires s != {}
    ensures m in s && forall x :: x in s ==> m <= x
  {
    LeastExists(s);
    var m :| m in s && forall x :: x in s ==> m <= x;
    m
  }

  lemma {:induction false} LeastExists(s: set<nat>)
    requires s != {}
    ensures exists m :: m in s && forall x :: x in s ==> m <= x
  {
    var y :| y in s;
    var rest := s - {y};
    if rest == {} {
      assert s == {y} by {
        assert s <= rest + {y};
      }
    } else {
      LeastExists(rest);
      var m :| m in rest && forall x :: x in rest ==> m <= x;
      var k := if m < y then m else y;
      assert forall x :: x in s ==> x == y || x in rest;
      assert k in s && forall x :: x in s ==> k <= x;
    }
  }

  /** The elements of `s` in the order in which a `BTreeMap` keyed by them is iterated. */
  function Ascending(s: set<nat>): (xs: seq<nat>)
    ensures forall x :: x in xs <==> x in s
    ensures Increasing(xs)
    ensures |xs| == |s|
  {
    if s == {} then [] else
    var m := Least(s);
    [m] + Ascending(s - {m})
  }
}
