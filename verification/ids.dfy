/** Row identifiers and the ascending-id order in which the database lists rows. */
module Ids {

  /** Every table's primary key is a non-negative integer. */
  type Id = nat

  /** A least element of a non-empty set, found by removing one element at a time. */
  lemma LeastOf(s: set<Id>) returns (m: Id)
    requires s != {}
    ensures m in s && forall x :: x in s ==> m <= x
    decreases |s|
  {
    var y :| y in s;
    var rest := s - {y};
    if rest == {} {
      m := y;
      assert s == {y};
    } else {
      var least := LeastOf(rest);
      m := if y < least then y else least;
      forall x | x in s
        ensures m <= x
      {
        if x != y { assert x in rest; }
      }
    }
  }

  lemma MinExists(s: set<Id>)
    requires s != {}
    ensures exists m :: m in s && forall x :: x in s ==> m <= x
  {
    var m := LeastOf(s);
  }

  /** The smallest id of a non-empty set. */
  function SetMin(s: set<Id>): (m: Id)
    requires s != {}
    ensures m in s && forall x :: x in s ==> m <= x
  {
    MinExists(s);
    var m :| m in s && forall x :: x in s ==> m <= x;
    m
  }

  /**
   * The ids of `s` listed in ascending order, each exactly once (the order
   * itself is `SortedIdsAscending`, kept out of this contract so that
   * callers that only need the members do not pay for it).
   */
  function SortedIds(s: set<Id>): (r: seq<Id>)
    ensures |r| == |s|
    ensures forall x :: x in s <==> x in r
    decreases |s|
  {
    if s == {} then []
    else
      var m := SetMin(s);
      var rest := SortedIds(s - {m});
      var r := [m] + rest;
      assert forall x :: x in s <==> x in r by {
        forall x
          ensures x in s <==> x in r
        {
          assert x in r <==> x == m || x in rest;
        }
      }
      r
  }

  /** Strictly increasing, hence free of repeats. */
  predicate Ascending(r: seq<Id>)
  {
    forall i, j :: 0 <= i < j < |r| ==> r[i] < r[j]
  }

  /** `SortedIds` lists its ids in strictly increasing order. */
  lemma {:induction false} SortedIdsAscending(s: set<Id>)
    ensures Ascending(SortedIds(s))
    decreases |s|
  {
    if s != {} {
      var m := SetMin(s);
      var rest := SortedIds(s - {m});
      SortedIdsAscending(s - {m});
      var r := SortedIds(s);
      assert r == [m] + rest;
      forall i, j | 0 <= i < j < |r|
        ensures r[i] < r[j]
      {
        assert r[j] == rest[j - 1] && rest[j - 1] in rest;
        if i > 0 {
          assert r[i] == rest[i - 1];
        } else {
          assert rest[j - 1] in s - {m};
        }
      }
    }
  }

  /** A set with two different members has at least two elements. */
  lemma TwoMembers(s: set<Id>, a: Id, b: Id)
    requires a in s && b in s && a != b
    ensures |s| >= 2
  {
    var rest := s - {a};
    assert b in rest;
    assert |s| == |rest| + 1;
  }

  /** The contiguous block of ids `base`, ..., `base + n - 1`. */
  function IdRange(base: Id, n: nat): (r: set<Id>)
    ensures forall i :: i in r <==> base <= i < base + n
    ensures |r| == n
  {
    if n == 0 then {} else IdRange(base, n - 1) + {base + n - 1}
  }
}
