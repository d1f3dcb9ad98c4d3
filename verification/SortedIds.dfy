/** Sets of ids listed in order, as ORDER BY lists them. */
module SortedIds {

  function Elements(ids: seq<nat>): set<nat> {
    set x | x in ids
  }

  ghost predicate IsLeastBy(s: set<nat>, key: nat -> int, x: nat) {
    x in s && forall y :: y in s ==> key(x) <= key(y)
  }

  /** ORDER BY ... LIMIT 1 has an answer. */
  lemma {:induction false} LeastBy(s: set<nat>, key: nat -> int)
    requires s != {}
    ensures exists x :: IsLeastBy(s, key, x)
    decreases |s|
  {
    var x :| x in s;
    var rest := s - {x};
    if rest == {} {
      assert s == {x};
      assert IsLeastBy(s, key, x);
    } else {
      LeastBy(rest, key);
      var y :| IsLeastBy(rest, key, y);
      assert forall z :: z in s ==> z == x || z in rest;
      assert IsLeastBy(s, key, if key(y) <= key(x) then y else x);
    }
  }

  predicate IsLeast(s: set<nat>, m: nat) {
    m in s && forall x :: x in s ==> m <= x
  }

  lemma LeastExists(s: set<nat>)
    requires s != {}
    ensures exists m :: m in s && IsLeast(s, m)
  {
    var id := (x: nat) => x;
    LeastBy(s, id);
    var m :| IsLeastBy(s, id, m);
    assert IsLeast(s, m);
  }

  function Min(s: set<nat>): (m: nat)
    requires s != {}
    ensures IsLeast(s, m)
  {
    LeastExists(s);
    var m :| m in s && IsLeast(s, m);
    m
  }

  ghost predicate Ascending(r: seq<nat>) {
    forall i, j :: 0 <= i < j < |r| ==> r[i] < r[j]
  }

  lemma LeastFirst(s: set<nat>, m: nat, rest: seq<nat>)
    requires IsLeast(s, m) && Ascending(rest) && forall x :: x in rest <==> x in s - {m}
    ensures Ascending([m] + rest) && forall x :: x in [m] + rest <==> x in s
  {
    forall i, j | 0 <= i < j < |[m] + rest| ensures ([m] + rest)[i] < ([m] + rest)[j] {
      assert rest[j - 1] in rest;
    }
  }

  /** ORDER BY case_id */
  function Sorted(s: set<nat>): (r: seq<nat>)
    ensures |r| == |s| && (forall x :: x in r <==> x in s)
    ensures Ascending(r)
    decreases |s|
  {
    if s == {} then []
    else
      var m := Min(s);
      var rest := Sorted(s - {m});
      LeastFirst(s, m, rest);
      [m] + rest
  }

  lemma {:induction false} AscendingCount(s: seq<nat>)
    requires Ascending(s)
    ensures |Elements(s)| == |s|
  {
    if s != [] {
      AscendingCount(s[1..]);
      assert Elements(s) == {s[0]} + Elements(s[1..]);
    }
  }
}
