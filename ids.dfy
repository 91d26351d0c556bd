/** Sets of ids: a non-empty set has a member and a least member. */
module Ids {

  lemma NonEmptyHasMember(s: set<int>)
    requires s != {}
    ensures exists x :: x in s
  {
    if forall x :: x !in s {
      assert false;
    }
  }

  predicate IsLeast(k: int, s: set<int>) {
    k in s && forall j :: j in s ==> k <= j
  }

  lemma {:induction false} MinExists(s: set<int>)
    requires s != {}
    ensures exists k :: IsLeast(k, s)
    decreases s
  {
    NonEmptyHasMember(s);
    var x :| x in s;
    var rest := s - {x};
    if rest == {} {
      forall j | j in s ensures x <= j {
        assert j !in rest;
      }
      assert IsLeast(x, s);
    } else {
      MinExists(rest);
      var k :| IsLeast(k, rest);
      var m := if x < k then x else k;
      forall j | j in s ensures m <= j {
        if j != x { assert j in rest; }
      }
      assert IsLeast(m, s);
    }
  }

  /** The least id of a non-empty set (the first row of an id-ordered table). */
  function MinKey(s: set<int>): (k: int)
    requires s != {}
    ensures k in s && forall j :: j in s ==> k <= j
  {
    MinExists(s);
    var k :| IsLeast(k, s); k
  }
}
