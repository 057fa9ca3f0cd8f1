/** General-purpose declarations the other modules share. */
module Wrappers {
  datatype Option<+T> = None | Some(value: T) {
    function GetOr(default: T): T {
      if Some? then value else default
    }
  }

  /** A nonempty set has an element. */
  lemma Pick<T>(s: set<T>) returns (x: T)
    requires s != {}
    ensures x in s
  {
    x :| x in s;
  }

  lemma {:induction false} SmallestExists(s: set<int>)
    requires s != {}
    ensures exists x :: x in s && forall y :: y in s ==> x <= y
    decreases |s|
  {
    var x := Pick(s);
    if s != {x} {
      var rest := s - {x};
      assert rest != {};
      SmallestExists(rest);
      var m :| m in rest && forall y :: y in rest ==> m <= y;
      var least := if x <= m then x else m;
      assert least in s && forall y :: y in s ==> y == x || y in rest;
      assert forall y :: y in s ==> least <= y;
    }
  }

  /** The first element of the sorted set. */
  function Smallest(s: set<int>): (x: int)
    requires s != {}
    ensures x in s && forall y :: y in s ==> x <= y
  {
    SmallestExists(s);
    var x :| x in s && forall y :: y in s ==> x <= y;
    x
  }

  ghost predicate AllDistinct<E>(s: seq<E>) {
    forall i, j :: 0 <= i < j < |s| ==> s[i] != s[j]
  }
}
