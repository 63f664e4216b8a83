/** Small concepts that several models share. */
module Basics {

  function Max(x: int, y: int): int {
    if x >= y then x else y
  }

  function Min(x: int, y: int): int {
    if x <= y then x else y
  }

  /** One more candidate for a set of numbers. */
  lemma OneMoreIn(here: set<nat>, more: set<nat>, n: nat, joins: bool)
    requires n !in here && forall i :: i in more <==> i in here || (joins && i == n)
    ensures |more| == |here| + if joins then 1 else 0
  {
    assert more == if joins then here + {n} else here;
  }

  lemma SizeOfParts(part: set<nat>, rest: set<nat>, whole: set<nat>)
    requires part !! rest && forall i :: i in whole <==> i in part || i in rest
    ensures |whole| == |part| + |rest|
  {
    assert whole == part + rest;
  }

  /** Renaming the elements of a set keeps its size. */
  lemma {:induction false} SizeOfImage<T(!new), U(!new)>(s: set<T>, image: set<U>, f: T -> U)
    requires forall x, y | x in s && y in s :: f(x) == f(y) ==> x == y
    requires image == set x | x in s :: f(x)
    ensures |image| == |s|
  {
    if s != {} {
      var x :| x in s;
      var rest := s - {x};
      var others := set y | y in rest :: f(y);
      SizeOfImage(rest, others, f);
      assert image == others + {f(x)};
    }
  }

  predicate NoRepeats<T(==)>(s: seq<T>) {
    forall i, j | 0 <= i < j < |s| :: s[i] != s[j]
  }

  lemma NoRepeatsRest<T>(s: seq<T>)
    requires NoRepeats(s) && s != []
    ensures NoRepeats(s[1..]) && s[0] !in s[1..]
    ensures forall x :: x in s <==> x == s[0] || x in s[1..]
  {
  }
}
