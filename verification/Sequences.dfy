/** Sequences taken apart at their end. */
module Sequences {
  function Last<T>(s: seq<T>): T
    requires s != []
  {
    s[|s| - 1]
  }

  function AllButLast<T>(s: seq<T>): seq<T>
    requires s != []
  {
    s[..|s| - 1]
  }

  function Concat<T>(parts: seq<seq<T>>): seq<T> {
    if parts == [] then [] else Concat(AllButLast(parts)) + Last(parts)
  }

  // The parts come one after another, the first one first.
  lemma {:induction false} ConcatInOrder<T>(first: seq<T>, rest: seq<seq<T>>)
    ensures Concat([first] + rest) == first + Concat(rest)
    decreases |rest|
  {
    var parts := [first] + rest;
    if rest == [] {
      assert AllButLast(parts) == [] && Last(parts) == first;
    } else {
      assert AllButLast(parts) == [first] + AllButLast(rest) && Last(parts) == Last(rest);
      ConcatInOrder(first, AllButLast(rest));
    }
  }
}
