/** Sequences without repetitions, and the array functions the jobs use on lists. */
module Sequences {
  function Elems<T>(q: seq<T>): set<T> { set x | x in q }

  ghost predicate Distinct<T>(q: seq<T>) { forall i, j :: 0 <= i < j < |q| ==> q[i] != q[j] }

  /** `map`. */
  function Map<T, U>(f: T -> U, q: seq<T>): (r: seq<U>)
    ensures |r| == |q| && forall i :: 0 <= i < |q| ==> r[i] == f(q[i])
  {
    if q == [] then [] else Map(f, q[..|q| - 1]) + [f(q[|q| - 1])]
  }

  /** `findIndex`: the first element that satisfies p, -1 if none does. */
  function FindIndex<T>(q: seq<T>, p: T -> bool): (i: int)
    ensures -1 <= i < |q|
    ensures i >= 0 ==> p(q[i]) && forall j :: 0 <= j < i ==> !p(q[j])
    ensures i == -1 ==> forall j :: 0 <= j < |q| ==> !p(q[j])
  {
    if q == [] then -1
    else
      var i := FindIndex(q[..|q| - 1], p);
      if i != -1 then i else if p(q[|q| - 1]) then |q| - 1 else -1
  }
}
