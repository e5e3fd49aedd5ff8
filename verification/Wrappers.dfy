/** Types and arithmetic shared by the components. */
module Wrappers {
  datatype Option<+T> = None | Some(value: T)

  datatype Result<+T, +E> = Success(value: T) | Failure(error: E)

  /** max(0, n) */
  function AtLeastZero(n: int): nat {
    if n < 0 then 0 else n
  }

  /** The first element that satisfies `p`. */
  function FirstWhere<T>(xs: seq<T>, p: T -> bool): (r: Option<T>)
    ensures r.Some? ==> r.value in xs && p(r.value)
    ensures r.None? ==> forall x :: x in xs ==> !p(x)
  {
    if xs == [] then None else if p(xs[0]) then Some(xs[0]) else FirstWhere(xs[1..], p)
  }

  /** A row added at the end is found only when there was none before. */
  lemma {:induction false} FoundStays<T>(xs: seq<T>, added: T, p: T -> bool)
    ensures FirstWhere(xs + [added], p)
            == if FirstWhere(xs, p).Some? then FirstWhere(xs, p) else if p(added) then Some(added) else None
    decreases |xs|
  {
    if xs != [] {
      FoundStays(xs[1..], added, p);
      assert (xs + [added])[1..] == xs[1..] + [added];
    }
  }

  ghost predicate Distinct<T(!new)>(s: seq<T>) {
    forall i, j :: 0 <= i < j < |s| ==> s[i] != s[j]
  }
}
