/** Runs of a step relation, and induction over them. */
module Runs {

  /** `s` arises from a start state after `n` steps. */
  ghost predicate After<S(!new), A(!new)>(start: S -> bool, next: (S, A, S) -> bool, s: S, n: nat)
    decreases n
  {
    if n == 0 then start(s)
    else exists p, a :: After(start, next, p, n - 1) && next(p, a, s)
  }

  ghost predicate Arises<S(!new), A(!new)>(start: S -> bool, next: (S, A, S) -> bool, s: S) {
    exists n: nat :: After(start, next, s, n)
  }

  /** What holds at the start and is kept by every step holds in every run. */
  lemma {:induction false} Invariant<S(!new), A(!new)>(start: S -> bool, next: (S, A, S) -> bool, inv: S -> bool, s: S, n: nat)
    requires forall p :: start(p) ==> inv(p)
    requires forall p, a, q :: next(p, a, q) ==> inv(p) ==> inv(q)
    requires After(start, next, s, n)
    ensures inv(s)
    decreases n
  {
    if n > 0 {
      var p, a :| After(start, next, p, n - 1) && next(p, a, s);
      Invariant(start, next, inv, p, n - 1);
    }
  }

  lemma ArisesInvariant<S(!new), A(!new)>(start: S -> bool, next: (S, A, S) -> bool, inv: S -> bool, s: S)
    requires forall p :: start(p) ==> inv(p)
    requires forall p, a, q :: next(p, a, q) ==> inv(p) ==> inv(q)
    requires Arises(start, next, s)
    ensures inv(s)
  {
    var n: nat :| After(start, next, s, n);
    Invariant(start, next, inv, s, n);
  }

  lemma ArisesNext<S(!new), A(!new)>(start: S -> bool, next: (S, A, S) -> bool, p: S, a: A, q: S)
    requires Arises(start, next, p) && next(p, a, q)
    ensures Arises(start, next, q)
  {
    var n: nat :| After(start, next, p, n);
    assert After(start, next, q, n + 1);
  }
}
