/** Finite sequences of steps of a transition relation. */
module Paths {

  ghost predicate Within<S(!new)>(next: (S, S) -> bool, s: S, u: S, n: nat) {
    if n == 0 then u == s else exists m :: next(s, m) && Within(next, m, u, n - 1)
  }

  ghost predicate Reaches<S(!new)>(next: (S, S) -> bool, s: S, u: S) { exists n :: Within(next, s, u, n) }

  lemma {:induction false} WithinThen<S(!new)>(next: (S, S) -> bool, s: S, m: S, u: S, a: nat, b: nat)
    requires Within(next, s, m, a) && Within(next, m, u, b)
    ensures Within(next, s, u, a + b)
    decreases a
  {
    if a > 0 {
      var t :| next(s, t) && Within(next, t, m, a - 1);
      WithinThen(next, t, m, u, a - 1, b);
    }
  }

  lemma Stay<S(!new)>(next: (S, S) -> bool, s: S)
    ensures Reaches(next, s, s)
  {
    assert Within(next, s, s, 0);
  }

  lemma Then<S(!new)>(next: (S, S) -> bool, s: S, m: S, u: S)
    requires Reaches(next, s, m) && Reaches(next, m, u)
    ensures Reaches(next, s, u)
  {
    var a :| Within(next, s, m, a);
    var b :| Within(next, m, u, b);
    WithinThen(next, s, m, u, a, b);
  }

  lemma OneMore<S(!new)>(next: (S, S) -> bool, s: S, m: S, u: S)
    requires Reaches(next, s, m) && next(m, u)
    ensures Reaches(next, s, u)
  {
    assert Within(next, u, u, 0);
    assert Within(next, m, u, 1);
    Then(next, s, m, u);
  }
}
