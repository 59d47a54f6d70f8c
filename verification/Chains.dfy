/** Chains of steps, for any step relation. */
module Chains {
  ghost predicate Path<S(!new)>(next: (S, S) -> bool, c: seq<S>, a: S, b: S) {
    && |c| > 0 && c[0] == a && c[|c| - 1] == b
    && forall i | 0 <= i < |c| - 1 :: next(c[i], c[i + 1])
  }

  ghost predicate Leads<S(!new)>(next: (S, S) -> bool, a: S, b: S) {
    exists c :: Path(next, c, a, b)
  }

  lemma LeadsNow<S(!new)>(next: (S, S) -> bool, a: S)
    ensures Leads(next, a, a)
  {
    assert Path(next, [a], a, a);
  }

  lemma LeadsOn<S(!new)>(next: (S, S) -> bool, a: S, b: S, b': S)
    requires Leads(next, a, b) && next(b, b')
    ensures Leads(next, a, b')
  {
    var c :| Path(next, c, a, b);
    assert Path(next, c + [b'], a, b');
  }

  // ----- steps one after the other -----

  /** The step after the n-th of these, or j after the last. */
  function After(steps: seq<nat>, n: nat, j: nat): nat
    requires n < |steps|
  {
    if n + 1 < |steps| then steps[n + 1] else j
  }

  /** Each of the steps is linked, by its number, to the one after it, and the last to j. */
  ghost predicate Linked(link: (nat, nat, nat) -> bool, steps: seq<nat>, j: nat) {
    forall n: nat | n < |steps| :: LinkedAt(link, steps, j, n)
  }

  ghost predicate LinkedAt(link: (nat, nat, nat) -> bool, steps: seq<nat>, j: nat, n: nat)
    requires n < |steps|
  {
    link(n, steps[n], After(steps, n, j))
  }

  /** The last link may be made longer. */
  lemma LinkedLater(link: (nat, nat, nat) -> bool, steps: seq<nat>, i: nat, j: nat)
    requires Linked(link, steps, i)
    requires |steps| > 0 && link(|steps| - 1, steps[|steps| - 1], i) ==> link(|steps| - 1, steps[|steps| - 1], j)
    ensures Linked(link, steps, j)
  {
    forall n: nat | n < |steps|
      ensures LinkedAt(link, steps, j, n)
    {
      assert LinkedAt(link, steps, i, n);
    }
  }

  lemma LinkedMore(link: (nat, nat, nat) -> bool, steps: seq<nat>, m: nat, j: nat)
    requires Linked(link, steps, m) && link(|steps|, m, j)
    ensures Linked(link, steps + [m], j)
  {
    var longer := steps + [m];
    forall n: nat | n < |longer|
      ensures LinkedAt(link, longer, j, n)
    {
      if n < |steps| {
        assert LinkedAt(link, steps, m, n);
      }
    }
  }
}
