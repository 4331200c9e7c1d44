/** A "next" control over `n` positions that wraps from the last back to the
    first, pressed repeatedly: the carousel's slide arrow and the lightbox's
    next button are both of this kind. */
module Cycle {

  /** `f` applied `k` times, starting from `x`. */
  function Iterate(f: nat -> nat, x: nat, k: nat): nat {
    if k == 0 then x else f(Iterate(f, x, k - 1))
  }

  /** On `0 .. n-1`, `f` moves every position one on and the last to 0. */
  ghost predicate Rotates(f: nat -> nat, n: nat) {
    forall j: nat :: j < n ==> f(j) == if j + 1 == n then 0 else j + 1
  }

  /** Short of the last position, each press moves exactly one on. */
  lemma {:induction false} IterateSteps(f: nat -> nat, n: nat, x: nat, k: nat)
    requires Rotates(f, n) && x + k < n
    ensures Iterate(f, x, k) == x + k
  {
    if k > 0 {
      IterateSteps(f, n, x, k - 1);
    }
  }

  /** `a + b` presses are `a` presses followed by `b` more. */
  lemma {:induction false} IterateSplit(f: nat -> nat, x: nat, a: nat, b: nat)
    ensures Iterate(f, x, a + b) == Iterate(f, Iterate(f, x, a), b)
  {
    if b > 0 {
      IterateSplit(f, x, a, b - 1);
    }
  }

  /** One press per position comes back to the starting position. */
  lemma AllTheWayRound(f: nat -> nat, n: nat, x: nat)
    requires Rotates(f, n) && x < n
    ensures Iterate(f, x, n) == x
  {
    var a := n - 1 - x;
    IterateSteps(f, n, x, a);
    IterateSplit(f, x, a, 1);
    assert Iterate(f, x, a + 1) == 0;
    IterateSplit(f, x, a + 1, x);
    IterateSteps(f, n, 0, x);
    assert a + 1 + x == n;
  }
}
