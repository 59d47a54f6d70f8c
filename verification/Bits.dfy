/** Bitwise exclusive or on naturals, and powers of two. */
module Bits {

  function Xor(a: nat, b: nat): nat
    decreases a + b
  {
    if a == 0 && b == 0 then 0
    else (if a % 2 == b % 2 then 0 else 1) + 2 * Xor(a / 2, b / 2)
  }

  function Pow2(k: nat): (r: nat)
    ensures r > 0
  {
    if k == 0 then 1 else 2 * Pow2(k - 1)
  }

  ghost predicate IsPow2(n: nat) {
    exists k: nat :: n == Pow2(k)
  }

  lemma {:induction false} XorZero(a: nat)
    ensures Xor(a, 0) == a && Xor(0, a) == a
    decreases a
  {
    if a > 0 {
      XorZero(a / 2);
    }
  }

  lemma {:induction false} XorBelow(a: nat, b: nat, k: nat)
    requires a < Pow2(k) && b < Pow2(k)
    ensures Xor(a, b) < Pow2(k)
    decreases k
  {
    if k > 0 {
      XorBelow(a / 2, b / 2, k - 1);
    }
  }

  /** Applying the same mask twice gives back the start. */
  lemma {:induction false} XorCancels(a: nat, b: nat)
    ensures Xor(Xor(a, b), b) == a
    decreases a + b
  {
    if a > 0 || b > 0 {
      XorCancels(a / 2, b / 2);
      assert Xor(a, b) / 2 == Xor(a / 2, b / 2);
    }
  }

  lemma {:induction false} XorChanges(a: nat, b: nat)
    requires b != 0
    ensures Xor(a, b) != a
    decreases a + b
  {
    if b > 1 {
      XorChanges(a / 2, b / 2);
    }
  }

  /** Against an all-ones mask of k bits, exclusive or is the complement. */
  lemma {:induction false} XorComplement(a: nat, k: nat)
    requires a < Pow2(k)
    ensures Xor(a, Pow2(k) - 1) == Pow2(k) - 1 - a
    decreases k
  {
    if k > 0 {
      var ones := Pow2(k - 1) - 1;
      XorComplement(a / 2, k - 1);
      assert Pow2(k) - 1 == 1 + 2 * ones && (1 + 2 * ones) / 2 == ones && (1 + 2 * ones) % 2 == 1;
      assert Xor(a, 1 + 2 * ones) == (if a % 2 == 1 then 0 else 1) + 2 * Xor(a / 2, ones);
    }
  }

  /** The next bit up is untouched by an all-ones mask below it. */
  lemma {:induction false} XorHighBit(k: nat)
    ensures Xor(Pow2(k), Pow2(k) - 1) == 2 * Pow2(k) - 1
  {
    if k > 0 {
      XorHighBit(k - 1);
      assert (Pow2(k) - 1) / 2 == Pow2(k - 1) - 1;
    }
  }

  /** Every positive number lies in exactly one binade. */
  lemma {:induction false} Binade(n: nat) returns (k: nat)
    requires n > 0
    ensures Pow2(k) <= n < 2 * Pow2(k)
    decreases n
  {
    if n == 1 {
      k := 0;
    } else {
      k := Binade(n / 2);
      k := k + 1;
    }
  }
}
