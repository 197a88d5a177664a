/**
 Products, quotients and remainders by repeated addition and subtraction.  Written this way
 they stay linear in proofs; the first lemmas tie them to the built-in operators.
 */
module Arith {
  /** `n` pieces of the given size. */
  function Times(size: nat, n: nat): nat {
    if n == 0 then 0 else size + Times(size, n - 1)
  }

  function Quot(a: nat, b: nat): nat
    requires b > 0
  {
    if a < b then 0 else 1 + Quot(a - b, b)
  }

  function Rem(a: nat, b: nat): (r: nat)
    requires b > 0
    ensures r < b && r <= a
  {
    if a < b then a else Rem(a - b, b)
  }

  lemma {:induction false} TimesIs(size: nat, n: nat)
    ensures Times(size, n) == size * n
  {
    if n > 0 {
      TimesIs(size, n - 1);
      assert size * n == size * (n - 1) + size;
    }
  }

  /** Quotient and remainder take a number apart. */
  lemma {:induction false} QuotRem(a: nat, b: nat)
    requires b > 0
    ensures a == Times(b, Quot(a, b)) + Rem(a, b)
  {
    if a >= b {
      QuotRem(a - b, b);
    }
  }

  lemma QuotRemAre(a: nat, b: nat)
    requires b > 0
    ensures Quot(a, b) == a / b && Rem(a, b) == a % b
  {
    TimesIs(b, a / b);
    assert a == Times(b, a / b) + a % b;
    QuotRemPlus(b, a / b, a % b);
  }

  lemma {:induction false} TimesAdd(size: nat, a: nat, b: nat)
    ensures Times(size, a + b) == Times(size, a) + Times(size, b)
  {
    if b > 0 {
      TimesAdd(size, a, b - 1);
    }
  }

  lemma TimesMono(size: nat, a: nat, b: nat)
    requires a <= b
    ensures Times(size, a) <= Times(size, b)
  {
    TimesAdd(size, a, b - a);
  }

  lemma {:induction false} TimesGrows(a: nat, b: nat, n: nat)
    requires a <= b
    ensures Times(a, n) <= Times(b, n)
  {
    if n > 0 {
      TimesGrows(a, b, n - 1);
    }
  }

  /** The next piece starts where this one ends, at the latest. */
  lemma TimesNext(size: nat, a: nat, b: nat)
    requires a < b
    ensures Times(size, a) + size <= Times(size, b)
  {
    TimesMono(size, a + 1, b);
  }

  lemma {:induction false} TimesAssoc(size: nat, a: nat, b: nat)
    ensures Times(size, Times(a, b)) == Times(Times(size, a), b)
  {
    if b > 0 {
      TimesAssoc(size, a, b - 1);
      TimesAdd(size, a, Times(a, b - 1));
    }
  }

  /** Adding whole pieces changes the quotient only. */
  lemma {:induction false} QuotRemPlus(b: nat, k: nat, r: nat)
    requires b > 0 && r < b
    ensures Quot(Times(b, k) + r, b) == k && Rem(Times(b, k) + r, b) == r
  {
    if k > 0 {
      QuotRemPlus(b, k - 1, r);
    }
  }
}
