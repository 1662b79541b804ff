/**
 * Products written as repeated addition.  The buffer loops of the model
 * index by `row*stride + column`; stating that offset with `Times` keeps
 * the verifier's reasoning about it linear.
 */
module Arith {

  /**
   * `a*b`, defined by repeated addition; `TimesIsProduct` relates it to `*`.
   */
  function Times(a: nat, b: nat): nat {
    if b == 0 then 0 else Times(a, b - 1) + a
  }

  lemma {:induction false} TimesIsProduct(a: nat, b: nat)
    ensures Times(a, b) == a * b
  {
    if b > 0 {
      TimesIsProduct(a, b - 1);
      assert a * b == a * (b - 1) + a;
    }
  }

  lemma {:induction false} TimesAdd(a: nat, b: nat, c: nat)
    ensures Times(a, b + c) == Times(a, b) + Times(a, c)
  {
    if c > 0 {
      TimesAdd(a, b, c - 1);
    }
  }

  /** A later block of `a` cells starts at least `a` cells after an earlier one. */
  lemma {:induction false} TimesGap(a: nat, p: nat, q: nat)
    requires p < q
    ensures Times(a, p) + a <= Times(a, q)
  {
    if p + 1 < q {
      TimesGap(a, p, q - 1);
    }
  }

  lemma {:induction false} TimesOrdered(a: nat)
    ensures forall p, q :: 0 <= p < q ==> Times(a, p) + a <= Times(a, q)
  {
    forall p: nat, q: nat | p < q
      ensures Times(a, p) + a <= Times(a, q)
    {
      TimesGap(a, p, q);
    }
  }

  lemma {:induction false} TimesMono(a: nat, p: nat, q: nat)
    requires p <= q
    ensures Times(a, p) <= Times(a, q)
  {
    if p < q {
      TimesGap(a, p, q);
    }
  }
}
