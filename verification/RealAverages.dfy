/** Averages over exact reals, kept behind names so that products of two unknowns
    stay out of the proofs that use them. */
module RealAverages {

  function Sum(s: seq<real>): real {
    if s == [] then 0.0 else Sum(s[..|s| - 1]) + s[|s| - 1]
  }

  // x is what an average between lo and hi accumulates over a length.
  predicate Accumulates(lo: real, hi: real, length: real, x: real) {
    lo * length <= x <= hi * length
  }

  lemma BoundsAdd(lo: real, hi: real, a: real, x: real, b: real, y: real)
    requires Accumulates(lo, hi, a, x) && Accumulates(lo, hi, b, y)
    ensures Accumulates(lo, hi, a + b, x + y)
  {
  }

  lemma OneStep(lo: real, hi: real, x: real)
    ensures Accumulates(lo, hi, 1.0, x) <==> lo <= x <= hi
    ensures Accumulates(lo, hi, 0.0, 0.0)
  {
  }

  lemma DivisionBounds(lo: real, hi: real, d: real, x: real)
    requires d > 0.0 && Accumulates(lo, hi, d, x)
    ensures lo <= x / d <= hi
    ensures x / d * d == x
  {
    assert x / d * d == x;
  }

  // n equal shares of the mean make up the total.
  predicate Averages(mean: real, n: nat, total: real) {
    mean * n as real == total
  }

  // The mean over a length makes up the total.
  predicate Fills(mean: real, length: real, total: real) {
    total == mean * length
  }

  lemma QuotientFills(total: real, length: real)
    requires length > 0.0
    ensures Fills(total / length, length, total)
  {
  }

  lemma SameMean(a: real, b: real, length: real, total: real)
    requires length > 0.0 && Fills(a, length, total) && Fills(b, length, total)
    ensures a == b
  {
    assert (a - b) * length == 0.0;
  }

  lemma SameTotal(mean: real, length: real, a: real, b: real)
    requires Fills(mean, length, a) && Fills(mean, length, b)
    ensures a == b
  {
  }

  lemma PositiveQuotient(x: real, d: real)
    requires x > 0.0 && d > 0.0
    ensures x / d > 0.0
  {
  }

  lemma ProductBounds(lo: real, p: real, hi: real, d: real)
    requires lo <= p <= hi && d >= 0.0
    ensures lo * d <= p * d <= hi * d
  {
    assert (p - lo) * d >= 0.0;
    assert (hi - p) * d >= 0.0;
  }

  function Times(x: real, n: nat): real {
    x * n as real
  }

  lemma TimesZero(x: real)
    ensures Times(x, 0) == 0.0
  {
  }

  // Adding n shares of at least m.
  lemma TimesAdds(m: real, q: real, a: nat, b: nat)
    requires q >= m
    ensures Times(m, a) + Times(q, b) >= Times(m, a + b)
  {
    assert (q - m) * b as real >= 0.0;
  }

  lemma TimesCancels(a: real, b: real, n: nat)
    requires n > 0 && Times(a, n) >= Times(b, n)
    ensures a >= b
  {
  }

  // c out of a, and zero when there is nothing to count.
  function Share(c: nat, a: nat): real {
    if a > 0 then c as real / a as real else 0.0
  }

  lemma ShareTotal(c: nat, a: nat)
    requires c <= a
    ensures Times(Share(c, a), a) == c as real
    ensures 0.0 <= Share(c, a) <= 1.0
  {
    if a > 0 {
      DivisionBounds(0.0, 1.0, a as real, c as real);
    }
  }

  lemma ShareIsZero(c: nat, a: nat)
    requires a > 0
    ensures Share(c, a) <= 0.0 <==> c == 0
  {
    if c > 0 {
      PositiveQuotient(c as real, a as real);
    }
  }

  lemma ShareAtLeast(c: nat, a: nat, m: real)
    requires 0 < a && c <= a
    ensures Share(c, a) >= m ==> c as real >= Times(m, a)
  {
    ShareTotal(c, a);
    if Share(c, a) >= m {
      TimesZero(m);
      TimesAdds(m, Share(c, a), 0, a);
    }
  }
}
