/**
  Conversion between "human" token amounts (whole units) and raw amounts
  (the token's smallest unit), as the test helpers `normalise` and
  `unnormalise` do with big-number arithmetic. An asset with `d` decimals
  has 10^d raw units per whole unit. All amounts and decimal counts are
  natural numbers, so big-number `div` is floor division.
*/
module DecimalScaling {

  /** 10^d, the number of raw units in one whole unit of a `d`-decimal asset.
      It is never zero, so the division in `Normalise` is always defined. */
  function Pow10(d: nat): (p: nat)
    ensures p >= 1
  {
    if d == 0 then 1 else 10 * Pow10(d - 1)
  }

  /** Whole units to raw units: `x` scaled up by `d` decimal places. A
      nonzero amount becomes at least one whole unit, and scaling never
      shrinks an amount. */
  function Unnormalise(x: nat, d: nat): (r: nat)
    ensures x <= r
    ensures x > 0 ==> Pow10(d) <= r
  {
    ProductBounds(x, Pow10(d));
    x * Pow10(d)
  }

  /** Raw units to whole units, rounding down: the result is the number of
      whole units contained in `r`, with the fractional remainder dropped. */
  function Normalise(r: nat, d: nat): (x: nat)
    ensures Unnormalise(x, d) <= r < Unnormalise(x + 1, d)
  {
    var p := Pow10(d);
    var q := r / p;
    DivBounds(r, p);
    assert Unnormalise(q, d) == q * p && Unnormalise(q + 1, d) == (q + 1) * p;
    q
  }

  // ---------------------------------------------------------------------
  // Arithmetic helpers
  // ---------------------------------------------------------------------

  lemma MulLe(a: nat, b: nat, p: nat)
    requires a <= b
    ensures a * p <= b * p
  {
    assert b * p == a * p + (b - a) * p;
  }

  /** A product of naturals is at least either factor when the other is positive. */
  lemma ProductBounds(x: nat, p: nat)
    requires p >= 1
    ensures x <= x * p
    ensures x > 0 ==> p <= x * p
  {
    MulLe(1, p, x);
    if x > 0 {
      MulLe(1, x, p);
    }
  }

  /** Floor division of naturals is a natural within one divisor of the dividend. */
  lemma DivBounds(r: nat, p: nat)
    requires p >= 1
    ensures r / p >= 0
    ensures (r / p) * p <= r < (r / p + 1) * p
  {
    var q: int := r / p;
    assert r == q * p + r % p;
    assert (q + 1) * p == q * p + p;
  }

  /** Floor division is determined by its bounds. */
  lemma DivUnique(r: nat, p: nat, q: nat)
    requires p >= 1
    requires q * p <= r < (q + 1) * p
    ensures r / p == q
  {
    var q' := r / p;
    assert r == q' * p + r % p;
    if q' < q {
      MulLe(q' + 1, q, p);
    } else if q' > q {
      MulLe(q + 1, q', p);
    }
  }

  // ---------------------------------------------------------------------
  // Properties of the two conversions
  // ---------------------------------------------------------------------

  /** Ten to a sum of exponents is the product of the two powers: scaling
      by a + b decimals is scaling by a and then by b. */
  lemma {:induction false} Pow10Add(a: nat, b: nat)
    ensures Pow10(a + b) == Pow10(a) * Pow10(b)
  {
    if a > 0 {
      calc {
        Pow10(a + b);
        10 * Pow10((a - 1) + b);
        { Pow10Add(a - 1, b); }
        10 * (Pow10(a - 1) * Pow10(b));
        (10 * Pow10(a - 1)) * Pow10(b);
        Pow10(a) * Pow10(b);
      }
    }
  }

  /** Unnormalising by a + b decimals is unnormalising by `a` and then by `b`. */
  lemma UnnormaliseCompose(x: nat, a: nat, b: nat)
    ensures Unnormalise(x, a + b) == Unnormalise(Unnormalise(x, a), b)
  {
    Pow10Add(a, b);
    assert x * (Pow10(a) * Pow10(b)) == (x * Pow10(a)) * Pow10(b);
  }

  /** A raw amount obtained by unnormalising is a whole number of units. */
  lemma UnnormaliseWhole(x: nat, d: nat)
    ensures Unnormalise(x, d) % Pow10(d) == 0
  {
    var p := Pow10(d);
    DivUnique(x * p, p, x);
    assert (x * p) / p * p + (x * p) % p == x * p;
  }

  /** Round trip: normalising an unnormalised amount gives it back exactly. */
  lemma RoundTrip(x: nat, d: nat)
    ensures Normalise(Unnormalise(x, d), d) == x
  {
    var p := Pow10(d);
    assert (x + 1) * p == x * p + p;
    DivUnique(x * p, p, x);
  }

  /** `Normalise(r, d)` is the largest whole amount whose raw value fits in
      `r`: x whole units fit in r exactly when x is at most Normalise(r, d). */
  lemma NormaliseIsGreatest(r: nat, d: nat, x: nat)
    ensures Unnormalise(x, d) <= r <==> x <= Normalise(r, d)
  {
    var n := Normalise(r, d);
    if x <= n {
      UnnormaliseMonotone(x, n, d);
    } else {
      UnnormaliseMonotone(n + 1, x, d);
    }
  }

  /** Both conversions are monotone non-decreasing in the amount. */
  lemma UnnormaliseMonotone(x: nat, y: nat, d: nat)
    requires x <= y
    ensures Unnormalise(x, d) <= Unnormalise(y, d)
  {
    MulLe(x, y, Pow10(d));
  }

  lemma NormaliseMonotone(r: nat, s: nat, d: nat)
    requires r <= s
    ensures Normalise(r, d) <= Normalise(s, d)
  {
    NormaliseIsGreatest(s, d, Normalise(r, d));
  }

  /** Whole-unit subtraction: taking k whole units' worth of raw amount out
      of a balance lowers its normalised value by exactly k, whatever
      fraction of a unit the balance holds. */
  lemma WholeUnitSubtraction(r: nat, k: nat, d: nat)
    requires Unnormalise(k, d) <= r
    ensures k <= Normalise(r, d)
    ensures Normalise(r - Unnormalise(k, d), d) == Normalise(r, d) - k
  {
    NormaliseIsGreatest(r, d, k);
    var p := Pow10(d);
    var n := Normalise(r, d);
    var q := n - k;
    assert n * p == q * p + k * p;
    assert (n + 1) * p == (q + 1) * p + k * p;
    DivUnique(r - k * p, p, q);
  }

  /** Zero maps to zero in both directions. */
  lemma ZeroMapsToZero(d: nat)
    ensures Unnormalise(0, d) == 0
    ensures Normalise(0, d) == 0
  {
  }

  /** A raw amount normalises to zero exactly when it is less than one whole unit. */
  lemma BelowOneUnit(r: nat, d: nat)
    ensures Normalise(r, d) == 0 <==> r < Pow10(d)
  {
    NormaliseIsGreatest(r, d, 1);
  }

  /** With zero decimals raw and whole units coincide: both conversions are the identity. */
  lemma ZeroDecimalsIdentity(x: nat)
    ensures Unnormalise(x, 0) == x
    ensures Normalise(x, 0) == x
  {
  }

  /** Both ways of dropping a + b decimal places bound the same whole amounts. */
  lemma NormaliseComposeAt(r: nat, a: nat, b: nat, x: nat)
    ensures x <= Normalise(r, a + b) <==> x <= Normalise(Normalise(r, a), b)
  {
    calc {
      x <= Normalise(r, a + b);
      { NormaliseIsGreatest(r, a + b, x); }
      Unnormalise(x, a + b) <= r;
      { UnnormaliseCompose(x, b, a); assert b + a == a + b; }
      Unnormalise(Unnormalise(x, b), a) <= r;
      { NormaliseIsGreatest(r, a, Unnormalise(x, b)); }
      Unnormalise(x, b) <= Normalise(r, a);
      { NormaliseIsGreatest(Normalise(r, a), b, x); }
      x <= Normalise(Normalise(r, a), b);
    }
  }

  /** Normalising by a + b decimals is normalising by `a` and then by `b`. */
  lemma NormaliseCompose(r: nat, a: nat, b: nat)
    ensures Normalise(r, a + b) == Normalise(Normalise(r, a), b)
  {
    NormaliseComposeAt(r, a, b, Normalise(r, a + b));
    NormaliseComposeAt(r, a, b, Normalise(Normalise(r, a), b));
  }
}
