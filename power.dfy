/**
 * Integer powers of ten over the reals: the `10 ** exponent` of a speed
 * written in scientific notation, for any integer exponent, negative ones
 * included (where Python's `**` yields a fraction).
 */
module Power {

  /** 10 raised to `e`; a negative exponent gives the reciprocal power. */
  function Pow10(e: int): real
    decreases if e < 0 then -e else e
  {
    if e == 0 then 1.0
    else if e > 0 then 10.0 * Pow10(e - 1)
    else Pow10(e + 1) / 10.0
  }

  /** Every power of ten is positive, so it can stand as a divisor. */
  lemma {:induction false} Pow10Positive(e: int)
    ensures Pow10(e) > 0.0
    decreases if e < 0 then -e else e
  {
    if e > 0 {
      Pow10Positive(e - 1);
    } else if e < 0 {
      Pow10Positive(e + 1);
    }
  }

  /** One more in the exponent is one more factor of ten, on both sides of zero. */
  lemma Pow10Succ(e: int)
    ensures Pow10(e + 1) == 10.0 * Pow10(e)
  {
  }

  /** Pow10Succ read downwards, in the shape the induction below needs. */
  lemma Pow10Pred(e: int)
    ensures Pow10(e) == 10.0 * Pow10(e - 1)
  {
    Pow10Succ(e - 1);
  }

  /** Exponents add when powers multiply. */
  lemma Pow10Add(a: int, b: int)
    ensures Pow10(a + b) == Pow10(a) * Pow10(b)
  {
    if b > 0 {
      Pow10AddUp(a, b);
    } else if b < 0 {
      Pow10AddDown(a, b);
    } else {
      assert Pow10(0) == 1.0;
    }
  }

  /** Pow10Add with the exponent split as e = n + (e - n). */
  lemma Pow10Split(e: int, n: int)
    ensures Pow10(e) == Pow10(n) * Pow10(e - n)
  {
    Pow10Add(n, e - n);
  }

  /** Moving a factor 10^n from the exponent into the coefficient keeps the value. */
  lemma Pow10Shift(s: real, e: int, n: int)
    ensures (s * Pow10(n)) * Pow10(e - n) == s * Pow10(e)
  {
    Pow10Split(e, n);
    Regroup(s, Pow10(n), Pow10(e - n), Pow10(e));
  }

  /** Regrouping a product of three factors. */
  lemma Regroup(s: real, x: real, y: real, z: real)
    requires z == x * y
    ensures (s * x) * y == s * z
  {
  }

  /** Pow10Add for a positive second exponent, by induction on it. */
  lemma {:induction false} Pow10AddUp(a: int, b: int)
    requires b > 0
    ensures Pow10(a + b) == Pow10(a) * Pow10(b)
    decreases b
  {
    if b > 1 {
      Pow10AddUp(a, b - 1);
    } else {
      assert Pow10(0) == 1.0;
    }
    Pow10Pred(a + b);
    Pow10Pred(b);
    ScaleProduct(Pow10(a + b), Pow10(a + b - 1), Pow10(a), Pow10(b - 1), Pow10(b));
  }

  /** Pow10Add for a negative second exponent, by induction on its magnitude. */
  lemma {:induction false} Pow10AddDown(a: int, b: int)
    requires b < 0
    ensures Pow10(a + b) == Pow10(a) * Pow10(b)
    decreases -b
  {
    if b < -1 {
      Pow10AddDown(a, b + 1);
    } else {
      assert Pow10(0) == 1.0;
    }
    Pow10Succ(a + b);
    Pow10Succ(b);
    UnscaleProduct(Pow10(a + b), Pow10(a + b + 1), Pow10(a), Pow10(b), Pow10(b + 1));
  }

  /** Arithmetic step of Pow10Add for a positive exponent. */
  lemma ScaleProduct(s: real, p: real, x: real, y: real, t: real)
    requires s == 10.0 * p && p == x * y && t == 10.0 * y
    ensures s == x * t
  {
  }

  /** Arithmetic step of Pow10Add for a negative exponent. */
  lemma UnscaleProduct(s: real, p: real, x: real, y: real, t: real)
    requires p == 10.0 * s && p == x * t && t == 10.0 * y
    ensures s == x * y
  {
  }

  /** A negative exponent is the reciprocal of the positive one. */
  lemma Pow10Neg(e: int)
    ensures Pow10(e) > 0.0 && Pow10(-e) == 1.0 / Pow10(e)
  {
    Pow10Positive(e);
    Pow10Add(e, -e);
  }
}
