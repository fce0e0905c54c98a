/**
 Integer division as Rust performs it on `i32`: the quotient is truncated
 toward zero, so the remainder takes the sign of the dividend. Dafny's own
 `/` on `int` is Euclidean; the two agree only for a non-negative dividend
 and a positive divisor. Integer width is not modelled: values are unbounded.
 */
module RustInt {

  function Abs(x: int): nat {
    if x < 0 then -x else x
  }

  /** `q` is the truncating quotient of `a` by `b`: `q * b` lies between zero
      and `a` (inclusive) and falls short of `a` by less than one `|b|`. */
  predicate TruncQuotient(a: int, b: int, q: int) {
    && b != 0
    && (a >= 0 ==> 0 <= q * b <= a)
    && (a <= 0 ==> a <= q * b <= 0)
    && Abs(a - q * b) < Abs(b)
  }

  /** Rust's `a / b` for `b != 0`. */
  function TruncDiv(a: int, b: int): (q: int)
    requires b != 0
    ensures TruncQuotient(a, b, q)
  {
    var n, d := Abs(a), Abs(b);
    var m := n / d;
    EuclidBounds(n, d);
    if (a >= 0) == (b > 0) then
      assert m * b == (if a >= 0 then m * d else -(m * d)) by { NegateFactor(m, b); }
      m
    else
      assert -m * b == (if a >= 0 then m * d else -(m * d)) by { NegateFactor(m, b); }
      -m
  }

  /** Euclidean division of naturals leaves a remainder below the divisor. */
  lemma EuclidBounds(n: nat, d: nat)
    requires d > 0
    ensures 0 <= (n / d) * d <= n < (n / d) * d + d
  {
  }

  lemma NegateFactor(m: int, b: int)
    ensures m * b == (if b >= 0 then m * Abs(b) else -(m * Abs(b)))
    ensures -m * b == -(m * b)
  {
  }

  /** A non-zero multiple of `b` is at least `|b|` in magnitude. */
  lemma NonZeroMultiple(k: int, b: int)
    requires k != 0
    ensures Abs(k * b) >= Abs(b)
  {
    var j := if k > 0 then k - 1 else -k - 1;
    assert j >= 0;
    assert j * Abs(b) >= 0;
    if k > 0 {
      assert k * b == b + j * b;
    } else {
      assert k * b == -b - j * b;
    }
    assert Abs(k * b) == Abs(b) + j * Abs(b);
  }

  /** The truncating quotient is unique, so `TruncQuotient` specifies `TruncDiv` completely. */
  lemma TruncQuotientUnique(a: int, b: int, q: int, q': int)
    requires TruncQuotient(a, b, q) && TruncQuotient(a, b, q')
    ensures q == q'
  {
    if q != q' {
      assert (q - q') * b == q * b - q' * b;
      NonZeroMultiple(q - q', b);
    }
  }

  /** For a non-negative dividend and a positive divisor Rust and Dafny divide alike. */
  lemma TruncDivOfNatural(a: int, b: int)
    requires a >= 0 && b > 0
    ensures TruncDiv(a, b) == a / b
  {
    TruncQuotientUnique(a, b, TruncDiv(a, b), a / b);
  }

  /** Dividing an exact multiple gives back the multiplier, whatever the signs. */
  lemma TruncDivExact(q: int, b: int)
    requires b != 0
    ensures TruncDiv(q * b, b) == q
  {
    assert TruncQuotient(q * b, b, q);
    TruncQuotientUnique(q * b, b, TruncDiv(q * b, b), q);
  }

  /** With a positive divisor the truncating quotient never decreases as the dividend grows. */
  lemma TruncDivMonotone(a: int, a': int, b: int)
    requires a <= a' && b > 0
    ensures TruncDiv(a, b) <= TruncDiv(a', b)
  {
    var q, q' := TruncDiv(a, b), TruncDiv(a', b);
    if q > q' {
      assert (q - q') * b == q * b - q' * b;
      NonZeroMultiple(q - q', b);
    }
  }
}
