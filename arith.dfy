/**
 * Facts about Euclidean division and multiplication on non-negative
 * integers, used to reason about bit-fields stored in a 16-bit word.
 */
module Arith {

  lemma MulLe(a: int, b: int, c: int)
    requires a <= b && 0 <= c
    ensures a * c <= b * c
  {
    assert b * c - a * c == (b - a) * c;
  }

  /** Division by a positive divisor is determined by quotient and remainder. */
  lemma DivModUnique(n: int, d: int, q: int, r: int)
    requires 0 < d && 0 <= r < d && n == q * d + r
    ensures n / d == q && n % d == r
  {
    var q', r' := n / d, n % d;
    assert n == q' * d + r';
    assert (q' - q) * d == r - r';
    if q' > q {
      MulLe(1, q' - q, d);
    } else if q' < q {
      assert (q - q') * d == r' - r;
      MulLe(1, q - q', d);
    }
  }

  /** A value below `m` scaled by `p`, plus something below `p`, stays below `m * p`. */
  lemma BoundCompose(x: int, lo: int, p: int, m: int)
    requires 0 <= x < m && 0 <= lo < p
    ensures 0 <= x * p + lo < m * p
  {
    MulLe(x, m - 1, p);
    MulLe(0, x, p);
    assert (m - 1) * p == m * p - p;
  }

  /** `x % d == x` below the divisor. */
  lemma ModSmall(x: int, d: int)
    requires 0 <= x < d
    ensures x % d == x && x / d == 0
  {
    DivModUnique(x, d, 0, x);
  }

  /** Adding a multiple of `d` changes the quotient by that multiple and keeps the remainder. */
  lemma ModAddMultiple(a: int, d: int, b: int)
    requires 0 < d && 0 <= b
    ensures (a * d + b) % d == b % d
    ensures (a * d + b) / d == a + b / d
  {
    var q, r := b / d, b % d;
    assert b == q * d + r;
    assert a * d + b == (a + q) * d + r;
    DivModUnique(a * d + b, d, a + q, r);
  }

  /** Dividing by `a * b` is dividing by `a`, then by `b`; the remainder splits likewise. */
  lemma DivModNested(x: int, a: int, b: int)
    requires 0 <= x && 0 < a && 0 < b
    ensures x / (a * b) == (x / a) / b
    ensures x % (a * b) == x % a + a * ((x / a) % b)
  {
    var y, a0 := x / a, x % a;
    var q, b0 := y / b, y % b;
    assert x == y * a + a0;
    assert y == q * b + b0;
    assert x == q * (a * b) + (b0 * a + a0) by {
      assert y * a == (q * b + b0) * a == q * (a * b) + b0 * a;
    }
    BoundCompose(b0, a0, a, b);
    assert b * a == a * b;
    DivModUnique(x, a * b, q, b0 * a + a0);
  }

  /** A value below `a * b` divided by `a` is below `b`. */
  lemma DivLess(n: int, a: int, b: int)
    requires 0 <= n < a * b && 0 < a && 0 < b
    ensures 0 <= n / a < b
  {
    var q := n / a;
    assert n == q * a + n % a;
    assert b * a == a * b;
    if q >= b {
      MulLe(b, q, a);
    }
  }

  /** The digits of `(hi * Q + m) * P + lo` in the mixed radix (P, Q, ...) are `lo`, `m`, `hi`. */
  lemma ComposeDigits(hi: int, m: int, lo: int, P: int, Q: int)
    requires 0 <= hi && 0 <= m < Q && 0 <= lo < P
    ensures (hi * Q + m) * P + lo >= 0
    ensures ((hi * Q + m) * P + lo) % P == lo
    ensures (((hi * Q + m) * P + lo) / P) % Q == m
    ensures ((hi * Q + m) * P + lo) / (P * Q) == hi
  {
    var x := hi * Q + m;
    var r := x * P + lo;
    MulLe(0, hi, Q);
    MulLe(0, x, P);
    DivModUnique(r, P, x, lo);
    DivModUnique(x, Q, hi, m);
    DivModNested(r, P, Q);
  }

  /** The same number stays below `P * Q * R` when `hi < R`. */
  lemma ComposeBound(hi: int, m: int, lo: int, P: int, Q: int, R: int)
    requires 0 <= hi < R && 0 <= m < Q && 0 <= lo < P
    ensures (hi * Q + m) * P + lo < P * Q * R
  {
    BoundCompose(hi, m, Q, R);
    BoundCompose(hi * Q + m, lo, P, R * Q);
    assert R * Q * P == P * Q * R;
  }

  /**
   * Replacing the middle digit of `w` in the mixed radix (P, Q, R): the
   * low part and the high part survive, the middle part is the new value.
   */
  lemma SpliceArith(w: int, v: int, P: int, Q: int, R: int)
    requires 0 < P && 0 < Q && 0 < R && 0 <= w < P * Q * R && 0 <= v
    ensures var r := (w / (P * Q) * Q + v % Q) * P + w % P;
      && 0 <= r < P * Q * R
      && r % P == w % P
      && r / (P * Q) == w / (P * Q)
      && (r / P) % Q == v % Q
  {
    assert P * Q * R == (P * Q) * R;
    DivLess(w, P * Q, R);
    ComposeDigits(w / (P * Q), v % Q, w % P, P, Q);
    ComposeBound(w / (P * Q), v % Q, w % P, P, Q, R);
  }

  /** The digit of `n` at radix position `P` (base `Q`) depends only on `n`'s lowest `P * Q * L` part. */
  lemma LowDigits(n: int, P: int, Q: int, L: int)
    requires 0 <= n && 0 < P && 0 < Q && 0 < L
    ensures (n / P) % Q == ((n % (P * Q * L)) / P) % Q
  {
    var g, t := (n / P) % Q, ((n / P) / Q) % L;
    assert P * Q * L == P * (Q * L);
    DivModNested(n, P, Q * L);
    DivModNested(n / P, Q, L);
    assert n % (P * Q * L) == (t * Q + g) * P + n % P;
    MulLe(0, t, L);
    ComposeDigits(t, g, n % P, P, Q);
  }

  /** Splicing a number's own middle digit back in gives the number. */
  lemma SpliceOwn(w: int, P: int, Q: int)
    requires 0 <= w && 0 < P && 0 < Q
    ensures (w / (P * Q) * Q + ((w / P) % Q) % Q) * P + w % P == w
  {
    DivModNested(w, P, Q);
    ModSmall((w / P) % Q, Q);
    assert w / P == (w / P) / Q * Q + (w / P) % Q;
    assert w == (w / P) * P + w % P;
  }
}
