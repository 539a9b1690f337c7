/** 64-bit division out of 32-bit division, `lib/arithmetic.c`. */
module Division {
  import opened Numbers

  const B: nat := 0x1_0000_0000
  const BB: nat := 0x1_0000_0000_0000_0000
  const HALF: int := 0x8000_0000_0000_0000

  // ---- division

  lemma DivDivBounds(n: nat, a: nat, b: nat, m: nat, q: nat)
    requires m * a <= n < m * a + a && q * b <= m < q * b + b
    ensures q * (a * b) <= n < q * (a * b) + a * b
  {
    MulMono(q * b, m, a);
    MulMono(m + 1, q * b + b, a);
    MulAssoc(q, b, a);
    assert (q * b + b) * a == (q * b) * a + b * a;
    assert (m + 1) * a == m * a + a;
  }

  lemma DivDiv(n: nat, a: nat, b: nat)
    requires a > 0 && b > 0
    ensures a * b > 0 && (n / a) / b == n / (a * b)
  {
    var m := n / a;
    var q := m / b;
    DivBounds(n, a);
    DivBounds(m, b);
    DivDivBounds(n, a, b, m, q);
    assert a * b > 0;
    DivUnique(n, a * b, q);
  }

  lemma DivCancel(n: nat, d: nat, c: nat)
    requires d > 0 && c > 0
    ensures d * c > 0 && (n * c) / (d * c) == n / d
  {
    var q := n / d;
    DivBounds(n, d);
    CancelBounds(n, d, c, q);
    assert d * c > 0;
    DivUnique(n * c, d * c, q);
  }

  lemma CancelBounds(n: nat, d: nat, c: nat, q: nat)
    requires q * d <= n < q * d + d && c > 0
    ensures q * (d * c) <= n * c < q * (d * c) + d * c
  {
    MulAssoc(q, d, c);
    MulMono(q * d, n, c);
    MulMono(n + 1, q * d + d, c);
    assert (q * d + d) * c == (q * d) * c + d * c;
    assert (n + 1) * c == n * c + c;
  }

  /** DIVL: it traps unless the quotient fits in 32 bits. */
  function Divl(n: nat, d: nat): nat
    requires d > 0 && n / d < B
  {
    n / d
  }

  lemma ShiftUp(w: nat, n: nat, x: nat, k: nat, c: nat)
    requires x == w * Pow2(n) && c == Pow2(k)
    ensures x * c == w * Pow2(n + k)
  {
    Pow2Add(n, k);
    MulAssoc(w, Pow2(n), c);
  }

  lemma NoBitLost(x: nat, limit: nat, p: nat)
    requires x <= limit && (limit + 1) * p == B && p > 0
    ensures x * p < B && (x * p) % B == x * p
  {
    MulMono(x + 1, limit + 1, p);
    assert (x + 1) * p == x * p + p;
  }

  /** One test of `nlz`: `if (x <= limit) { n += k; x <<= k; }` on a 32-bit word. */
  method ShiftIfLow(ghost w: nat, n: nat, x: nat, k: nat, limit: nat) returns (n': nat, x': nat)
    requires x == w * Pow2(n) < B && (limit + 1) * Pow2(k) == B
    ensures x' == w * Pow2(n') < B
    ensures n' == if x <= limit then n + k else n
    ensures x' == if x <= limit then x * Pow2(k) else x
  {
    n', x' := n, x;
    if x <= limit {
      ShiftUp(w, n, x, k, Pow2(k));
      NoBitLost(x, limit, Pow2(k));
      n', x' := n + k, (x * Pow2(k)) % B;
    }
  }

  /** The number of leading zeros of a 32-bit word: what brings its top bit up. */
  method Nlz(w: nat) returns (n: nat)
    requires 0 < w < B
    ensures n < 32 && B <= 2 * (w * Pow2(n)) < 2 * B
  {
    Pow2Values();
    var x;
    n, x := ShiftIfLow(w, 0, w, 16, 0x0000_FFFF);
    assert 0x1_0000 <= x && n <= 16;
    n, x := ShiftIfLow(w, n, x, 8, 0x00FF_FFFF);
    assert 0x100_0000 <= x && n <= 24;
    n, x := ShiftIfLow(w, n, x, 4, 0x0FFF_FFFF);
    assert 0x1000_0000 <= x && n <= 28;
    n, x := ShiftIfLow(w, n, x, 2, 0x3FFF_FFFF);
    assert 0x4000_0000 <= x && n <= 30;
    n, x := ShiftIfLow(w, n, x, 1, 0x7FFF_FFFF);
  }

  // ---- udiv64

  lemma DivMod(n: nat, d: nat)
    requires d > 0
    ensures 0 <= n / d && 0 <= n % d < d && n == (n / d) * d + n % d
  {
  }

  /** A divisor that fits in 32 bits: divide the high word, then the rest. */
  lemma NarrowDivide(n1: nat, n0: nat, d: nat)
    requires n1 < B && n0 < B && 0 < d < B
    ensures 0 <= n1 % d && 0 <= n1 / d
    ensures (B * (n1 % d) + n0) / d < B
    ensures (B * (n1 % d) + n0) / d + B * (n1 / d) == (B * n1 + n0) / d
  {
    DivMod(n1, d);
    NarrowSum(n1, n0, d, n1 / d, n1 % d);
  }

  lemma NarrowSum(n1: nat, n0: nat, d: nat, q1: nat, r1: nat)
    requires n0 < B && d > 0 && r1 < d && n1 == q1 * d + r1
    ensures (B * r1 + n0) / d < B
    ensures (B * r1 + n0) / d + B * q1 == (B * n1 + n0) / d
  {
    var x := B * r1 + n0;
    DivBounds(x, d);
    var q0 := x / d;
    NarrowBounds(n0, d, q1, r1, q0);
    DivUnique(B * n1 + n0, d, q0 + B * q1);
  }

  lemma NarrowBounds(n0: nat, d: nat, q1: nat, r1: nat, q0: nat)
    requires n0 < B && r1 < d && q0 * d <= B * r1 + n0 < q0 * d + d
    ensures q0 < B
    ensures (q0 + B * q1) * d <= B * (q1 * d + r1) + n0 < (q0 + B * q1) * d + d
  {
    assert (q0 + B * q1) * d == q0 * d + B * (q1 * d);
    assert B * (q1 * d + r1) == B * (q1 * d) + B * r1;
    MulMono(r1 + 1, d, B);
    QuotientOrder(q0, B - 1, d);
  }

  /** The divisor `e <= d` with its low bits cleared gives the quotient or one more. */
  lemma EstimateBounds(n: nat, d: nat, e: nat, p: nat, q: nat, q0: nat)
    requires e > 0 && e <= d < e + p && n < BB && B / 2 * p <= e
    requires p == 2 || p >= 4
    requires q * d <= n < q * d + d && q0 * e <= n < q0 * e + e
    ensures q <= q0 <= q + 1
  {
    MulMono(e, d, q);
    QuotientOrder(q, q0, e);
    if q0 >= 1 {
      OneLess(n, d, e, p, q0);
      QuotientOrder(q0 - 1, q, d);
    }
  }

  lemma OneLess(n: nat, d: nat, e: nat, p: nat, q0: nat)
    requires e > 0 && e <= d < e + p && n < BB && B / 2 * p <= e
    requires p == 2 || p >= 4
    requires q0 >= 1 && q0 * e <= n
    ensures (q0 - 1) * d <= n
  {
    SlackFits(n, e, p, q0);
    MulMono(d - e, p - 1, q0 - 1);
    Distribute(q0 - 1, e, d - e);
    Distribute(e, q0 - 1, 1);
  }

  lemma Distribute(a: int, b: int, c: int)
    ensures a * (b + c) == a * b + a * c
  {
  }

  lemma SlackFits(n: nat, e: nat, p: nat, q0: nat)
    requires n < BB && q0 >= 1 && q0 * e <= n && B / 2 * p <= e && (p == 2 || p >= 4)
    ensures (p - 1) * (q0 - 1) <= e
  {
    ProductFits(n, e, p, q0);
    assert (p - 1) * (q0 - 1) == p * q0 - p - q0 + 1;
  }

  lemma ProductFits(n: nat, e: nat, p: nat, q0: nat)
    requires n < BB && q0 * e <= n && B / 2 * p <= e
    ensures p * q0 < 2 * B
  {
    MulMono(B / 2 * p, e, q0);
    MulAssoc(B / 2, p, q0);
  }

  /** What the wide branch divides by: the top 32 significant bits of the divisor. */
  lemma TopBits(d: nat, s: nat)
    requires B <= d < BB && s < 32 && B <= 2 * ((d / B) * Pow2(s)) < 2 * B
    ensures d * Pow2(s) < BB
    ensures (d * Pow2(s)) / B == d / Pow2(32 - s)
    ensures B / 2 <= (d * Pow2(s)) / B < B
  {
    var d1, c, p := d / B, Pow2(s), Pow2(32 - s);
    Pow2Values();
    Pow2Add(32 - s, s);
    assert p * c == B;
    DivBounds(d, B);
    assert d1 < p by {
      if p <= d1 { MulMono(p, d1, c); }
    }
    MulMono(d1 + 1, p, c);
    MulMono(d + 1, (d1 + 1) * B, c);
    MulAssoc(d1 + 1, B, c);
    assert (d + 1) * c == d * c + c;
    DivCancel(d, p, c);
    MulMono(d1 * B, d, c);
    MulAssoc(d1, B, c);
    DivBounds(d * c, B);
  }

  /** The two divisions and the shift of the wide branch divide by `v * 2^(32 - s)`. */
  lemma WideDivisor(n: nat, v: nat, s: nat)
    requires v > 0 && s < 32
    ensures v * Pow2(32 - s) > 0 && ((n / 2) / v) / Pow2(31 - s) == n / (v * Pow2(32 - s))
  {
    var h := Pow2(31 - s);
    DivDiv(n, 2, v);
    DivDiv(n, 2 * v, h);
    MulAssoc(2, v, h);
    assert Pow2(32 - s) == 2 * h;
    MulAssoc(v, 2, h);
  }

  /** The wide branch: no trap, and the estimate is the quotient or one more. */
  lemma WideEstimate(n: nat, d: nat, s: nat)
    requires n < BB && B <= d < BB && s < 32 && B <= 2 * ((d / B) * Pow2(s)) < 2 * B
    ensures d * Pow2(s) < BB
    ensures var v := (d * Pow2(s)) / B;
      && v > 0 && (n / 2) / v < B
      && n / d <= ((n / 2) / v) / Pow2(31 - s) <= n / d + 1
  {
    TopBits(d, s);
    var v, p := (d * Pow2(s)) / B, Pow2(32 - s);
    WideNoTrap(n / 2, v);
    WideDivisor(n, v, s);
    TwoOrFour(32 - s);
    DivBounds(d, p);
    WideQuotients(n, d, v, p);
  }

  lemma WideQuotients(n: nat, d: nat, v: nat, p: nat)
    requires n < BB && d > 0 && B / 2 <= v && (p == 2 || p >= 4) && v * p <= d < v * p + p
    ensures v * p > 0 && n / d <= n / (v * p) <= n / d + 1
  {
    var e := v * p;
    MulMono(B / 2, v, p);
    assert e > 0;
    DivBounds(n, d);
    DivBounds(n, e);
    var q, q0 := n / d, n / e;
    EstimateBounds(n, d, e, p, q, q0);
  }

  lemma WideNoTrap(m: nat, v: nat)
    requires m < BB / 2 && B / 2 <= v
    ensures m / v < B
  {
    DivBounds(m, v);
    QuotientOrder(m / v, B - 1, v);
  }

  lemma TwoOrFour(k: nat)
    requires k >= 1
    ensures Pow2(k) == 2 || Pow2(k) >= 4
  {
    if k >= 2 { assert Pow2(k) == 2 * (2 * Pow2(k - 2)); }
  }

  /** A 64-bit unsigned result. */
  function Wrap64(x: int): (w: nat)
    ensures w < BB
    ensures 0 <= x < BB ==> w == x
  {
    x % BB
  }

  method NarrowDiv(n: nat, d: nat) returns (q: nat)
    requires n < BB && 0 < d < B
    ensures q == n / d
  {
    var n1, n0 := n / B, n % B;
    NarrowDivide(n1, n0, d);
    QuotientFits(n, d);
    var low := Divl(B * (n1 % d) + n0, d);
    q := Wrap64(low + B * (n1 / d));
  }

  method WideDiv(n: nat, d: nat) returns (q: nat)
    requires B <= d <= n < BB
    ensures q == n / d
  {
    DivBounds(d, B);
    var s := Nlz(d / B);
    WideEstimate(n, d, s);
    q := Divl(n / 2, Wrap64(d * Pow2(s)) / B) / Pow2(31 - s);
    Correction(n, d, q);
    if Wrap64(n - Wrap64((q - 1) * d)) < d {
      q := q - 1;
    }
  }

  /** `udiv64`: every quotient of 64-bit numbers, without a trap. */
  method UDiv64(n: nat, d: nat) returns (q: nat)
    requires n < BB && 0 < d < BB
    ensures q == n / d
  {
    if d / B == 0 {
      q := NarrowDiv(n, d);
    } else if n < d {
      DivUnique(n, d, 0);
      q := 0;
    } else {
      q := WideDiv(n, d);
    }
  }

  lemma QuotientFits(n: nat, d: nat)
    requires n < BB && d > 0
    ensures n / d < BB
  {
    DivBounds(n, d);
    QuotientOrder(n / d, BB - 1, d);
  }

  /** The correction step tells the quotient from one more. */
  lemma Correction(n: nat, d: nat, q: nat)
    requires n < BB && 0 < d <= n && n / d <= q <= n / d + 1
    ensures q >= 1 && 0 <= (q - 1) * d <= n
    ensures n - (q - 1) * d < d <==> q == n / d + 1
  {
    DivBounds(n, d);
    QuotientOrder(1, n / d, d);
    CorrectionAt(n, d, n / d, q);
  }

  lemma CorrectionAt(n: nat, d: nat, t: nat, q: nat)
    requires t * d <= n < t * d + d && t >= 1 && (q == t || q == t + 1)
    ensures 0 <= (q - 1) * d <= n
    ensures n - (q - 1) * d < d <==> q == t + 1
  {
    Distribute(d, t - 1, 1);
  }

  // ---- the other three routines

  /** The signed quotient rounds toward zero. */
  function Truncated(n: int, d: int): int
    requires d != 0
  {
    var q := (if n < 0 then -n else n) / (if d < 0 then -d else d);
    if (n < 0) == (d < 0) then q else -q
  }

  /** A 64-bit word read as a signed number. */
  function Signed64(w: nat): (x: int)
    requires w < BB
  {
    if w < BB / 2 then w else w - BB
  }

  /** `sdiv64` truncates toward zero, except that the most negative number divided by -1 comes
      out as itself: its quotient is not a 64-bit number. */
  method SDiv64(n: int, d: int) returns (q: int)
    requires -HALF <= n < HALF && -HALF <= d < HALF && d != 0
    ensures q == Truncated(n, d) <==> !(n == -HALF && d == -1)
    ensures n == -HALF && d == -1 ==> q == n
  {
    var nAbs := if n >= 0 then n else Wrap64(-n);
    var dAbs := if d >= 0 then d else Wrap64(-d);
    var qAbs := UDiv64(nAbs, dAbs);
    SignedFits(nAbs, dAbs);
    SignOf(qAbs, (n < 0) == (d < 0));
    q := if (n < 0) == (d < 0) then Signed64(qAbs) else Signed64(Wrap64(-Signed64(qAbs)));
  }

  /** Giving the quotient of the magnitudes its sign. */
  lemma SignOf(q: nat, same: bool)
    requires q <= BB / 2
    ensures same ==> (Signed64(q) == q <==> q < BB / 2) && (q == BB / 2 ==> Signed64(q) == -HALF)
    ensures !same ==> Signed64(Wrap64(-Signed64(q))) + q == 0
  {
  }

  lemma SignedFits(n: nat, d: nat)
    requires n <= BB / 2 && d > 0
    ensures n / d <= BB / 2
    ensures n / d == BB / 2 <==> n == BB / 2 && d == 1
  {
    DivBounds(n, d);
    if d >= 2 {
      MulMono(2, d, n / d);
    }
  }

  /** `umod64` returns 32 bits: it is the remainder exactly when the remainder fits, which it does
      for every dividend or divisor of 32 bits, and for the divisor 2^32. */
  method UMod64(n: nat, d: nat) returns (r: nat)
    requires n < BB && 0 < d < BB
    ensures r == (n % d) % B
    ensures r == n % d <==> n % d < B
    ensures d <= B || n < B ==> r == n % d
  {
    var q := UDiv64(n, d);
    RemainderIs(n, d, q);
    r := Wrap64(n - Wrap64(d * q)) % B;
  }

  lemma RemainderIs(n: nat, d: nat, q: nat)
    requires n < BB && 0 < d < BB && q == n / d
    ensures Wrap64(n - Wrap64(d * q)) == n % d && (d <= B || n < B ==> n % d < B)
  {
    assert n == q * d + n % d;
    DivBounds(n, d);
    if n < d { SmallRemainder(n, d); }
  }

  lemma SmallRemainder(n: nat, d: nat)
    requires n < d
    ensures n % d == n
  {
  }

  /** For 2^32 modulo 2^32 + 1, which is 2^32, it returns 0. */
  method UModTooWide() returns (r: nat)
    ensures r == 0 && B % (B + 1) == B
  {
    SmallRemainder(B, B + 1);
    r := UMod64(B, B + 1);
  }
}
