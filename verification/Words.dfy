/** Machine words as numbers, and the bitwise operators of C on them, bit by bit. */
module Words {
  import opened Numbers

  /** Bit `k` of `w`. */
  predicate Bit(w: nat, k: nat) { if k == 0 then w % 2 == 1 else Bit(w / 2, k - 1) }

  function Or(a: nat, b: nat): nat {
    if a == 0 && b == 0 then 0 else 2 * Or(a / 2, b / 2) + if a % 2 == 1 || b % 2 == 1 then 1 else 0
  }

  function And(a: nat, b: nat): nat {
    if a == 0 || b == 0 then 0 else 2 * And(a / 2, b / 2) + if a % 2 == 1 && b % 2 == 1 then 1 else 0
  }

  /** The complement of `a` in a word of `n` bits. */
  function Not(a: nat, n: nat): nat {
    if n == 0 then 0 else 2 * Not(a / 2, n - 1) + (1 - a % 2)
  }

  lemma {:induction false} ZeroBit(k: nat)
    ensures !Bit(0, k)
  {
    if k > 0 { ZeroBit(k - 1); }
  }

  lemma {:induction false} OrBit(a: nat, b: nat, k: nat)
    ensures Bit(Or(a, b), k) == (Bit(a, k) || Bit(b, k))
  {
    if a == 0 && b == 0 {
      ZeroBit(k);
    } else if k > 0 {
      OrBit(a / 2, b / 2, k - 1);
    }
  }

  lemma {:induction false} AndBit(a: nat, b: nat, k: nat)
    ensures Bit(And(a, b), k) == (Bit(a, k) && Bit(b, k))
  {
    if a == 0 || b == 0 {
      ZeroBit(k);
    } else if k > 0 {
      AndBit(a / 2, b / 2, k - 1);
    }
  }

  lemma {:induction false} NotBit(a: nat, n: nat, k: nat)
    requires k < n
    ensures Bit(Not(a, n), k) == !Bit(a, k)
  {
    if k > 0 { NotBit(a / 2, n - 1, k - 1); }
  }

  lemma {:induction false} Pow2Bit(n: nat, k: nat)
    ensures Bit(Pow2(n), k) == (k == n)
  {
    if n == 0 {
      if k > 0 { ZeroBit(k - 1); }
    } else if k > 0 {
      Pow2Bit(n - 1, k - 1);
    }
  }

  lemma {:induction false} OrFits(a: nat, b: nat, n: nat)
    requires a < Pow2(n) && b < Pow2(n)
    ensures Or(a, b) < Pow2(n)
  {
    if n > 0 { OrFits(a / 2, b / 2, n - 1); }
  }

  lemma {:induction false} AndFits(a: nat, b: nat)
    ensures And(a, b) <= a && And(a, b) <= b
  {
    if a != 0 && b != 0 { AndFits(a / 2, b / 2); }
  }

  lemma {:induction false} SomeBit(a: nat) returns (k: nat)
    requires a > 0
    ensures Bit(a, k)
  {
    if a % 2 == 1 {
      k := 0;
    } else {
      k := SomeBit(a / 2);
      k := k + 1;
    }
  }

  lemma HalvesMod(a: nat, p: nat)
    requires p > 0
    ensures a % (2 * p) == 2 * ((a / 2) % p) + a % 2
  {
    var q := (a / 2) / p;
    DivBounds(a / 2, p);
    assert q * (2 * p) == 2 * (q * p);
    DivUnique(a, 2 * p, q);
  }

  lemma AndOdd(a: nat, b: nat)
    ensures And(a, 2 * b + 1) == 2 * And(a / 2, b) + a % 2
  {
    assert (2 * b + 1) / 2 == b;
  }

  /** `a & (2^n - 1)` is the remainder. */
  lemma {:induction false} AndLowBits(a: nat, n: nat)
    ensures And(a, Pow2(n) - 1) == a % Pow2(n)
  {
    if n == 0 {
      assert Pow2(0) == 1;
    } else {
      var p := Pow2(n - 1);
      calc {
        And(a, 2 * p - 1);
        { AndOdd(a, p - 1); }
        2 * And(a / 2, p - 1) + a % 2;
        { AndLowBits(a / 2, n - 1); }
        2 * ((a / 2) % p) + a % 2;
        { HalvesMod(a, p); }
        a % (2 * p);
      }
    }
  }

  lemma {:induction false} AndSelf(a: nat)
    ensures And(a, a) == a
  {
    if a > 0 { AndSelf(a / 2); }
  }

  /** Clearing the lowest set bit leaves zero exactly when there is only one. */
  lemma {:induction false} LowestBit(a: nat)
    requires a > 0
    ensures And(a, a - 1) == 0 <==> exists n: nat :: a == Pow2(n)
  {
    if a % 2 == 1 {
      OddPower(a);
      AndSelf(a / 2);
    } else {
      LowestBit(a / 2);
      EvenPower(a);
    }
  }

  lemma OddPower(a: nat)
    requires a % 2 == 1
    ensures a == 1 <==> exists n: nat :: a == Pow2(n)
  {
    assert Pow2(0) == 1;
  }

  lemma EvenPower(a: nat)
    requires a > 0 && a % 2 == 0
    ensures (exists n: nat :: a == Pow2(n)) <==> exists n: nat :: a / 2 == Pow2(n)
  {
    if n: nat :| a / 2 == Pow2(n) {
      assert a == Pow2(n + 1);
    }
    if n: nat :| a == Pow2(n) {
      assert a / 2 == Pow2(n - 1);
    }
  }
}
