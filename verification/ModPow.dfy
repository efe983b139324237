/** Square-and-multiply exponentiation, the primitive of section 5.2.2 of RFC 8017. */
module ModPow {
  import opened Options

  function Pow(b: nat, e: nat): nat
  {
    if e == 0 then 1 else b * Pow(b, e - 1)
  }

  /** Binary digits of the exponent. */
  function Bits(e: nat): nat
  {
    if e == 0 then 0 else 1 + Bits(e / 2)
  }

  lemma {:induction false} PowPlus(b: nat, m: nat, n: nat)
    ensures Pow(b, m + n) == Pow(b, m) * Pow(b, n)
  {
    if m > 0 {
      PowPlus(b, m - 1, n);
      Associates(b, Pow(b, m - 1), Pow(b, n));
    }
  }

  lemma Associates(a: nat, b: nat, c: nat)
    ensures a * (b * c) == (a * b) * c
  {
  }

  lemma {:induction false} PowTimes(b: nat, m: nat, n: nat)
    ensures Pow(b, m * n) == Pow(Pow(b, m), n)
  {
    if n == 0 {
      assert m * n == 0;
    } else {
      PowTimes(b, m, n - 1);
      assert m * n == m + m * (n - 1);
      PowPlus(b, m, m * (n - 1));
    }
  }

  /** Dividing out multiples of the modulus. */
  lemma ModShift(x: int, k: int, m: nat)
    requires m > 0
    ensures (x + k * m) % m == x % m
  {
    var q, r := x / m, x % m;
    var y := x + k * m;
    assert y == (q + k) * m + r by {
      Distributes(q, k, m);
    }
    Quotient(y, q + k, r, m);
  }

  lemma Distributes(q: int, k: int, m: int)
    ensures (q + k) * m == q * m + k * m
  {
  }

  lemma Quotient(y: int, q: int, r: int, m: nat)
    requires m > 0 && y == q * m + r && 0 <= r < m
    ensures y % m == r
  {
    var p, s := y / m, y % m;
    Distributes(p - q, q, m);
    assert (p - q) * m == r - s;
    Multiple(p - q, m);
  }

  /** A multiple of `m` that is not zero is at least `m` away from it. */
  lemma Multiple(d: int, m: nat)
    ensures d >= 1 ==> d * m >= m
    ensures d <= -1 ==> d * m + m <= 0
  {
    if d >= 1 {
      Product(d - 1, m);
      Distributes(d - 1, 1, m);
    } else if d <= -1 {
      Product(-d - 1, m);
      Distributes(-d - 1, 1, m);
      assert (-d) * m == -(d * m);
    }
  }

  lemma Product(a: nat, b: nat)
    ensures a * b >= 0
  {
  }

  lemma ModTimes(a: nat, b: nat, m: nat)
    requires m > 0
    ensures (a % m) * b % m == a * b % m
    ensures a * (b % m) % m == a * b % m
  {
    var q := a / m;
    assert a == q * m + a % m;
    assert a * b == (a % m) * b + (q * b) * m by {
      Distributes(q * m, a % m, b);
      Associates(q, b, m);
      Associates(q, m, b);
      assert b * m == m * b;
    }
    ModShift((a % m) * b, q * b, m);
    var p := b / m;
    assert b == p * m + b % m;
    assert a * b == a * (b % m) + (a * p) * m by {
      Associates(a, p, m);
    }
    ModShift(a * (b % m), a * p, m);
  }

  lemma {:induction false} ModPower(b: nat, e: nat, m: nat)
    requires m > 0
    ensures Pow(b % m, e) % m == Pow(b, e) % m
  {
    if e > 0 {
      ModPower(b, e - 1, m);
      var p, q := Pow(b % m, e - 1), Pow(b, e - 1);
      ModTimes(b, p, m);
      ModTimes(b, q, m);
      ModTimes(b, p % m, m);
      assert (b % m) * p % m == b * p % m;
      assert b * p % m == b * (p % m) % m;
      assert b * q % m == b * (q % m) % m;
    }
  }

  /** What the loop returns: with no bit in the exponent the result is 1, which is only reduced when
      the modulus is above 1. */
  function Value(base: nat, exponent: nat, modulus: nat): nat
    requires modulus > 0
  {
    if exponent == 0 then 1 else Pow(base, exponent) % modulus
  }

  /** `modPow` as it runs; `rounds` counts its iterations. A zero modulus throws. */
  method ModPow(base: nat, exponent: nat, modulus: nat) returns (power: Option<nat>, ghost rounds: nat)
    ensures power == if modulus == 0 then None else Some(Value(base, exponent, modulus))
    ensures modulus > 0 ==> rounds == Bits(exponent)
  {
    if modulus == 0 {
      return None, 0;
    }
    var result: nat;
    result, rounds := SquareAndMultiply(base, exponent, modulus);
    power := Some(result);
  }

  method SquareAndMultiply(base: nat, exponent: nat, modulus: nat) returns (result: nat, ghost rounds: nat)
    requires modulus > 0
    ensures result == Value(base, exponent, modulus)
    ensures rounds == Bits(exponent)
  {
    result := 1;
    rounds := 0;
    var factor: nat := base % modulus;
    var power: nat := exponent;
    ghost var started := false;
    ModPower(base, exponent, modulus);
    assert 1 * Pow(factor, power) == Pow(factor, power);
    while power > 0
      invariant result * Pow(factor, power) % modulus == Pow(base, exponent) % modulus
      invariant rounds + Bits(power) == Bits(exponent)
      invariant !started ==> power == exponent && result == 1
      invariant started && power == 0 ==> result < modulus
      invariant started ==> exponent > 0
    {
      ghost var r, f := result, factor;
      Halve(r, f, power, modulus);
      if power % 2 == 1 {
        result := (result * factor) % modulus;
      }
      factor := (factor * factor) % modulus;
      power := power / 2;
      rounds := rounds + 1;
      started := true;
    }
    if exponent > 0 {
      assert result * Pow(factor, 0) == result;
      Small(result, modulus);
    }
  }

  lemma Small(x: nat, m: nat)
    requires x < m
    ensures x % m == x
  {
  }

  /** One round keeps the product. */
  lemma Halve(r: nat, f: nat, power: nat, m: nat)
    requires m > 0 && power > 0
    ensures var r' := if power % 2 == 1 then (r * f) % m else r;
            r' * Pow((f * f) % m, power / 2) % m == r * Pow(f, power) % m
  {
    var h := power / 2;
    var r' := if power % 2 == 1 then (r * f) % m else r;
    var square := Pow(f * f, h);
    Squared(f, h);
    ModPower(f * f, h, m);
    ModTimes(r', Pow((f * f) % m, h), m);
    ModTimes(r', square, m);
    assert r' * Pow((f * f) % m, h) % m == r' * square % m;
    if power % 2 == 1 {
      assert power == 1 + 2 * h;
      PowPlus(f, 1, 2 * h);
      assert Pow(f, 1) == f * Pow(f, 0);
      ModTimes(r * f, square, m);
      Associates(r, f, square);
    }
  }

  lemma Squared(f: nat, h: nat)
    ensures Pow(f * f, h) == Pow(f, 2 * h)
  {
    PowTimes(f, 2, h);
    assert Pow(f, 2) == f * Pow(f, 1);
    assert Pow(f, 1) == f * Pow(f, 0);
  }

  /** Above modulus 1 the result is the power; at modulus 1 it is 1 for exponent 0 and 0 otherwise. */
  lemma ValueIsPowerIff(base: nat, exponent: nat, modulus: nat)
    requires modulus > 0
    ensures Value(base, exponent, modulus) == Pow(base, exponent) % modulus <==> modulus > 1 || exponent > 0
  {
    if exponent == 0 && modulus > 1 {
      Small(1, modulus);
    }
  }

  /** The law behind signing and verifying: a power of a power is the power of the product. */
  lemma ModPowComposes(base: nat, d: nat, e: nat, modulus: nat)
    requires modulus > 1
    ensures Value(Value(base, d, modulus), e, modulus) == Value(base, d * e, modulus)
  {
    ValueIsPowerIff(base, d, modulus);
    ValueIsPowerIff(Value(base, d, modulus), e, modulus);
    ValueIsPowerIff(base, d * e, modulus);
    ModPower(Pow(base, d), e, modulus);
    PowTimes(base, d, e);
  }

  /** The bit length brackets the exponent. */
  lemma {:induction false} BitsBracket(e: nat)
    ensures e < Pow(2, Bits(e))
    ensures e > 0 ==> Pow(2, Bits(e) - 1) <= e
  {
    if e > 0 {
      BitsBracket(e / 2);
      if e / 2 > 0 {
        assert Pow(2, Bits(e) - 1) == 2 * Pow(2, Bits(e / 2) - 1);
      }
    }
  }
}
