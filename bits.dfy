/** Powers of two and the bitwise operators of JavaScript's BigInt on non-negative values. */
module Bits {

  function Pow2(n: nat): (r: nat)
    ensures r >= 1
  {
    if n == 0 then 1 else 2 * Pow2(n - 1)
  }

  /** The all-ones mask of `n` bits, `(1n << n) - 1n`. */
  function Mask(n: nat): (r: nat)
    ensures r < Pow2(n)
    ensures n > 0 ==> r % 2 == 1 && r / 2 == Pow2(n - 1) - 1
  {
    Pow2(n) - 1
  }

  /** BigInt `a ^ b` on non-negative operands, bit by bit from the least significant one. */
  function Xor(a: nat, b: nat): (r: nat)
    ensures r <= a + b
    ensures b == 0 ==> r == a
    ensures a == b ==> r == 0
    decreases a + b
  {
    if a == 0 && b == 0 then 0
    else 2 * Xor(a / 2, b / 2) + (a % 2 + b % 2) % 2
  }

  /** BigInt `a & b` on non-negative operands. */
  function And(a: nat, b: nat): (r: nat)
    ensures r <= a && r <= b
    decreases a + b
  {
    if a == 0 || b == 0 then 0
    else 2 * And(a / 2, b / 2) + (if a % 2 == 1 && b % 2 == 1 then 1 else 0)
  }

  lemma {:induction false} Pow2Add(a: nat, b: nat)
    ensures Pow2(a + b) == Pow2(a) * Pow2(b)
  {
    if b > 0 {
      Pow2Add(a, b - 1);
      assert Pow2(a + b) == 2 * Pow2(a + b - 1);
    }
  }

  /** One more byte multiplies the range by 256. */
  lemma Pow2Byte(k: nat)
    ensures Pow2(8 * (k + 1)) == 256 * Pow2(8 * k)
  {
    Pow2Add(8 * k, 8);
    assert Pow2(8) == 256;
  }

  /** Division with remainder has one answer. */
  lemma DivModUnique(n: nat, d: nat, q: nat, r: nat)
    requires d > 0 && r < d && n == d * q + r
    ensures n / d == q && n % d == r
  {
    var q', r' := n / d, n % d;
    assert n == d * q' + r' && 0 <= r' < d;
    if q' < q {
      assert d * q == d * q' + d * (q - q');
      MulAtLeast(d, q - q');
    } else if q < q' {
      assert d * q' == d * q + d * (q' - q);
      MulAtLeast(d, q' - q);
    }
  }

  lemma MulAtLeast(d: nat, k: nat)
    requires k >= 1
    ensures d * k >= d
  {
    assert d * k == d * (k - 1) + d;
  }

  /** Taking `n` modulo `b * m` keeps its low digit in base `b` and the rest modulo `m`. */
  lemma ModSplit(n: nat, b: nat, m: nat)
    requires b > 0 && m > 0
    ensures n % (b * m) == b * ((n / b) % m) + n % b
  {
    var q, r := n / b, n % b;
    var q1, q2 := q / m, q % m;
    Regroup(b, m, q, q1, q2);
    DigitBelow(b, m, q2, r);
    DivModUnique(n, b * m, q1, b * q2 + r);
  }

  lemma Regroup(b: nat, m: nat, q: nat, q1: nat, q2: nat)
    requires q == m * q1 + q2
    ensures b * q == (b * m) * q1 + b * q2
  {
    calc {
      b * q;
      b * (m * q1 + q2);
      b * (m * q1) + b * q2;
      (b * m) * q1 + b * q2;
    }
  }

  lemma DigitBelow(b: nat, m: nat, q2: nat, r: nat)
    requires q2 < m && r < b
    ensures b * q2 + r < b * m
  {
    MulAtLeast(b, m - q2);
    assert b * m == b * q2 + b * (m - q2);
  }

  /** XOR with the same value twice gives the value back. */
  lemma {:induction false} XorSelfInverse(a: nat, b: nat)
    ensures Xor(Xor(a, b), b) == a
    decreases a + b
  {
    if a != 0 || b != 0 {
      var c := Xor(a, b);
      XorHalves(a, b);
      XorSelfInverse(a / 2, b / 2);
      XorHalves(c, b);
      ParityCancel(a, b);
      SameHalves(Xor(c, b), a);
    }
  }

  /** The high bits of a XOR are the XOR of the high bits; its low bit is the parity of the low bits. */
  lemma XorHalves(a: nat, b: nat)
    ensures Xor(a, b) / 2 == Xor(a / 2, b / 2) && Xor(a, b) % 2 == (a % 2 + b % 2) % 2
  {
    var x, bit := Xor(a / 2, b / 2), (a % 2 + b % 2) % 2;
    assert Xor(a, b) == 2 * x + bit;
  }

  lemma ParityCancel(a: nat, b: nat)
    ensures ((a % 2 + b % 2) % 2 + b % 2) % 2 == a % 2
  {
  }

  lemma SameHalves(y: nat, z: nat)
    requires y / 2 == z / 2 && y % 2 == z % 2
    ensures y == z
  {
  }

  /** Reducing modulo `2 * p` keeps the low bit and reduces the high bits modulo `p`. */
  lemma LowBits(a: nat, p: nat)
    requires p > 0
    ensures (a % (2 * p)) / 2 == (a / 2) % p && (a % (2 * p)) % 2 == a % 2
  {
    ModSplit(a, 2, p);
    var hi := (a / 2) % p;
    assert a % (2 * p) == 2 * hi + a % 2;
  }

  /** XOR of two `n`-bit values is an `n`-bit value. */
  lemma {:induction false} XorBelow(a: nat, b: nat, n: nat)
    requires a < Pow2(n) && b < Pow2(n)
    ensures Xor(a, b) < Pow2(n)
  {
    if n > 0 && (a != 0 || b != 0) {
      XorBelow(a / 2, b / 2, n - 1);
    }
  }

  /** The low `n` bits of a XOR depend only on the low `n` bits of its operands. */
  lemma {:induction false} XorMod(a: nat, b: nat, n: nat)
    ensures Xor(a, b) % Pow2(n) == Xor(a % Pow2(n), b % Pow2(n))
  {
    if n > 0 {
      var p := Pow2(n - 1);
      var a', b', x := a % (2 * p), b % (2 * p), Xor(a, b);
      LowBits(a, p);
      LowBits(b, p);
      LowBits(x, p);
      XorMod(a / 2, b / 2, n - 1);
      XorHalves(a, b);
      XorHalves(a', b');
      SameHalves(x % (2 * p), Xor(a', b'));
    }
  }

  /** AND with the all-ones mask of `n` bits keeps exactly the low `n` bits. */
  lemma {:induction false} AndMask(x: nat, n: nat)
    ensures And(x, Mask(n)) == x % Pow2(n)
  {
    if n > 0 && x != 0 {
      var p := Pow2(n - 1);
      assert Mask(n) / 2 == Mask(n - 1) && Mask(n) % 2 == 1;
      AndMask(x / 2, n - 1);
      ModSplit(x, 2, p);
    }
  }

  /** Masked XOR with the same value, applied twice, keeps the low `n` bits of the start value. */
  lemma MaskedXorTwice(x: nat, y: nat, n: nat)
    ensures And(Xor(And(Xor(x, y), Mask(n)), y), Mask(n)) == x % Pow2(n)
  {
    var p := Pow2(n);
    var w := And(Xor(x, y), Mask(n));
    AndMask(Xor(x, y), n);
    AndMask(Xor(w, y), n);
    XorMod(x, y, n);
    XorMod(w, y, n);
    XorBelow(x % p, y % p, n);
    assert w < p;
    ModOfSmall(w, p);
    XorSelfInverse(x % p, y % p);
  }

  lemma ModOfSmall(x: nat, p: nat)
    requires x < p
    ensures x % p == x
  {
  }
}
