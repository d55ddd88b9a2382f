/** Arithmetic on the unsigned words of the machine: powers of two, single bits,
    shifts and the bitwise operators, all defined by recursion on the binary digits. */
module Bits {

  const K4: nat := 0x10
  const K8: nat := 0x100
  const K16: nat := 0x1_0000
  const K19: nat := 0x8_0000
  const K24: nat := 0x100_0000

  function Pow2(n: nat): (p: nat)
    ensures p >= 1
  {
    if n == 0 then 1 else 2 * Pow2(n - 1)
  }

  lemma Pow2Values()
    ensures Pow2(4) == K4 && Pow2(8) == K8 && Pow2(16) == K16 && Pow2(19) == K19 && Pow2(24) == K24
  {
    assert Pow2(4) == 16;
    assert Pow2(8) == 16 * Pow2(4);
    assert Pow2(12) == 16 * Pow2(8);
    assert Pow2(16) == 16 * Pow2(12);
    assert Pow2(19) == 8 * Pow2(16);
    assert Pow2(20) == 2 * Pow2(19);
    assert Pow2(24) == 16 * Pow2(20);
  }

  lemma {:induction false} Pow2Monotone(a: nat, b: nat)
    requires a <= b
    ensures Pow2(a) <= Pow2(b)
  {
    if a < b {
      Pow2Monotone(a, b - 1);
    }
  }

  lemma {:induction false} Pow2Add(a: nat, b: nat)
    ensures Pow2(a + b) == Pow2(a) * Pow2(b)
  {
    if b > 0 {
      Pow2Add(a, b - 1);
      assert Pow2(a + b) == 2 * Pow2(a + (b - 1));
      assert Pow2(a) * Pow2(b) == 2 * (Pow2(a) * Pow2(b - 1));
    }
  }

  /** Logical right shift. */
  function Shr(v: nat, k: nat): nat {
    if k == 0 then v else Shr(v / 2, k - 1)
  }

  /** Bit k of v, bit 0 the least significant. */
  predicate Bit(v: nat, k: nat) {
    if k == 0 then v % 2 == 1 else Bit(v / 2, k - 1)
  }

  function B(b: bool): (n: nat)
    ensures n <= 1
  {
    if b then 1 else 0
  }

  lemma {:induction false} ShrStep(v: nat, k: nat)
    ensures Shr(v, k) == 2 * Shr(v, k + 1) + B(Bit(v, k))
  {
    if k > 0 {
      ShrStep(v / 2, k - 1);
      assert Shr(v, k + 1) == Shr(v / 2, k);
    } else {
      assert Shr(v, 1) == Shr(v / 2, 0);
    }
  }

  lemma {:induction false} ShrOfSmall(v: nat, n: nat)
    requires v < Pow2(n)
    ensures Shr(v, n) == 0
  {
    if n > 0 {
      ShrOfSmall(v / 2, n - 1);
    }
  }

  function BitAnd(a: nat, b: nat): (r: nat)
    ensures r <= a && r <= b
  {
    if a == 0 || b == 0 then 0 else 2 * BitAnd(a / 2, b / 2) + (a % 2) * (b % 2)
  }

  function BitOr(a: nat, b: nat): nat {
    if a == 0 then b else if b == 0 then a else 2 * BitOr(a / 2, b / 2) + B(a % 2 == 1 || b % 2 == 1)
  }

  function BitXor(a: nat, b: nat): nat {
    if a == 0 then b else if b == 0 then a else 2 * BitXor(a / 2, b / 2) + B(a % 2 != b % 2)
  }

  lemma {:induction false} OrXorRange(a: nat, b: nat, n: nat)
    requires a < Pow2(n) && b < Pow2(n)
    ensures BitOr(a, b) < Pow2(n) && BitXor(a, b) < Pow2(n)
  {
    if a != 0 && b != 0 {
      OrXorRange(a / 2, b / 2, n - 1);
    }
  }

  lemma MulMonotone(d: nat, a: int, b: int)
    requires a <= b
    ensures d * a <= d * b
  {
  }

  lemma DoubleShifted(hi: nat, p: nat, lo: nat, b: nat)
    ensures 2 * (hi * p + lo) + b == hi * (2 * p) + (2 * lo + b)
  {
  }

  lemma DivMod(q: nat, r: nat, d: nat)
    requires r < d
    ensures (q * d + r) / d == q && (q * d + r) % d == r
  {
    var n := q * d + r;
    var k := n / d;
    assert n == d * k + n % d;
    if k < q {
      MulMonotone(d, k + 1, q);
    } else if q < k {
      MulMonotone(d, q + 1, k);
    }
  }

  // ----- bits of a part -----

  lemma {:induction false} ShiftedBit(w: nat, n: nat, k: nat)
    ensures Bit(Shr(w, n), k) == Bit(w, k + n)
  {
    if n > 0 {
      ShiftedBit(w / 2, n - 1, k);
    }
  }

  lemma {:induction false} LowBit(w: nat, n: nat, k: nat)
    requires k < n
    ensures Bit(w % Pow2(n), k) == Bit(w, k)
  {
    assert Pow2(n) == 2 * Pow2(n - 1);
    HalvesMod(w, Pow2(n - 1));
    if k > 0 {
      LowBit(w / 2, n - 1, k - 1);
    }
  }

  lemma HalvesMod(w: nat, p: nat)
    requires p > 0
    ensures w % (2 * p) % 2 == w % 2 && w % (2 * p) / 2 == w / 2 % p
  {
    var q, r := w / 2 / p, w / 2 % p;
    assert w / 2 == q * p + r;
    assert q * (2 * p) == 2 * (q * p);
    DivMod(q, 2 * r + w % 2, 2 * p);
  }

  lemma ShrFour(v: nat)
    ensures Shr(v, 4) == v / 16
  {
    assert Shr(v, 4) == Shr(v / 2, 3) && Shr(v / 2, 3) == Shr(v / 2 / 2, 2);
    assert Shr(v / 4, 2) == Shr(v / 4 / 2, 1) && Shr(v / 8, 1) == Shr(v / 8 / 2, 0);
  }

  lemma {:induction false} ShrAdd(v: nat, a: nat, b: nat)
    ensures Shr(v, a + b) == Shr(Shr(v, a), b)
  {
    if a > 0 {
      ShrAdd(v / 2, a - 1, b);
    }
  }

  lemma ShrEight(v: nat)
    ensures Shr(v, 8) == v / 256
  {
    hide Shr;
    ShrFour(v);
    ShrAdd(v, 4, 4);
    ShrFour(v / 16);
  }

  lemma BitUp(v: nat, k: nat)
    ensures Bit(v, k + 1) == Bit(v / 2, k) && Bit(v, 0) == (v % 2 == 1)
  {
  }

  lemma FourBits(v: nat)
    ensures Bit(v, 0) == (v % 2 == 1) && Bit(v, 1) == (v / 2 % 2 == 1) && Bit(v, 2) == (v / 4 % 2 == 1)
    ensures Bit(v, 3) == (v / 8 % 2 == 1)
  {
    hide Bit;
    BitUp(v, 0);
    BitUp(v, 1);
    BitUp(v, 2);
    BitUp(v / 2, 0);
    BitUp(v / 2, 1);
    BitUp(v / 4, 0);
    BitUp(v / 8, 0);
  }

  // ----- division by a product -----

  lemma Parts(q: nat, t: nat, r: nat, x: nat, y: nat)
    requires t < y && r < x
    ensures (q * y + t) * x + r == q * (x * y) + (t * x + r) && t * x + r < x * y
  {
    assert (q * y + t) * x == q * y * x + t * x;
    assert q * y * x == q * (x * y);
    MulMonotone(x, t + 1, y);
    assert x * (t + 1) == t * x + x;
  }

  lemma DivDivFrom(q: nat, t: nat, r: nat, x: nat, y: nat, w: nat)
    requires t < y && r < x && w == (q * y + t) * x + r
    ensures y * x > 0 && w / (y * x) == q && w / x / y == q
  {
    Parts(q, t, r, x, y);
    Positive(x, y);
    DivMod(q, t * x + r, x * y);
    DivMod(q * y + t, r, x);
    DivMod(q, t, y);
  }

  lemma Positive(x: nat, y: nat)
    requires x > 0 && y > 0
    ensures x * y == y * x > 0
  {
  }

  lemma Splits(w: nat, x: nat) returns (a: nat, r: nat)
    requires x > 0
    ensures w == a * x + r && r < x && a == w / x
  {
    a, r := w / x, w % x;
  }

  lemma DivDiv(w: nat, x: nat, y: nat)
    requires x > 0 && y > 0
    ensures y * x > 0 && w / (y * x) == w / x / y
  {
    var a, r := Splits(w, x);
    var q, t := Splits(a, y);
    DivDivFrom(q, t, r, x, y, w);
  }
}
