/** The operand width that bits 3 to 7 of CP name, and masking to it. */
module OperandWidth {
  import opened Bits
  import opened Registers

  /** The length field of CP, where zero stands for 24. */
  function OperandLength(cp: nat): (n: nat)
    ensures 1 <= n < 32
  {
    if cp / 8 % 32 == 0 then 24 else cp / 8 % 32
  }

  /** Operands count modulo this; lengths above 24 are those of a whole register. */
  function Modulus(cp: nat): (p: nat)
    ensures p > 0
  {
    if OperandLength(cp) >= 24 then 0x100_0000 else Pow2(OperandLength(cp))
  }

  lemma WidthIs(cp: nat)
    ensures Width(cp) == OperandLength(cp)
  {
  }

  lemma MaskedIsMod(v: nat, cp: nat)
    ensures Masked(v, cp) == v % Modulus(cp) && AllOnes(cp) + 1 == Modulus(cp) <= 0x100_0000
  {
    WidthIs(cp);
    hide Width, Pow2, OperandLength;
  }

  lemma ModulusPower(cp: nat)
    ensures Modulus(cp) == Pow2(if OperandLength(cp) > 24 then 24 else OperandLength(cp))
  {
    assert Pow2(24) == 0x100_0000 by {
      Pow2Values();
    }
    hide OperandLength, Pow2;
  }

  /** The bits of a masked operand are those of the register below the operand length. */
  lemma MaskedBits(v: Word, cp: nat, k: nat)
    ensures Bit(Masked(v, cp), k) == (k < OperandLength(cp) && Bit(v, k))
  {
    hide Masked, Modulus;
    MaskedIsMod(v, cp);
    ModulusPower(cp);
    var n := if OperandLength(cp) > 24 then 24 else OperandLength(cp);
    if k < n {
      LowBit(v, n, k);
    } else {
      HighBit(v % Pow2(n), n, k);
      assert Pow2(24) == 0x100_0000 by {
        Pow2Values();
      }
      if n == 24 {
        HighBit(v, 24, k);
      }
    }
  }

  /** A number below 2^n has no bit from n on. */
  lemma {:induction false} HighBit(v: nat, n: nat, k: nat)
    requires v < Pow2(n) && n <= k
    ensures !Bit(v, k)
  {
    if k > 0 {
      HighBit(v / 2, if n == 0 then 0 else n - 1, k - 1);
    }
  }

  /** The complement at the operand width. */
  lemma {:induction false} ComplementBit(v: nat, n: nat, k: nat)
    requires v < Pow2(n)
    ensures Bit(Pow2(n) - 1 - v, k) == (k < n && !Bit(v, k))
  {
    if n == 0 {
      HighBit(0, 0, k);
    } else if k > 0 {
      assert (Pow2(n) - 1 - v) / 2 == Pow2(n - 1) - 1 - v / 2;
      ComplementBit(v / 2, n - 1, k - 1);
    }
  }

  /** A sum of remainders has the remainder of the sum. */
  lemma AddMod(x: int, y: int, p: nat)
    requires p > 0
    ensures (x % p + y % p) % p == (x + y) % p && (x % p - y % p) % p == (x - y) % p
  {
    var qx, rx := Remainder(x, p);
    var qy, ry := Remainder(y, p);
    AddModFrom(x, qx, rx, y, qy, ry, p);
  }

  lemma AddModFrom(x: int, qx: int, rx: int, y: int, qy: int, ry: int, p: nat)
    requires p > 0 && x == qx * p + rx && y == qy * p + ry
    ensures (x + y) % p == (rx + ry) % p && (x - y) % p == (rx - ry) % p
  {
    Regroup(qx, qy, p);
    assert x + y == (qx + qy) * p + (rx + ry) && x - y == (qx - qy) * p + (rx - ry);
    Shifted(rx + ry, qx + qy, p);
    Shifted(rx - ry, qx - qy, p);
  }

  lemma Remainder(x: int, p: nat) returns (q: int, r: int)
    requires p > 0
    ensures x == q * p + r && r == x % p
  {
    q, r := x / p, x % p;
  }

  lemma Regroup(a: int, b: int, p: nat)
    ensures (a + b) * p == a * p + b * p && (a - b) * p == a * p - b * p
  {
  }

  lemma Shifted(r: int, q: int, p: nat)
    requires p > 0
    ensures (q * p + r) % p == r % p
  {
    var k, m := r / p, r % p;
    assert r == k * p + m && q * p + r == (q + k) * p + m;
    Unique(q + k, m, p);
  }

  lemma Unique(q: int, r: int, d: nat)
    requires 0 <= r < d
    ensures (q * d + r) % d == r
  {
    var n := q * d + r;
    var k := n / d;
    assert n == k * d + n % d;
    if k < q {
      MulMonotone(d, k + 1, q);
    } else if q < k {
      MulMonotone(d, q + 1, k);
    }
  }
}
