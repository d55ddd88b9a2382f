/** Bit-addressable S-memory seen as a sequence of bits, and the laws of its field accesses. */
module BitMemory {
  import opened Bits

  type Mem = seq<bool>

  /** A bit outside memory reads as zero. */
  predicate BitAt(m: Mem, a: int) {
    0 <= a < |m| && m[a]
  }

  /** The address of the i-th bit of a field, counted from its most significant end. */
  function FieldAddr(a: nat, i: nat, rev: bool): int {
    if rev then a - i else a + i
  }

  function ReadField(m: Mem, a: nat, n: nat, rev: bool): (v: nat)
    ensures v < Pow2(n)
  {
    if n == 0 then 0 else 2 * ReadField(m, a, n - 1, rev) + B(BitAt(m, FieldAddr(a, n - 1, rev)))
  }

  predicate InField(a: nat, n: nat, rev: bool, i: int) {
    if rev then a - n < i <= a else a <= i < a + n
  }

  function FieldIndex(a: nat, rev: bool, i: int): int {
    if rev then a - i else i - a
  }

  /** Bits of the field outside memory are dropped. */
  function WriteField(m: Mem, a: nat, n: nat, v: nat, rev: bool): (m': Mem)
    ensures |m'| == |m|
  {
    seq(|m|, i requires 0 <= i < |m| =>
      if InField(a, n, rev, i) then Bit(v, n - 1 - FieldIndex(a, rev, i)) else m[i])
  }

  /** The aligned 16-bit word at a bit address, or zero when it does not lie inside memory. */
  function FetchMicro(m: Mem, a: nat): (w: nat)
    ensures w < K16
  {
    Pow2Values();
    if a / 16 * 16 + 16 <= |m| then ReadField(m, a / 16 * 16, 16, false) else 0
  }

  // ----- laws -----

  /** The first k bits read back from a field just written are the top k bits of the value. */
  lemma {:induction false} ReadBackPrefix(m: Mem, a: nat, n: nat, v: nat, rev: bool, k: nat)
    requires k <= n && v < Pow2(n)
    requires if rev then n <= a + 1 && a < |m| else a + n <= |m|
    ensures ReadField(WriteField(m, a, n, v, rev), a, k, rev) == Shr(v, n - k)
  {
    if k == 0 {
      ShrOfSmall(v, n);
    } else {
      ReadBackPrefix(m, a, n, v, rev, k - 1);
      ShrStep(v, n - k);
      var i := FieldAddr(a, k - 1, rev);
      assert InField(a, n, rev, i) && FieldIndex(a, rev, i) == k - 1;
    }
  }

  /** An in-range write then read of the same field returns the value, in either direction. */
  lemma ReadBack(m: Mem, a: nat, n: nat, v: nat, rev: bool)
    requires v < Pow2(n)
    requires if rev then n <= a + 1 && a < |m| else a + n <= |m|
    ensures ReadField(WriteField(m, a, n, v, rev), a, n, rev) == v
  {
    ReadBackPrefix(m, a, n, v, rev, n);
  }

  /** Reading depends on the bits of the field only. */
  lemma {:induction false} ReadFrame(m: Mem, m': Mem, a: nat, n: nat, rev: bool)
    requires forall i: nat :: i < n ==> BitAt(m, FieldAddr(a, i, rev)) == BitAt(m', FieldAddr(a, i, rev))
    ensures ReadField(m, a, n, rev) == ReadField(m', a, n, rev)
  {
    if n > 0 {
      ReadFrame(m, m', a, n - 1, rev);
    }
  }

  /** A write leaves every disjoint field unchanged, in either direction. */
  lemma ReadDisjoint(m: Mem, a: nat, n: nat, v: nat, rev: bool, b: nat, k: nat, rev': bool)
    requires forall i :: InField(b, k, rev', i) ==> !InField(a, n, rev, i)
    ensures ReadField(WriteField(m, a, n, v, rev), b, k, rev') == ReadField(m, b, k, rev')
  {
    var m' := WriteField(m, a, n, v, rev);
    forall i: nat | i < k
      ensures BitAt(m, FieldAddr(b, i, rev')) == BitAt(m', FieldAddr(b, i, rev'))
    {
      assert InField(b, k, rev', FieldAddr(b, i, rev'));
    }
    ReadFrame(m, m', b, k, rev');
  }

  /** Adjacent fields concatenate. */
  lemma {:induction false} ReadConcat(m: Mem, a: nat, n: nat, k: nat)
    ensures ReadField(m, a, n + k, false) == ReadField(m, a, n, false) * Pow2(k) + ReadField(m, a + n, k, false)
  {
    if k > 0 {
      ReadConcat(m, a, n, k - 1);
      assert FieldAddr(a, n + k - 1, false) == FieldAddr(a + n, k - 1, false);
      var last := B(BitAt(m, FieldAddr(a + n, k - 1, false)));
      var hi, p, lo := ReadField(m, a, n, false), Pow2(k - 1), ReadField(m, a + n, k - 1, false);
      calc {
        ReadField(m, a, n + k, false);
        2 * (hi * p + lo) + last;
        { DoubleShifted(hi, p, lo, last); }
        hi * (2 * p) + (2 * lo + last);
        hi * Pow2(k) + ReadField(m, a + n, k, false);
      }
    } else {
      assert Pow2(0) == 1 && ReadField(m, a + n, 0, false) == 0;
    }
  }

  /** The n low bits of v in the opposite order. */
  function Reversed(v: nat, n: nat): nat {
    if n == 0 then 0 else B(v % 2 == 1) * Pow2(n - 1) + Reversed(v / 2, n - 1)
  }

  /** A reverse read is the bit reversal of the forward read of the same bits. */
  lemma {:induction false} ReverseRead(m: Mem, a: nat, n: nat)
    requires n <= a + 1
    ensures ReadField(m, a, n, true) == Reversed(ReadField(m, a + 1 - n, n, false), n)
  {
    if n > 0 {
      var v := ReadField(m, a + 1 - n, n, false);
      assert v / 2 == ReadField(m, a + 1 - n, n - 1, false);
      assert (v % 2 == 1) == BitAt(m, a);
      ReverseFirst(m, a, n);
      if n > 1 {
        ReverseRead(m, a - 1, n - 1);
      } else {
        assert ReadField(m, a, 1, true) == 2 * ReadField(m, a, 0, true) + B(BitAt(m, a));
      }
    }
  }

  /** The first bit of a reverse read is its most significant one. */
  lemma {:induction false} ReverseFirst(m: Mem, a: nat, n: nat)
    requires 0 < n <= a + 1
    ensures ReadField(m, a, n, true)
         == B(BitAt(m, a)) * Pow2(n - 1) + (if n == 1 then 0 else ReadField(m, a - 1, n - 1, true))
  {
    if n > 1 {
      ReverseFirst(m, a, n - 1);
      assert FieldAddr(a, n - 1, true) == FieldAddr(a - 1, n - 2, true);
      var b := BitAt(m, a);
      assert 2 * (B(b) * Pow2(n - 2)) == B(b) * Pow2(n - 1);
      assert ReadField(m, a, n, true) == 2 * ReadField(m, a, n - 1, true) + B(BitAt(m, a - (n - 1)));
      if n == 2 {
        assert ReadField(m, a - 1, 1, true) == 2 * ReadField(m, a - 1, 0, true) + B(BitAt(m, a - 1));
      } else {
        assert ReadField(m, a - 1, n - 1, true) == 2 * ReadField(m, a - 1, n - 2, true) + B(BitAt(m, a - (n - 1)));
      }
    } else {
      assert ReadField(m, a, 1, true) == 2 * ReadField(m, a, 0, true) + B(BitAt(m, a));
    }
  }
}
