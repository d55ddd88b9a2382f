/** S-memory as the machine holds it: an array of octets changed in place bit by bit, proved against its
    sequence-of-bits view. */
module Storage {
  import opened Bits
  import opened BitMemory
  import opened Registers

  // ----- bits of the bitwise operators -----

  lemma {:induction false} OrBits(a: nat, b: nat, k: nat)
    ensures Bit(BitOr(a, b), k) == (Bit(a, k) || Bit(b, k))
  {
    if a == 0 {
      ZeroBits(k);
    } else if b == 0 {
      ZeroBits(k);
    } else if k > 0 {
      OrBits(a / 2, b / 2, k - 1);
    }
  }

  lemma {:induction false} AndBits(a: nat, b: nat, k: nat)
    ensures Bit(BitAnd(a, b), k) == (Bit(a, k) && Bit(b, k))
  {
    if a == 0 || b == 0 {
      ZeroBits(k);
    } else if k > 0 {
      AndBits(a / 2, b / 2, k - 1);
    } else {
      AndLow(a, b);
    }
  }

  lemma AndLow(a: nat, b: nat)
    requires a > 0 && b > 0
    ensures BitAnd(a, b) % 2 == 1 <==> a % 2 == 1 && b % 2 == 1
  {
    var k, x, y := BitAnd(a / 2, b / 2), a % 2, b % 2;
    assert BitAnd(a, b) == 2 * k + x * y;
    hide BitAnd;
    if x == 0 {
      assert x * y == 0;
    } else {
      assert x * y == y;
    }
  }

  lemma {:induction false} ZeroBits(k: nat)
    ensures !Bit(0, k)
  {
    if k > 0 {
      ZeroBits(k - 1);
    }
  }

  lemma {:induction false} PowerBits(p: nat, k: nat)
    ensures Bit(Pow2(p), k) == (k == p)
  {
    if p > 0 && k > 0 {
      PowerBits(p - 1, k - 1);
    } else if p == 0 && k > 0 {
      ZeroBits(k - 1);
    }
  }

  /** All n ones but bit p. */
  lemma {:induction false} MaskBits(n: nat, p: nat, k: nat)
    requires p < n && k < n
    ensures Pow2(p) < Pow2(n) && Bit(Pow2(n) - 1 - Pow2(p), k) == (k != p)
  {
    Pow2Monotone(p + 1, n);
    if p > 0 && k > 0 {
      MaskBits(n - 1, p - 1, k - 1);
      assert (Pow2(n) - 1 - Pow2(p)) / 2 == Pow2(n - 1) - 1 - Pow2(p - 1);
    } else if k > 0 {
      OnesBits(n - 1, k - 1);
      assert (Pow2(n) - 1 - Pow2(p)) / 2 == Pow2(n - 1) - 1;
    }
  }

  lemma {:induction false} OnesBits(n: nat, k: nat)
    requires k < n
    ensures Bit(Pow2(n) - 1, k)
  {
    if k > 0 {
      OnesBits(n - 1, k - 1);
      assert (Pow2(n) - 1) / 2 == Pow2(n - 1) - 1;
    }
  }

  /** v with bit p (0 the least significant) set or cleared. */
  function WithBit(v: Octet, p: nat, b: bool): Octet
    requires p < 8
  {
    Pow2Values();
    Pow2Monotone(p + 1, 8);
    OrXorRange(v, Pow2(p), 8);
    if b then BitOr(v, Pow2(p)) else BitAnd(v, 255 - Pow2(p))
  }

  lemma WithBitBits(v: Octet, p: nat, b: bool, k: nat)
    requires p < 8 && k < 8
    ensures Bit(WithBit(v, p, b), k) == if k == p then b else Bit(v, k)
  {
    OrBits(v, Pow2(p), k);
    PowerBits(p, k);
    MaskBits(8, p, k);
    Pow2Values();
    AndBits(v, 255 - Pow2(p), k);
    hide Bit, BitAnd, BitOr, Pow2;
  }

  // ----- the bits of an octet string -----

  /** The bits of the octets, each from its most significant bit. */
  function BitsOf(d: seq<Octet>): (m: Mem)
    ensures |m| == 8 * |d|
  {
    seq(8 * |d|, i requires 0 <= i < 8 * |d| => Bit(d[i / 8], 7 - i % 8))
  }

  /** Setting a bit of one octet is setting that bit of the string. */
  lemma SetsBit(d: seq<Octet>, a: nat, b: bool)
    requires a < 8 * |d|
    ensures BitsOf(d[a / 8 := WithBit(d[a / 8], 7 - a % 8, b)]) == BitsOf(d)[a := b]
  {
    hide Bit, WithBit;
    var d' := d[a / 8 := WithBit(d[a / 8], 7 - a % 8, b)];
    forall i | 0 <= i < 8 * |d|
      ensures BitsOf(d')[i] == BitsOf(d)[a := b][i]
    {
      if i / 8 == a / 8 {
        assert i % 8 == a % 8 <==> i == a;
        WithBitBits(d[a / 8], 7 - a % 8, b, 7 - i % 8);
      }
    }
    assert BitsOf(d') == BitsOf(d)[a := b];
  }

  /** The first k bits of a field written. */
  function Written(m: Mem, a: nat, n: nat, v: nat, rev: bool, k: nat): (m': Mem)
    requires k <= n
    ensures |m'| == |m|
  {
    seq(|m|, i requires 0 <= i < |m| =>
      if InField(a, n, rev, i) && FieldIndex(a, rev, i) < k then Bit(v, n - 1 - FieldIndex(a, rev, i)) else m[i])
  }

  lemma WrittenStep(m: Mem, a: nat, n: nat, v: nat, rev: bool, k: nat)
    requires k < n
    ensures var i := FieldAddr(a, k, rev); var w := Written(m, a, n, v, rev, k);
      Written(m, a, n, v, rev, k + 1) == if 0 <= i < |m| then w[i := Bit(v, n - 1 - k)] else w
  {
    hide Bit;
  }

  lemma WrittenEnds(m: Mem, a: nat, n: nat, v: nat, rev: bool)
    ensures Written(m, a, n, v, rev, 0) == m && Written(m, a, n, v, rev, n) == WriteField(m, a, n, v, rev)
  {
    hide Bit;
  }

  /** A 32-bit address computed in a field; below the first bit it wraps far past the end of memory. */
  function Wrap32(a: int): nat { a % 0x1_0000_0000 }

  lemma WrapOutside(m: Mem, a: int)
    requires |m| <= 0x1000_0000 && -24 <= a < 0x1000_0018
    ensures Wrap32(a) == (if a < 0 then a + 0x1_0000_0000 else a) && BitAt(m, Wrap32(a)) == BitAt(m, a)
  {
  }

  lemma {:induction false} FetchOctets(d: seq<Octet>, a: nat, k: nat)
    requires a < |d| && k <= 8
    ensures ReadField(BitsOf(d), 8 * a, k, false) == Shr(d[a], 8 - k)
  {
    if k == 0 {
      Pow2Values();
      ShrOfSmall(d[a], 8);
    } else {
      FetchOctets(d, a, k - 1);
      ShrStep(d[a], 8 - k);
      var i := 8 * a + k - 1;
      assert FieldAddr(8 * a, k - 1, false) == i && i / 8 == a && i % 8 == k - 1;
    }
  }

  function Joined(hi: nat, lo: nat): nat { 256 * hi + lo }

  /** Octets side by side read as one field. */
  lemma FetchPair(d: seq<Octet>, a: nat)
    requires a + 1 < |d|
    ensures ReadField(BitsOf(d), 8 * a, 16, false) == Joined(d[a], d[a + 1])
  {
    ReadConcat(BitsOf(d), 8 * a, 8, 8);
    FetchOctets(d, a, 8);
    FetchOctets(d, a + 1, 8);
    Pow2Values();
    hide ReadField, BitsOf;
  }

  class Memory {
    const data: array<Octet>

    /** A memory of the given size, all zero. */
    constructor (size: nat)
      ensures fresh(data) && data.Length == size && forall i :: 0 <= i < size ==> data[i] == 0
    {
      data := new Octet[size](_ => 0);
    }

    /** The memory as a sequence of bits. */
    ghost function Contents(): (m: Mem)
      reads data
      ensures |m| == 8 * data.Length
    {
      BitsOf(data[..])
    }

    method GetBit(bitAddr: nat) returns (b: bool)
      ensures b == BitAt(Contents(), bitAddr)
    {
      var byteIdx, bitPos := bitAddr / 8, 7 - bitAddr % 8;
      if byteIdx >= data.Length {
        return false;
      }
      b := Bit(data[byteIdx], bitPos);
    }

    method SetBit(bitAddr: nat, val: bool)
      modifies data
      ensures Contents() == if bitAddr < |old(Contents())| then old(Contents())[bitAddr := val] else old(Contents())
    {
      var byteIdx, bitPos := bitAddr / 8, 7 - bitAddr % 8;
      if byteIdx >= data.Length {
        return;
      }
      ghost var before := data[..];
      SetsBit(before, bitAddr, val);
      data[byteIdx] := WithBit(data[byteIdx], bitPos, val);
      assert data[..] == before[byteIdx := WithBit(before[byteIdx], bitPos, val)];
    }

    /** Reads a field bit by bit, in either direction. */
    method ReadBits(bitAddr: nat, fieldLen: nat, reverse: bool) returns (result: nat)
      requires 1 <= fieldLen <= 24 && bitAddr < 0x1000_0000 && data.Length <= 0x20_0000
      ensures result == ReadField(Contents(), bitAddr, fieldLen, reverse)
    {
      hide Contents, Pow2;
      result := 0;
      var i := 0;
      while i < fieldLen
        invariant 0 <= i <= fieldLen
        invariant result == ReadField(Contents(), bitAddr, i, reverse)
      {
        var addr := Wrap32(FieldAddr(bitAddr, i, reverse));
        WrapOutside(Contents(), FieldAddr(bitAddr, i, reverse));
        var bit := GetBit(addr);
        result := 2 * result + B(bit);
        i := i + 1;
      }
    }

    /** Writes the low bits of a value to a field bit by bit, in either direction; other bits keep their value. */
    method WriteBits(bitAddr: nat, fieldLen: nat, value: nat, reverse: bool)
      requires 1 <= fieldLen <= 24 && bitAddr < 0x1000_0000 && data.Length <= 0x20_0000
      modifies data
      ensures Contents() == WriteField(old(Contents()), bitAddr, fieldLen, value, reverse)
    {
      hide Written, WriteField, Contents, ReadField;
      ghost var before := Contents();
      WrittenEnds(before, bitAddr, fieldLen, value, reverse);
      var i := 0;
      while i < fieldLen
        invariant 0 <= i <= fieldLen
        invariant Contents() == Written(before, bitAddr, fieldLen, value, reverse, i)
      {
        var addr := Wrap32(FieldAddr(bitAddr, i, reverse));
        WrapOutside(before, FieldAddr(bitAddr, i, reverse));
        WrittenStep(before, bitAddr, fieldLen, value, reverse, i);
        SetBit(addr, Bit(value, fieldLen - 1 - i));
        i := i + 1;
      }
    }

    /** The aligned word at a bit address, zero outside memory. */
    method FetchWord(bitAddr: nat) returns (w: nat)
      ensures w == FetchMicro(Contents(), bitAddr)
    {
      var byteAddr := bitAddr / 16 * 2;
      if byteAddr + 1 >= data.Length {
        return 0;
      }
      w := Joined(data[byteAddr], data[byteAddr + 1]);
      FetchPair(data[..], byteAddr);
    }

    method WriteByte(byteAddr: nat, val: Octet)
      modifies data
      ensures data[..] == if byteAddr < data.Length then old(data[..])[byteAddr := val] else old(data[..])
    {
      if byteAddr < data.Length {
        data[byteAddr] := val;
      }
    }

    /** Copies bytes into memory; they must fit. */
    method LoadBytes(byteOffset: nat, src: seq<Octet>)
      requires byteOffset + |src| <= data.Length
      modifies data
      ensures data[..] == old(data[..byteOffset]) + src + old(data[byteOffset + |src|..])
    {
      var i := 0;
      while i < |src|
        invariant 0 <= i <= |src|
        invariant data[..] == old(data[..byteOffset]) + src[..i] + old(data[byteOffset + i..])
      {
        data[byteOffset + i] := src[i];
        i := i + 1;
      }
    }
  }
}
