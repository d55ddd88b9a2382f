/** Shifts, rotations and extraction, bit by bit. */
module ShiftLaws {
  import opened Bits
  import opened Isa
  import opened Registers
  import opened Machine
  import opened OperandWidth
  import OperatorLaws
  import Storage

  // ----- bits of products and joined numbers -----

  lemma {:induction false} TimesPower(v: nat, n: nat, k: nat)
    ensures Bit(v * Pow2(n), k) == (k >= n && Bit(v, k - n))
  {
    if n > 0 {
      var w := v * Pow2(n - 1);
      assert v * Pow2(n) == 2 * w by {
        DoubledProduct(v, Pow2(n - 1));
      }
      if k > 0 {
        assert Bit(2 * w, k) == Bit(w, k - 1);
        TimesPower(v, n - 1, k - 1);
      }
    }
  }

  lemma DoubledProduct(v: nat, p: nat)
    ensures v * (2 * p) == 2 * (v * p)
  {
  }

  /** hi above n bits of lo. */
  lemma {:induction false} JoinedBits(hi: nat, lo: nat, n: nat, k: nat)
    requires lo < Pow2(n)
    ensures Bit(hi * Pow2(n) + lo, k) == if k < n then Bit(lo, k) else Bit(hi, k - n)
  {
    if n > 0 {
      var v := hi * Pow2(n) + lo;
      DoubledProduct(hi, Pow2(n - 1));
      assert v == 2 * (hi * Pow2(n - 1)) + lo;
      assert v / 2 == hi * Pow2(n - 1) + lo / 2 && v % 2 == lo % 2;
      if k > 0 {
        JoinedBits(hi, lo / 2, n - 1, k - 1);
      }
    }
  }

  lemma WordBits(v: Word, k: nat)
    requires k >= 24
    ensures !Bit(v, k)
  {
    assert Pow2(24) == 0x100_0000 by {
      Pow2Values();
    }
    HighBit(v, 24, k);
  }

  // ----- shifts and rotations of a word -----

  lemma LeftBits(v: Word, n: nat, k: nat)
    ensures Bit(ShiftLeft(v, n), k) == (n <= k < 24 && Bit(v, k - n))
  {
    assert Pow2(24) == 0x100_0000 by {
      Pow2Values();
    }
    TimesPower(v, n, k);
    if k < 24 {
      LowBit(v * Pow2(n), 24, k);
    } else {
      WordBits(ShiftLeft(v, n), k);
    }
  }

  lemma RightBits(v: Word, n: nat, k: nat)
    ensures Bit(ShiftRight(v, n), k) == Bit(v, k + n)
  {
    ShiftedBit(v, n, k);
  }

  /** The bit that a rotation by n brings to place k. */
  function RotatedFrom(k: nat, n: nat, right: bool): nat
    requires n <= 24
  {
    (if right then k + n else k + 24 - n) % 24
  }

  lemma RotateLeftBits(v: Word, n: nat, k: nat)
    requires n < 24 && k < 24
    ensures Bit(RotateLeft(v, n), k) == Bit(v, RotatedFrom(k, n, false))
  {
    if n == 0 {
      NoRotation(v);
    } else {
      hide Bit, Shr, Pow2, RotateLeft;
      var p, q := Pow2(n), Pow2(24 - n);
      OperatorLaws.RotationParts(v, n);
      OperatorLaws.Quotient(v, p, q);
      OperatorLaws.ShrIsDiv(v, 24 - n);
      JoinedBits(v % q, v / q, n, k);
      if k < n {
        ShiftedBit(v, 24 - n, k);
      } else {
        LowBit(v, 24 - n, k - n);
      }
    }
  }

  lemma RotateRightBits(v: Word, n: nat, k: nat)
    requires n < 24 && k < 24
    ensures Bit(RotateRight(v, n), k) == Bit(v, RotatedFrom(k, n, true))
  {
    if n == 0 {
      NoRotation(v);
    } else {
      hide Bit, Shr, Pow2, RotateRight;
      var p, q := Pow2(n), Pow2(24 - n);
      OperatorLaws.RotationParts(v, n);
      OperatorLaws.Quotient(v, q, p);
      OperatorLaws.ShrIsDiv(v, n);
      JoinedBits(v % p, v / p, 24 - n, k);
      if k < 24 - n {
        ShiftedBit(v, n, k);
      } else {
        LowBit(v, n, k - (24 - n));
      }
    }
  }

  lemma NoRotation(v: Word)
    ensures RotateLeft(v, 0) == v && RotateRight(v, 0) == v && RotateRight(v, 24) == v
  {
    assert Pow2(24) == 0x100_0000 && Pow2(0) == 1 by {
      Pow2Values();
    }
    ShrOfSmall(v, 24);
    assert Shr(v, 0) == v;
    assert ShiftLeft(v, 0) == v && ShiftLeft(v, 24) == 0;
  }

  // ----- the operators -----

  /** A count or length in an operator: 1 to 24 as given, more is 24, zero is the operand length cut to 24. */
  function LengthGiven(len: nat, cp: nat): (n: nat)
    ensures 1 <= n <= 24
  {
    if 1 <= len <= 24 then len
    else if len > 24 || OperandLength(cp) > 24 then 24
    else OperandLength(cp)
  }

  lemma FieldLengthIs(len: nat, cp: nat)
    ensures FieldLength(len, cp) == LengthGiven(len, cp)
  {
    WidthIs(cp);
  }

  lemma ShiftXYIs(r: Regs, isY: bool, right: bool, rot: bool, count: nat)
    ensures var n, v := if count > 24 then 24 else count, if isY then r.y else r.x;
      var r' := ExecShiftXY(r, isY, right, rot, count);
      var w := if n == 0 then v
        else if rot then (if right then RotateRight(v, n % 24) else RotateLeft(v, n % 24))
        else if right then ShiftRight(v, n) else ShiftLeft(v, n);
      r' == if isY then r.(y := w) else r.(x := w)
  {
    hide RotateLeft, RotateRight, ShiftLeft, ShiftRight;
  }

  lemma NotRotated(k: nat, n: nat, right: bool)
    requires k < 24 && n <= 24
    ensures RotatedFrom(k, n % 24, right) == RotatedFrom(k, n, right) && (n == 0 ==> RotatedFrom(k, n, right) == k)
  {
  }

  /** SHIFT and ROTATE move each bit of X or of Y by the count, at most 24, left or right as asked; a shift brings in
      zeros, a rotation the bits that leave. The other registers stay. */
  lemma ShiftsXY(r: Regs, isY: bool, right: bool, rot: bool, count: nat, k: nat)
    requires k < 24
    ensures var n, v := if count > 24 then 24 else count, if isY then r.y else r.x;
      var r' := ExecShiftXY(r, isY, right, rot, count);
      && r' == (if isY then r.(y := r'.y) else r.(x := r'.x))
      && Bit(if isY then r'.y else r'.x, k) ==
           if rot then Bit(v, RotatedFrom(k, n, right))
           else if right then Bit(v, k + n)
           else k >= n && Bit(v, k - n)
  {
    hide *;
    var n, v := if count > 24 then 24 else count, if isY then r.y else r.x;
    ShiftXYIs(r, isY, right, rot, count);
    NotRotated(k, n, right);
    if n > 0 && rot {
      RotateLeftBits(v, n % 24, k);
      RotateRightBits(v, n % 24, k);
    } else if n > 0 {
      LeftBits(v, n, k);
      RightBits(v, n, k);
    }
  }

  lemma ShiftTIs(r: Regs, rot: bool, count: nat)
    ensures var n := LengthGiven(count, r.cp);
      ShiftTResult(r, rot, count) == if rot then RotateLeft(r.t, n % 24) else ShiftLeft(r.t, n)
  {
    FieldLengthIs(count, r.cp);
    hide RotateLeft, ShiftLeft, FieldLength, LengthGiven;
  }

  /** SHIFT T and ROTATE T always go left. */
  lemma ShiftsT(r: Regs, rot: bool, count: nat, k: nat)
    requires k < 24
    ensures var n := LengthGiven(count, r.cp);
      Bit(ShiftTResult(r, rot, count), k) == if rot then Bit(r.t, RotatedFrom(k, n, false)) else k >= n && Bit(r.t, k - n)
  {
    hide *;
    var n := LengthGiven(count, r.cp);
    ShiftTIs(r, rot, count);
    NotRotated(k, n, false);
    RotateLeftBits(r.t, n % 24, k);
    LeftBits(r.t, n, k);
  }

  lemma ExtractIs(r: Regs, rotate: nat, width: nat)
    ensures var n := LengthGiven(width, r.cp);
      ExtractResult(r, rotate, width) == (if 1 <= rotate <= 24 then RotateRight(r.t, rotate) else r.t) % Pow2(n)
  {
    FieldLengthIs(width, r.cp);
    hide RotateRight, Pow2, FieldLength, LengthGiven;
  }

  lemma TurnedBits(t: Word, q: nat, k: nat)
    requires 1 <= q <= 24 && k < 24
    ensures Bit(RotateRight(t, q), k) == Bit(t, RotatedFrom(k, q, true))
  {
    hide *;
    NotRotated(k, q, true);
    if q == 24 {
      NoRotation(t);
      NotRotated(k, 0, true);
    } else {
      RotateRightBits(t, q, k);
    }
  }

  /** EXTRACT takes the low bits of T rotated right, as many as its width says. */
  lemma Extracts(r: Regs, rotate: nat, width: nat, k: nat)
    ensures var n := LengthGiven(width, r.cp);
      Bit(ExtractResult(r, rotate, width), k)
        == (k < n && Bit(r.t, RotatedFrom(k, if rotate > 24 then 0 else rotate, true)))
  {
    hide *;
    var n := LengthGiven(width, r.cp);
    var w := if 1 <= rotate <= 24 then RotateRight(r.t, rotate) else r.t;
    ExtractIs(r, rotate, width);
    if k < n {
      LowBit(w, n, k);
      NotRotated(k, 0, true);
      if 1 <= rotate <= 24 {
        TurnedBits(r.t, rotate, k);
      }
    } else {
      HighBit(w % Pow2(n), n, k);
    }
  }
}
