/** What single operators do to the machine, in the terms of the programmer: tests and four-bit arithmetic by their bits,
    counting by its directions, memory fields by their length, condition registers and clocks. */
module MachineLaws {
  import opened Bits
  import opened BitMemory
  import opened IoBus
  import opened Isa
  import opened Registers
  import opened Machine
  import opened OperandWidth
  import opened ShiftLaws
  import Lowering
  import OperatorLaws
  import Storage
  import WordLayout

  // ----- fetching -----

  /** The word executed is the one fetched at MAR, or-ed bit by bit with a pending value for M, which is used up; it is in
      M, and MAR is past it. */
  lemma FetchesWord(s: State, k: nat)
    ensures var w, a := NextWord(s), Advance(s, NextWord(s));
      && Bit(w, k) == (Bit(FetchMicro(s.m, s.r.mar), k) || (s.r.lat.pending && Bit(s.r.lat.pendingValue, k)))
      && a == s.(r := s.r.(m := w, mar := (s.r.mar + 16) % 0x8_0000,
                           lat := s.r.lat.(pending := false, pendingValue := 0)))
  {
    Storage.OrBits(FetchMicro(s.m, s.r.mar), s.r.lat.pendingValue, k);
    hide Bit, BitOr, FetchMicro;
  }

  // ----- condition registers -----

  /** XYCN from its most significant bit: X above, below, equal to Y at the operand width, and the top bit of X. */
  lemma ComparesXY(x: Word, y: Word, cp: Octet)
    ensures var v, mx, my := XYCN(x, y, cp), x % Modulus(cp), y % Modulus(cp);
      && Bit(v, 3) == (mx > my) && Bit(v, 2) == (mx < my) && Bit(v, 1) == (mx == my)
      && Bit(v, 0) == Bit(x, OperandLength(cp) - 1)
  {
    hide *;
    var mx, my, top := Masked(x, cp), Masked(y, cp), OperandLength(cp) - 1;
    MaskedIsMod(x, cp);
    MaskedIsMod(y, cp);
    MaskedBits(x, cp, top);
    XycnIs(x, y, cp);
    ComposedBits(mx > my, mx < my, mx == my, Bit(mx, top));
  }

  lemma XycnIs(x: Word, y: Word, cp: Octet)
    ensures var mx, my := Masked(x, cp), Masked(y, cp);
      XYCN(x, y, cp) == B(mx > my) * 8 + B(mx < my) * 4 + B(mx == my) * 2 + B(Bit(mx, OperandLength(cp) - 1))
  {
    WidthIs(cp);
    hide Masked, OperandLength, Width, Bit, B;
  }

  lemma ComposedBits(a: bool, b: bool, c: bool, d: bool)
    ensures var v := B(a) * 8 + B(b) * 4 + B(c) * 2 + B(d);
      v < 16 && Bit(v, 3) == a && Bit(v, 2) == b && Bit(v, 1) == c && Bit(v, 0) == d
  {
    FourBits(B(a) * 8 + B(b) * 4 + B(c) * 2 + B(d));
    hide Bit;
  }

  /** FLCN: FL zero, and FL below, above, equal to the length in scratchpad word 0. */
  lemma ComparesFL(fb: Word, pad: Pad)
    ensures var v, fl, sfl := FLCN(fb, pad), fb % 0x1_0000, pad.right % 0x1_0000;
      Bit(v, 3) == (fl == 0) && Bit(v, 2) == (fl < sfl) && Bit(v, 1) == (fl > sfl) && Bit(v, 0) == (fl == sfl)
  {
    FourBits(FLCN(fb, pad));
    hide Bit;
  }

  /** XYST: its bit 2 (value 2) is up exactly when CC has one of its bits 1 to 3 up; the others stay down. */
  lemma ShowsInterrupts(cc: Nib)
    ensures var v := XYST(cc);
      Bit(v, 1) == (Bit(cc, 2) || Bit(cc, 1) || Bit(cc, 0)) && !Bit(v, 3) && !Bit(v, 2) && !Bit(v, 0)
  {
    FourBits(XYST(cc));
    FourBits(cc);
    hide Bit;
  }

  // ----- tests -----

  /** Bit branches test bit `bit` of the nibble, counted from its most significant one, and move by words. */
  lemma BranchesOnBit(r: Regs, g: nat, s: nat, bit: nat, neg: bool, disp: nat, onTrue: bool)
    requires bit < 4
    ensures var v := ReadReg(r, g, s) % 16;
      ExecBitBranch(r, g, s, bit, neg, disp, onTrue) ==
        if Bit(v, 3 - bit) == onTrue then
          r.(mar := (if neg then r.mar - 16 * disp else r.mar + 16 * disp) % 0x8_0000)
        else r
  {
    Lowering.NibbleBitIs(ReadReg(r, g, s) % 16, bit);
    hide ReadReg, NibbleBit, Bit;
  }

  /** Some bit is set in both nibbles. */
  predicate Share(v: Nib, mask: Nib) {
    (Bit(v, 0) && Bit(mask, 0)) || (Bit(v, 1) && Bit(mask, 1)) || (Bit(v, 2) && Bit(mask, 2))
    || (Bit(v, 3) && Bit(mask, 3))
  }

  lemma AndShares(v: Nib, mask: Nib)
    ensures BitAnd(v, mask) != 0 <==> Share(v, mask)
  {
    var a := BitAnd(v, mask);
    Storage.AndBits(v, mask, 0);
    Storage.AndBits(v, mask, 1);
    Storage.AndBits(v, mask, 2);
    Storage.AndBits(v, mask, 3);
    FourBits(a);
    hide Bit, BitAnd;
    FourParts(a);
  }

  lemma FourParts(a: Nib)
    ensures a == a % 2 + 2 * (a / 2 % 2) + 4 * (a / 4 % 2) + 8 * (a / 8 % 2)
  {
  }

  /** The skip test: variants 0 and 3 for any bit of the mask, 1 and 2 for equality, 4 and 7 for none of them, 5 and 6
      for inequality. */
  lemma SkipTestIs(fn: nat, v: Nib, mask: Nib)
    requires fn < 8
    ensures SkipTest(fn, v, mask) ==
      if fn == 0 || fn == 3 then Share(v, mask)
      else if fn == 1 || fn == 2 then v == mask
      else if fn == 4 || fn == 7 then !Share(v, mask)
      else v != mask
  {
    AndShares(v, mask);
    hide BitAnd, Share;
  }

  /** v with the bits of the mask cleared. */
  predicate Cleared(v: Nib, mask: Nib, w: Nib) {
    && Bit(w, 0) == (Bit(v, 0) && !Bit(mask, 0)) && Bit(w, 1) == (Bit(v, 1) && !Bit(mask, 1))
    && Bit(w, 2) == (Bit(v, 2) && !Bit(mask, 2)) && Bit(w, 3) == (Bit(v, 3) && !Bit(mask, 3))
  }

  lemma AndClears(v: Nib, mask: Nib)
    ensures Cleared(v, mask, BitAnd(v, 15 - mask))
  {
    assert Pow2(4) == 16;
    forall k: nat | k < 4
      ensures Bit(BitAnd(v, 15 - mask), k) == (Bit(v, k) && !Bit(mask, k))
    {
      Storage.AndBits(v, 15 - mask, k);
      ComplementBit(mask, 4, k);
    }
    hide Bit, BitAnd;
  }

  /** SKIP WHEN as executed: the skip follows the test and nothing is written, but that variants 3 and 7 clear the masked
      bits of a four-bit register when they skip. */
  lemma SkipsAndClears(r: Regs, g: nat, s: nat, fn: nat, mask: Nib)
    requires fn < 8 && (fn == 3 || fn == 7 ==> OperatorLaws.Kept(g, s) == 16)
    ensures var v, r' := ReadReg(r, g, s) % 16, ExecSkip(r, g, s, fn, mask); var skip := SkipTest(fn, v, mask);
      && r'.mar == (if skip then (r.mar + 16) % 0x8_0000 else r.mar)
      && (if skip && (fn == 3 || fn == 7) then Cleared(v, mask, ReadReg(r', g, s) % 16) else r' == r.(mar := r'.mar))
  {
    hide *;
    var v := ReadReg(r, g, s) % 16;
    var w := BitAnd(v, 15 - mask);
    var r1 := WriteReg(r, g, s, w);
    SkipIs(r, g, s, fn, mask);
    if fn == 3 || fn == 7 {
      AndClears(v, mask);
      OperatorLaws.WriteThenRead(r, g, s, w);
      WriteKeepsMar(r, g, s, w);
      MarElsewhere(r1, g, s, (r1.mar + 16) % 0x8_0000);
    }
  }

  lemma SkipIs(r: Regs, g: nat, s: nat, fn: nat, mask: Nib)
    ensures var v := ReadReg(r, g, s) % 16; var skip := SkipTest(fn, v, mask);
      var r1 := if fn == 3 || fn == 7 then WriteReg(r, g, s, BitAnd(v, 15 - mask)) else r;
      ExecSkip(r, g, s, fn, mask) == if skip then r1.(mar := (r1.mar + 16) % 0x8_0000) else r
  {
    hide ReadReg, WriteReg, BitAnd, SkipTest;
  }

  lemma WriteKeepsMar(r: Regs, g: nat, s: nat, v: nat)
    requires OperatorLaws.Kept(g, s) == 16
    ensures WriteReg(r, g, s, v).mar == r.mar
  {
    hide SetNib;
  }

  /** Four-bit registers do not read MAR. */
  lemma MarElsewhere(r: Regs, g: nat, s: nat, mar: Addr)
    requires OperatorLaws.Kept(g, s) == 16
    ensures ReadReg(r.(mar := mar), g, s) == ReadReg(r, g, s)
  {
    hide FunctionBox, XYCN, FLCN, GetNib;
  }

  // ----- four-bit arithmetic -----

  /** What the eight variants compute: SET, AND, OR, EOR bit by bit, INC and DEC modulo sixteen. */
  predicate Computes(fn: nat, cur: Nib, lit: Nib, w: Nib) {
    && (fn == 0 ==> w == lit)
    && (fn == 1 ==> forall k: nat :: k < 4 ==> Bit(w, k) == (Bit(cur, k) && Bit(lit, k)))
    && (fn == 2 ==> forall k: nat :: k < 4 ==> Bit(w, k) == (Bit(cur, k) || Bit(lit, k)))
    && (fn == 3 ==> forall k: nat :: k < 4 ==> Bit(w, k) == (Bit(cur, k) != Bit(lit, k)))
    && (fn == 4 || fn == 5 ==> w == (cur + lit) % 16)
    && (fn == 6 || fn == 7 ==> w == (cur - lit) % 16)
  }

  lemma NibbleComputes(fn: nat, cur: Nib, lit: Nib)
    requires fn < 8
    ensures Computes(fn, cur, lit, NibbleResult(fn, cur, lit))
  {
    LogicBits(cur, lit);
    ResultIs(cur, lit);
    hide Bit, BitAnd, BitOr, BitXor, NibbleResult;
  }

  lemma LogicBits(a: nat, b: nat)
    ensures forall k: nat :: k < 4 ==> Bit(BitAnd(a, b), k) == (Bit(a, k) && Bit(b, k))
    ensures forall k: nat :: k < 4 ==> Bit(BitOr(a, b), k) == (Bit(a, k) || Bit(b, k))
    ensures forall k: nat :: k < 4 ==> Bit(BitXor(a, b), k) == (Bit(a, k) != Bit(b, k))
  {
    hide *;
    forall k: nat | k < 4
      ensures Bit(BitAnd(a, b), k) == (Bit(a, k) && Bit(b, k))
      ensures Bit(BitOr(a, b), k) == (Bit(a, k) || Bit(b, k))
      ensures Bit(BitXor(a, b), k) == (Bit(a, k) != Bit(b, k))
    {
      Storage.AndBits(a, b, k);
      Storage.OrBits(a, b, k);
      OperatorLaws.XorBits(a, b, k);
    }
  }

  lemma ResultIs(cur: Nib, lit: Nib)
    ensures NibbleResult(0, cur, lit) == lit && NibbleResult(1, cur, lit) == BitAnd(cur, lit)
    ensures NibbleResult(2, cur, lit) == BitOr(cur, lit) && NibbleResult(3, cur, lit) == BitXor(cur, lit)
    ensures NibbleResult(4, cur, lit) == (cur + lit) % 16 == NibbleResult(5, cur, lit)
    ensures NibbleResult(6, cur, lit) == (cur - lit) % 16 == NibbleResult(7, cur, lit)
  {
    hide BitAnd, BitOr, BitXor;
  }

  /** The four-bit operators as executed: the register holds the result; INC-T skips on overflow, DEC-T on underflow, no
      other skips. */
  lemma NibbleExecutes(r: Regs, g: nat, s: nat, fn: nat, lit: Nib)
    requires OperatorLaws.Kept(g, s) == 16 && fn < 8
    ensures var cur, r' := ReadReg(r, g, s) % 16, ExecNibble(r, g, s, fn, lit);
      var skip := (fn == 5 && cur + lit > 15) || (fn == 7 && cur < lit);
      && Computes(fn, cur, lit, ReadReg(r', g, s) % 16)
      && r'.mar == if skip then (r.mar + 16) % 0x8_0000 else r.mar
  {
    hide *;
    var cur := ReadReg(r, g, s) % 16;
    var w := NibbleResult(fn, cur, lit);
    var r1 := WriteReg(r, g, s, w);
    NibbleIs(r, g, s, fn, lit);
    NibbleComputes(fn, cur, lit);
    OperatorLaws.WriteThenRead(r, g, s, w);
    WriteKeepsMar(r, g, s, w);
    MarElsewhere(r1, g, s, (r1.mar + 16) % 0x8_0000);
  }

  lemma NibbleIs(r: Regs, g: nat, s: nat, fn: nat, lit: Nib)
    ensures var cur := ReadReg(r, g, s) % 16; var r1 := WriteReg(r, g, s, NibbleResult(fn, cur, lit));
      ExecNibble(r, g, s, fn, lit)
        == if (fn == 5 && cur + lit > 15) || (fn == 7 && cur < lit) then r1.(mar := (r1.mar + 16) % 0x8_0000) else r1
  {
    hide ReadReg, WriteReg, NibbleResult;
  }

  // ----- counting and memory fields -----

  /** The count variants by number: FA up with 1 and 3, down with 4, 5 and 7; FL up with 2 and 4, down to zero at most
      with 3, 6 and 7. The rest of FB, FU and FT with it, stays. */
  lemma CountDirections(r: Regs, cv: nat, n: nat)
    requires cv < 8
    ensures var r' := CountFaFl(r, cv, n); var fl, fl' := r.fb % 0x1_0000, r'.fb % 0x1_0000;
      && r' == r.(fa := r'.fa, fb := r'.fb) && r'.fb / 0x1_0000 == r.fb / 0x1_0000
      && r'.fa == (if cv == 1 || cv == 3 then (r.fa + n) % 0x100_0000
                   else if cv == 4 || cv == 5 || cv == 7 then (r.fa - n) % 0x100_0000
                   else r.fa)
      && fl' == (if cv == 2 || cv == 4 then (fl + n) % 0x1_0000
                 else if cv == 3 || cv == 6 || cv == 7 then (if fl > n then fl - n else 0)
                 else fl)
  {
  }

  /** READ and WRITE as executed: the field at FA of the length given is read into or written from the register, FA and FL
      count by that length, TEMPB takes MAR, which stays, and nothing else changes. */
  lemma FieldExecutes(s: State, write: bool, reg: nat, rev: bool, len: nat, cv: nat)
    requires reg < 4
    ensures var n := LengthGiven(len, s.r.cp); var t := ExecField(s, write, reg, rev, len, cv);
      && t.m == (if write then WriteField(s.m, s.r.fa, n, OperandOf(s.r, reg), rev) else s.m)
      && OperandOf(t.r, reg) == (if write then OperandOf(s.r, reg) else ReadField(s.m, s.r.fa, n, rev))
      && (forall k: nat :: k < 4 && k != reg ==> OperandOf(t.r, k) == OperandOf(s.r, k))
      && t.r.fa == CountFaFl(s.r, cv, n).fa && t.r.fb == CountFaFl(s.r, cv, n).fb
      && t.r == s.r.(x := t.r.x, y := t.r.y, t := t.r.t, l := t.r.l, fa := t.r.fa, fb := t.r.fb,
                     lat := s.r.lat.(tempb := s.r.mar))
      && t == s.(r := t.r, m := t.m)
  {
    FieldLengthIs(len, s.r.cp);
    hide ReadField, WriteField, CountFa, CountFb, FieldLength, LengthGiven;
  }

  /** COUNT as executed: by the amount given, or for zero by the length in CP. */
  lemma CountExecutes(r: Regs, cv: nat, n: nat)
    ensures ExecRegs(Count(cv, n), r) == CountFaFl(r, cv, if n == 0 then r.cp / 8 % 32 else n)
  {
    hide CountFaFl;
  }

  /** X, Y, T and L by number. */
  function OperandOf(r: Regs, reg: nat): Word {
    if reg == 0 then r.x else if reg == 1 then r.y else if reg == 2 then r.t else r.l
  }

  /** RELATE adds the left half of the scratchpad word to FA or subtracts it. */
  lemma Relates(r: Regs, pad: nat, neg: bool)
    requires pad < 16
    ensures ExecRelate(r, pad, neg)
      == r.(fa := if neg then (r.fa - r.pads[pad].left) % 0x100_0000 else (r.fa + r.pads[pad].left) % 0x100_0000)
  {
  }

  /** EXCHANGE loads FA and FB from one scratchpad word and stores what they held in the other. */
  lemma Exchanges(r: Regs, src: nat, dst: nat)
    requires src < 16 && dst < 16
    ensures var r' := ExecExchange(r, src, dst);
      && r'.fa == r.pads[src].left && r'.fb == r.pads[src].right && r'.pads[dst] == Pad(r.fa, r.fb)
      && (forall k :: 0 <= k < 16 && k != dst ==> r'.pads[k] == r.pads[k])
      && r' == r.(fa := r'.fa, fb := r'.fb, pads := r'.pads)
  {
  }

  // ----- branches -----

  /** Branches and calls move by words from the word after them, modulo 2^19; a call pushes the address of that word. */
  lemma BranchesRelative(r: Regs, neg: bool, d: nat)
    ensures var mar := (if neg then r.mar - 16 * d else r.mar + 16 * d) % 0x8_0000; var p := (r.sp + 1) % r.depth;
      && ExecRegs(Branch(neg, d), r) == r.(mar := mar)
      && ExecRegs(Call(neg, d), r) == r.(mar := mar, sp := p, stack := r.stack[p := r.mar])
  {
  }

  // ----- bus lock and overlay -----

  /** DISPATCH WRITE frees the bus and changes no register and no memory; without a device at the port it does nothing
      more. */
  lemma FreesBus(s: State)
    ensures var t := ExecDispatch(s, 1);
      && !t.bus.locked && t == s.(bus := t.bus)
      && forall p :: 0 <= p < 14 && (p != GetNib(s.r.t, 4) || s.bus.slots[p].None?) ==> t.bus.slots[p] == s.bus.slots[p]
  {
    hide ReadDescriptor;
  }

  /** DISPATCH LOCK takes a free bus and skips; on a taken one nothing happens. */
  lemma LocksBus(s: State)
    ensures var t := ExecDispatch(s, 0);
      t == s.(bus := s.bus.(locked := true),
              r := s.r.(mar := if s.bus.locked then s.r.mar else (s.r.mar + 16) % 0x8_0000))
  {
  }

  /** OVERLAY stops the machine unless FA and FB are both zero, HALT always; NOP and undefined operators do nothing. */
  lemma StopsMachine(r: Regs)
    ensures ExecRegs(Overlay, r) == r.(halted := r.halted || r.fa != 0 || r.fb != 0)
    ensures ExecRegs(Halt, r) == r.(halted := true) && ExecRegs(Nop, r) == r
  {
  }

  // ----- clocks -----

  /** Clocks of a word: by its first digit, and for the words that begin with zero by their second. MAR as a target costs
      two more, a skip taken two more. */
  lemma ClocksByWord(w: Half, r: Regs)
    ensures var c, d := w / 0x1000, w / 0x100 % 16; var n := Clocks(Decode(w), r);
      && (c == 1 ==> n == if d == 4 && w / 64 % 4 == 2 then 4 else 2)
      && (c == 2 || c == 10 ==> n == 3)
      && (c == 3 ==> n == 2)
      && (c == 4 || c == 5 || c == 11 || c == 12 || c == 13 ==> n == 4)
      && (c == 6 ==> n == if SkipTest(w / 16 % 8, ReadReg(r, d, w / 128 % 2) % 16, w % 16) then 4 else 2)
      && (c == 7 ==> n == 8)
      && (c == 8 ==> n == if d == 4 then 4 else 2)
      && (c == 9 ==> n == if d == 4 then 6 else 4)
      && (c == 14 || c == 15 ==> n == 5)
  {
    if w / 0x1000 == 6 {
      SkipClocks(w, r);
    } else if w / 0x1000 == 1 {
      MoveClocks(w, r);
    } else {
      OtherClocks(w, r);
    }
    hide Clocks, Decode, SkipTest, ReadReg;
  }

  lemma MoveClocks(w: Half, r: Regs)
    requires w / 0x1000 == 1
    ensures Clocks(Decode(w), r) == if w / 0x100 % 16 == 4 && w / 64 % 4 == 2 then 4 else 2
  {
    SelectBits(w);
    assert Decode(w) == Move(w % 16, w / 16 % 16 % 4, w / 0x100 % 16, w / 64 % 4);
  }

  lemma SkipClocks(w: Half, r: Regs)
    requires w / 0x1000 == 6
    ensures Clocks(Decode(w), r)
      == if SkipTest(w / 16 % 8, ReadReg(r, w / 0x100 % 16, w / 128 % 2) % 16, w % 16) then 4 else 2
  {
    SelectBits(w);
    assert Decode(w) == Skip(w / 0x100 % 16, w / 128 % 2, w / 16 % 8, w % 16);
    hide *;
    SkipTakes(w / 0x100 % 16, w / 128 % 2, w / 16 % 8, w % 16, r);
  }

  lemma SelectBits(w: nat)
    ensures w / 16 % 16 / 8 == w / 128 % 2 && w / 16 % 16 % 8 == w / 16 % 8 && w / 16 % 16 / 4 == w / 64 % 4
  {
    assert w / 16 / 8 == w / 128 && w / 16 / 4 == w / 64;
    LowNibble(w / 16);
  }

  lemma LowNibble(a: nat)
    ensures a % 16 / 8 == a / 8 % 2 && a % 16 % 8 == a % 8 && a % 16 / 4 == a / 4 % 4
  {
    var q, r := a / 16, a % 16;
    assert a == 16 * q + r;
    assert a / 8 == 2 * q + r / 8 && a / 4 == 4 * q + r / 4;
  }

  lemma SkipTakes(g: nat, s: nat, fn: nat, mask: nat, r: Regs)
    ensures Clocks(Skip(g, s, fn, mask), r) == if SkipTest(fn, ReadReg(r, g, s) % 16, mask) then 4 else 2
  {
    hide SkipTest, ReadReg;
  }

  lemma OtherClocks(w: Half, r: Regs)
    requires w / 0x1000 != 6 && w / 0x1000 != 1
    ensures var c, d := w / 0x1000, w / 0x100 % 16; var n := Clocks(Decode(w), r);
      && (c == 2 || c == 10 ==> n == 3)
      && (c == 3 ==> n == 2)
      && (c == 4 || c == 5 || c == 11 || c == 12 || c == 13 ==> n == 4)
      && (c == 7 ==> n == 8)
      && (c == 8 ==> n == if d == 4 then 4 else 2)
      && (c == 9 ==> n == if d == 4 then 6 else 4)
      && (c == 14 || c == 15 ==> n == 5)
  {
    hide SkipTest, ReadReg, NormalizeClocks, DecodeSecondary;
  }

  /** Clocks of the words whose first digit is zero, by their second; NORMALIZE is the exception. */
  lemma ClocksBySecond(w: Half, r: Regs)
    requires w < 0x1000 && w != 3
    ensures var d, e := w / 0x100, w / 16 % 16; var n := Clocks(Decode(w), r);
      n == if d == 4 then 3 else if d == 5 then 6 else if d == 7 || d == 8 || (d == 6 && e != 0) then 4 else 2
  {
    WordLayout.SmallWords(w);
    hide Decode, SkipTest, ReadReg, NormalizeClocks, WordLayout.At, WordLayout.Flag;
  }
}
