/** The processor as an object over its register file, memory and I/O bus: one method per operator, the step and the
    run loop, each proved equal to the machine's step and run. */
module CentralProcessor {
  import opened Bits
  import opened BitMemory
  import opened IoBus
  import opened Isa
  import opened Registers
  import opened Storage
  import opened Devices
  import opened RegisterUnit
  import M = Machine
  import Mil
  import opened IoLaws
  import opened Invariants

  /** The low n bits decide what a field write stores. */
  lemma {:induction false} LowBit(v: nat, n: nat, i: nat)
    requires i < n
    ensures Bit(v % Pow2(n), i) == Bit(v, i)
  {
    HalfMod(v, n);
    if i > 0 {
      LowBit(v / 2, n - 1, i - 1);
    }
  }

  lemma HalfMod(v: nat, n: nat)
    requires n > 0
    ensures v % Pow2(n) % 2 == v % 2 && v % Pow2(n) / 2 == v / 2 % Pow2(n - 1)
  {
    var p := Pow2(n - 1);
    var q, r := v / 2 / p, v / 2 % p;
    assert v / 2 == q * p + r;
    assert v == q * (2 * p) + (2 * r + v % 2) by {
      assert 2 * (q * p) == q * (2 * p);
    }
    DivMod(q, 2 * r + v % 2, 2 * p);
  }

  lemma MaskedWrite(m: Mem, a: nat, n: nat, v: nat, rev: bool)
    ensures WriteField(m, a, n, v % Pow2(n), rev) == WriteField(m, a, n, v, rev)
  {
    forall i | 0 <= i < |m| && InField(a, n, rev, i)
      ensures Bit(v % Pow2(n), n - 1 - FieldIndex(a, rev, i)) == Bit(v, n - 1 - FieldIndex(a, rev, i))
    {
      LowBit(v, n, n - 1 - FieldIndex(a, rev, i));
    }
    hide Bit;
  }

  /** Shifting left once more. */
  lemma ShiftOnce(x: nat, k: nat)
    ensures M.ShiftLeft(x, k) * 2 % K24 == M.ShiftLeft(x, k + 1) && M.ShiftLeft(x, 0) == x % K24
  {
    var p, q, r := x * Pow2(k), x * Pow2(k) / K24, x * Pow2(k) % K24;
    assert x * Pow2(k + 1) == 2 * p by {
      assert Pow2(k + 1) == 2 * Pow2(k);
      assert x * (2 * Pow2(k)) == 2 * (x * Pow2(k));
    }
    assert 2 * p == 2 * q * K24 + 2 * r;
    DivMod(2 * q + 2 * r / K24, 2 * r % K24, K24);
  }

  // ----- a memory access on registers and memory -----

  function FieldMem(r: Regs, m: Mem, write: bool, reg: nat, rev: bool, len: nat): Mem {
    if write then WriteField(m, r.fa, M.FieldLength(len, r.cp), M.DataReg(r, reg), rev) else m
  }

  function FieldRegs(r: Regs, m: Mem, write: bool, reg: nat, rev: bool, len: nat, cv: nat): Regs {
    var n := M.FieldLength(len, r.cp);
    var r1 := r.(lat := r.lat.(tempb := r.mar));
    M.CountFaFl(if write then r1 else M.SetDataReg(r1, reg, Mil.FieldValue(m, r.fa, n, rev)), cv, n)
  }

  lemma FieldParts(s: M.State, write: bool, reg: nat, rev: bool, len: nat, cv: nat)
    ensures M.ExecField(s, write, reg, rev, len, cv)
      == s.(r := FieldRegs(s.r, s.m, write, reg, rev, len, cv), m := FieldMem(s.r, s.m, write, reg, rev, len))
  {
    hide WriteField, ReadField, M.CountFa, M.CountFb;
  }

  lemma LatchesAside(r: Regs, l: Latches, reg: nat)
    ensures M.DataReg(r.(lat := l), reg) == M.DataReg(r, reg)
  {
  }

  lemma DispatchKeeps(s: M.State, variant: nat)
    ensures var t := M.ExecDispatch(s, variant); t == s.(r := t.r, bus := t.bus)
  {
    hide RequestingPort, ClearRequest, DispatchWrite, ReadDescriptor, M.Forward;
  }

  class Processor {
    const regs: RegisterFile
    const mem: Memory
    const io: BusUnit
    var cycles: nat
    /** Values reported by MONITOR. */
    var out: seq<Word>

    constructor (memoryBytes: nat)
      requires memoryBytes <= 0x20_0000
      ensures Valid() && fresh(regs) && fresh(regs.stack) && fresh(regs.pads)
      ensures fresh(mem.data) && fresh(io) && fresh(io.controls)
      ensures State().r == Fresh() && State().bus == Bus(NO_DEVICES, false) && cycles == 0 && out == []
      ensures mem.data.Length == memoryBytes && forall i :: 0 <= i < memoryBytes ==> mem.data[i] == 0
    {
      regs := new RegisterFile();
      mem := new Memory(memoryBytes);
      io := new BusUnit();
      cycles, out := 0, [];
    }

    ghost predicate Valid()
      reads this, io, io.controls, io.controls[..]
    {
      && regs.Valid() && io.Valid() && mem.data.Length <= 0x20_0000
      && (regs.stack as object) != (mem.data as object)
    }

    ghost function State(): M.State
      requires Valid()
      reads this, regs, regs.stack, regs.pads, mem.data, io, io.controls, io.controls[..]
    {
      M.State(regs.Value(), mem.Contents(), Bus(io.Slots(), io.locked), cycles, out)
    }

    // ----- operators on registers -----

    method ExecRegisterMove(sg: nat, ss: nat, dg: nat, ds: nat) returns (clks: nat)
      requires regs.Valid()
      modifies regs, regs.stack
      ensures regs.Value() == M.ExecMove(old(regs.Value()), sg, ss, dg, ds)
      ensures clks == M.Clocks(Move(sg, ss, dg, ds), old(regs.Value()))
    {
      hide WriteReg, ReadReg, Pop, Top;
      var v;
      if sg == 11 && ss == 2 {
        v := regs.PopValue();
      } else {
        v := regs.Read(sg, ss);
      }
      regs.Write(dg, ds, v);
      clks := if dg == 4 && ds == 2 then 4 else 2;
    }

    method ExecScratchpadMove(pad: nat, right: bool, from: bool, rs: nat, rg: nat) returns (clks: nat)
      requires regs.Valid()
      modifies regs, regs.stack, regs.pads
      ensures regs.Value() == M.ExecPadMove(old(regs.Value()), pad, right, from, rs, rg)
      ensures clks == M.Clocks(PadMove(pad, right, from, rs, rg), old(regs.Value()))
    {
      hide WriteReg, ReadReg;
      var p := if pad >= 16 then 0 else pad;
      if from {
        regs.Write(rg, rs, if right then regs.pads[p].right else regs.pads[p].left);
      } else {
        var v := regs.Read(rg, rs);
        regs.pads[p] := if right then regs.pads[p].(right := v) else regs.pads[p].(left := v);
      }
      clks := 3;
    }

    method Skip()
      requires regs.Valid()
      modifies regs`mar
      ensures regs.Value() == M.SkipWord(old(regs.Value()), true)
    {
      regs.mar := M.Forward(regs.mar, 1);
    }

    method ExecManipulate(g: nat, s: nat, fn: nat, lit: nat) returns (clks: nat)
      requires regs.Valid()
      modifies regs, regs.stack
      ensures regs.Value() == M.ExecNibble(old(regs.Value()), g, s, fn, lit)
      ensures clks == M.Clocks(Nibble(g, s, fn, lit), old(regs.Value()))
    {
      hide WriteReg, ReadReg, M.NibbleResult, M.NibbleSkips, M.Forward;
      var v := regs.Read(g, s);
      var cur := v % 16;
      regs.Write(g, s, M.NibbleResult(fn, cur, lit));
      if M.NibbleSkips(fn, cur, lit) {
        Skip();
      }
      clks := 2;
    }

    method Jump(neg: bool, disp: nat)
      requires regs.Valid()
      modifies regs`mar
      ensures regs.Value() == old(regs.Value()).(mar := M.Jump(old(regs.mar), neg, disp))
    {
      if neg {
        regs.mar := M.Backward(regs.mar, disp);
      } else {
        regs.mar := M.Forward(regs.mar, disp);
      }
    }

    method ExecBitTestBranch(g: nat, s: nat, bit: nat, neg: bool, disp: nat, onTrue: bool) returns (clks: nat)
      requires regs.Valid()
      modifies regs`mar
      ensures regs.Value() == M.ExecBitBranch(old(regs.Value()), g, s, bit, neg, disp, onTrue)
      ensures clks == M.Clocks(BitBranch(g, s, bit, neg, disp, onTrue), old(regs.Value()))
    {
      hide ReadReg, M.Jump, M.NibbleBit;
      var v := regs.Read(g, s);
      if M.NibbleBit(v % 16, bit) == onTrue {
        Jump(neg, disp);
      }
      clks := 4;
    }

    method ExecSkipWhen(g: nat, s: nat, fn: nat, mask: nat) returns (clks: nat)
      requires regs.Valid()
      modifies regs, regs.stack
      ensures regs.Value() == M.ExecSkip(old(regs.Value()), g, s, fn, mask)
      ensures clks == M.Clocks(Op.Skip(g, s, fn, mask), old(regs.Value()))
    {
      hide WriteReg, ReadReg, M.SkipTest, BitAnd, M.Forward;
      var r := regs.Read(g, s);
      var v := r % 16;
      clks := 2;
      if M.SkipTest(fn, v, mask) {
        if fn == 3 || fn == 7 {
          regs.Write(g, s, BitAnd(v, 15 - mask % 16));
        }
        Skip();
        clks := 4;
      }
    }

    method ExecLiteral8(g: nat, v: nat) returns (clks: nat)
      requires regs.Valid()
      modifies regs, regs.stack
      ensures regs.Value() == WriteReg(old(regs.Value()), g, 2, v)
      ensures clks == M.Clocks(Lit8(g, v), old(regs.Value()))
    {
      hide WriteReg;
      regs.Write(g, 2, v);
      clks := if g == 4 then 4 else 2;
    }

    method ExecShiftRotateT(dg: nat, ds: nat, rot: bool, count: nat) returns (clks: nat)
      requires regs.Valid()
      modifies regs, regs.stack
      ensures regs.Value() == WriteReg(old(regs.Value()), dg, ds, M.ShiftTResult(old(regs.Value()), rot, count))
      ensures clks == M.Clocks(ShiftT(dg, ds, rot, count), old(regs.Value()))
    {
      hide WriteReg, M.RotateLeft, M.ShiftLeft, CPL;
      var n := if count == 0 then CPL(regs.cp) else count;
      if n == 0 || n > 24 {
        n := 24;
      }
      regs.Write(dg, ds, if rot then M.RotateLeft(regs.t, n % 24) else M.ShiftLeft(regs.t, n));
      clks := 3;
    }

    method ExecExtractFromT(rotate: nat, dst: nat, width: nat) returns (clks: nat)
      requires regs.Valid()
      modifies regs, regs.stack
      ensures regs.Value() == WriteReg(old(regs.Value()), 2, dst, M.ExtractResult(old(regs.Value()), rotate, width))
      ensures clks == M.Clocks(Extract(rotate, dst, width), old(regs.Value()))
    {
      hide WriteReg, M.RotateRight, M.LowBits, CPL;
      var n := if width == 0 then CPL(regs.cp) else width;
      if n == 0 || n > 24 {
        n := 24;
      }
      var v := regs.t;
      if 0 < rotate <= 24 {
        v := M.RotateRight(v, rotate);
      }
      regs.Write(2, dst, M.LowBits(v, n));
      clks := 4;
    }

    method ExecCall(neg: bool, disp: nat) returns (clks: nat)
      requires regs.Valid()
      modifies regs`mar, regs`sp, regs.stack
      ensures regs.Value() == M.ExecRegs(Call(neg, disp), old(regs.Value()))
      ensures clks == M.Clocks(Call(neg, disp), old(regs.Value()))
    {
      hide M.Jump;
      regs.PushValue(regs.mar);
      Jump(neg, disp);
      clks := 5;
    }

    method ExecBias(variant: nat, test: bool) returns (clks: nat)
      requires regs.Valid()
      modifies regs`cp, regs`mar
      ensures regs.Value() == M.ExecBias(old(regs.Value()), variant, test)
      ensures clks == M.Clocks(Bias(variant, test), old(regs.Value()))
    {
      hide CPL, SetCPL, SetCPU, GetNib, FL, M.Forward;
      var fu, fl, sfl := GetNib(regs.fb, 0), FL(regs.fb), regs.pads[0].right % K16;
      var own := CPL(regs.cp);
      var cpl: nat;
      match variant {
        case 0 => cpl := fu;
        case 1 => cpl := M.Cap24(fl);
        case 2 => cpl := M.Cap24(sfl);
        case 3 => cpl := M.Cap24(M.Min(fl, sfl));
        case 5 => cpl := if own < fl then own else M.Cap24(fl);
        case _ => cpl := own;
      }
      regs.cp := SetCPL(SetCPU(regs.cp, B(fu == 4)), cpl);
      if test && cpl != 0 {
        Skip();
      }
      clks := 2;
    }

    method ExecShiftXY(isY: bool, right: bool, rot: bool, count: nat) returns (clks: nat)
      requires regs.Valid()
      modifies regs`x, regs`y
      ensures regs.Value() == M.ExecShiftXY(old(regs.Value()), isY, right, rot, count)
      ensures clks == M.Clocks(ShiftXY(isY, right, rot, count), old(regs.Value()))
    {
      hide M.RotateRight, M.RotateLeft, M.ShiftLeft, M.ShiftRight;
      var n := if count > 24 then 24 else count;
      var v := if isY then regs.y else regs.x;
      if n != 0 {
        if rot {
          v := if right then M.RotateRight(v, n % 24) else M.RotateLeft(v, n % 24);
        } else {
          v := if right then M.ShiftRight(v, n) else M.ShiftLeft(v, n);
        }
      }
      if isY {
        regs.y := v;
      } else {
        regs.x := v;
      }
      clks := 3;
    }

    method ExecShiftConcat(right: bool) returns (clks: nat)
      requires regs.Valid()
      modifies regs`x, regs`y
      ensures regs.Value() == M.ExecShiftConcat(old(regs.Value()), right)
      ensures clks == M.Clocks(ShiftConcat(right), old(regs.Value()))
    {
      if right {
        regs.x, regs.y := regs.x / 2, regs.x % 2 * 0x80_0000 + regs.y / 2;
      } else {
        regs.x, regs.y := regs.x * 2 % K24 + regs.y / 0x80_0000, regs.y * 2 % K24;
      }
      clks := 6;
    }

    method ExecCarryFF(v: nat) returns (clks: nat)
      requires regs.Valid()
      modifies regs`cp
      ensures regs.Value() == M.ExecCarry(old(regs.Value()), v)
      ensures clks == M.Clocks(CarryFF(v), old(regs.Value()))
    {
      hide SetCYF, Masked, AllOnes;
      var mx, my, mask := Masked(regs.x, regs.cp), Masked(regs.y, regs.cp), AllOnes(regs.cp);
      if v % 2 == 1 {
        regs.cp := SetCYF(regs.cp, 0);
      }
      if v / 2 % 2 == 1 {
        regs.cp := SetCYF(regs.cp, 1);
      }
      if v / 4 % 2 == 1 {
        regs.cp := SetCYF(regs.cp, B(mx + my > mask));
      }
      if v / 8 % 2 == 1 && mx != my {
        regs.cp := SetCYF(regs.cp, 1);
      }
      clks := 2;
    }

    method ApplyCountVariant(v: nat, amount: nat)
      requires regs.Valid()
      modifies regs`fa, regs`fb
      ensures regs.Value() == M.CountFaFl(old(regs.Value()), v, amount)
    {
      hide SetFL, FL;
      var fl := FL(regs.fb);
      match v {
        case 1 => regs.fa := (regs.fa + amount) % K24;
        case 2 => regs.fb := SetFL(regs.fb, fl + amount);
        case 3 =>
          regs.fa := (regs.fa + amount) % K24;
          regs.fb := SetFL(regs.fb, M.SubToZero(fl, amount));
        case 4 =>
          regs.fa := (regs.fa - amount) % K24;
          regs.fb := SetFL(regs.fb, fl + amount);
        case 5 => regs.fa := (regs.fa - amount) % K24;
        case 6 => regs.fb := SetFL(regs.fb, M.SubToZero(fl, amount));
        case 7 =>
          regs.fa := (regs.fa - amount) % K24;
          regs.fb := SetFL(regs.fb, M.SubToZero(fl, amount));
        case _ =>
      }
    }

    method ExecExchange(src: nat, dst: nat) returns (clks: nat)
      requires regs.Valid()
      modifies regs`fa, regs`fb, regs.pads
      ensures regs.Value() == M.ExecExchange(old(regs.Value()), src, dst)
      ensures clks == M.Clocks(Exchange(src, dst), old(regs.Value()))
    {
      var a, b := if src >= 16 then 0 else src, if dst >= 16 then 0 else dst;
      var saveFa, saveFb := regs.fa, regs.fb;
      regs.fa := regs.pads[a].left;
      regs.fb := regs.pads[a].right;
      regs.pads[b] := Pad(saveFa, saveFb);
      clks := 4;
    }

    method ExecRelate(pad: nat, neg: bool) returns (clks: nat)
      requires regs.Valid()
      modifies regs`fa
      ensures regs.Value() == M.ExecRelate(old(regs.Value()), pad, neg)
      ensures clks == M.Clocks(Relate(pad, neg), old(regs.Value()))
    {
      var v := regs.pads[if pad >= 16 then 0 else pad].left;
      regs.fa := if neg then (regs.fa - v) % K24 else (regs.fa + v) % K24;
      clks := 4;
    }

    /** Shifts X left while FL lasts and the bit at the operand width is clear, six clocks a shift. */
    method ExecNormalize() returns (clks: nat)
      requires regs.Valid()
      modifies regs`x, regs`fb
      ensures regs.Value() == M.ExecNormalize(old(regs.Value()))
      ensures clks == M.NormalizeClocks(old(regs.Value()))
    {
      hide Bit, SetFL, FL, Pow2, M.ShiftLeft, CPL;
      var w := Width(regs.cp);
      if Bit(regs.x, w - 1) {
        return 4;
      }
      ghost var x0, fl0: nat := regs.x, FL(regs.fb);
      var fl: nat := FL(regs.fb);
      clks := 0;
      ShiftOnce(x0, 0);
      while fl > 0 && !Bit(regs.x, w - 1)
        invariant fl <= fl0 && clks == 6 * (fl0 - fl)
        invariant regs.Value() == old(regs.Value()).(x := M.ShiftLeft(x0, fl0 - fl))
        invariant M.ShiftsNeeded(x0, fl0, w) == fl0 - fl + M.ShiftsNeeded(regs.x, fl, w)
        decreases fl
      {
        ShiftOnce(x0, fl0 - fl);
        regs.x := regs.x * 2 % K24;
        fl := fl - 1;
        clks := clks + 6;
      }
      regs.fb := SetFL(regs.fb, fl);
      clks := clks + if fl == 0 then 2 else 4;
    }

    /** OVERLAY halts unless FA and FB are both zero; HALT always. */
    method ExecHalt(op: Op) returns (clks: nat)
      requires regs.Valid() && (op.Overlay? || op.Halt?)
      modifies regs`halted
      ensures regs.Value() == M.ExecRegs(op, old(regs.Value())) && clks == M.Clocks(op, old(regs.Value()))
    {
      if op.Halt? || regs.fa != 0 || regs.fb != 0 {
        regs.halted := true;
      }
      clks := 2;
    }

    /** The operators with a zero first digit that compute on registers. */
    method ExecSecondary(op: Op) returns (clks: nat)
      requires regs.Valid() && (op.Overlay? || op.Halt? || op.Normalize? || op.Bias? || op.ShiftXY? || op.ShiftConcat?
                                || op.CarryFF? || op.Count? || op.Exchange? || op.Relate?)
      modifies regs, regs.pads
      ensures regs.Value() == M.ExecRegs(op, old(regs.Value())) && clks == M.Clocks(op, old(regs.Value()))
    {
      hide M.ExecNormalize, M.NormalizeClocks, M.ExecBias, M.ExecShiftXY, M.ExecShiftConcat, M.ExecCarry, M.CountFaFl,
        M.ExecExchange, M.ExecRelate, CPL;
      match op {
        case Overlay => clks := ExecHalt(op);
        case Halt => clks := ExecHalt(op);
        case Normalize => clks := ExecNormalize();
        case Bias(v, test) => clks := ExecBias(v, test);
        case ShiftXY(isY, right, rot, n) => clks := ExecShiftXY(isY, right, rot, n);
        case ShiftConcat(right) => clks := ExecShiftConcat(right);
        case CarryFF(v) => clks := ExecCarryFF(v);
        case Count(cv, n) => ApplyCountVariant(cv, if n == 0 then CPL(regs.cp) else n); clks := 4;
        case Exchange(a, b) => clks := ExecExchange(a, b);
        case Relate(pad, neg) => clks := ExecRelate(pad, neg);
      }
    }

    /** Moves and tests. */
    method ExecMoveOrTest(op: Op) returns (clks: nat)
      requires regs.Valid() && (op.Move? || op.PadMove? || op.Nibble? || op.BitBranch? || op.Skip?)
      modifies regs, regs.stack, regs.pads
      ensures regs.Value() == M.ExecRegs(op, old(regs.Value())) && clks == M.Clocks(op, old(regs.Value()))
    {
      hide M.ExecMove, M.ExecPadMove, M.ExecNibble, M.ExecBitBranch, M.ExecSkip, ReadReg, M.SkipTest;
      match op {
        case Move(sg, ss, dg, ds) => clks := ExecRegisterMove(sg, ss, dg, ds);
        case PadMove(pad, right, from, rs, rg) => clks := ExecScratchpadMove(pad, right, from, rs, rg);
        case Nibble(g, s, fn, lit) => clks := ExecManipulate(g, s, fn, lit);
        case BitBranch(g, s, bit, neg, disp, t) => clks := ExecBitTestBranch(g, s, bit, neg, disp, t);
        case Skip(g, s, fn, mask) => clks := ExecSkipWhen(g, s, fn, mask);
      }
    }

    /** Literals and shifts of T. */
    method ExecLiteralOrShift(op: Op) returns (clks: nat)
      requires regs.Valid() && (op.Lit8? || op.ShiftT? || op.Extract?)
      modifies regs, regs.stack
      ensures regs.Value() == M.ExecRegs(op, old(regs.Value())) && clks == M.Clocks(op, old(regs.Value()))
    {
      hide WriteReg, M.ShiftTResult, M.ExtractResult;
      match op {
        case Lit8(g, v) => clks := ExecLiteral8(g, v);
        case ShiftT(dg, ds, rot, n) => clks := ExecShiftRotateT(dg, ds, rot, n);
        case Extract(rotate, d, w) => clks := ExecExtractFromT(rotate, d, w);
      }
    }

    /** Branches, calls and the operator that does nothing. */
    method ExecControl(op: Op) returns (clks: nat)
      requires regs.Valid() && (op.Branch? || op.Call? || op.Nop?)
      modifies regs`mar, regs`sp, regs.stack
      ensures regs.Value() == M.ExecRegs(op, old(regs.Value())) && clks == M.Clocks(op, old(regs.Value()))
    {
      hide M.Jump, Push;
      clks := 2;
      match op {
        case Branch(neg, d) => Jump(neg, d); clks := 4;
        case Call(neg, d) => clks := ExecCall(neg, d);
        case Nop =>
      }
    }

    /** The operators that only compute on registers. */
    method ExecOnRegisters(op: Op) returns (clks: nat)
      requires regs.Valid() && !op.Field? && !op.Lit24? && !op.Monitor? && !op.Dispatch?
      modifies regs, regs.stack, regs.pads
      ensures regs.Value() == M.ExecRegs(op, old(regs.Value())) && clks == M.Clocks(op, old(regs.Value()))
    {
      hide *;
      if op.Move? || op.PadMove? || op.Nibble? || op.BitBranch? || op.Skip? {
        clks := ExecMoveOrTest(op);
      } else if op.Lit8? || op.ShiftT? || op.Extract? {
        clks := ExecLiteralOrShift(op);
      } else if op.Branch? || op.Call? || op.Nop? {
        clks := ExecControl(op);
      } else {
        clks := ExecSecondary(op);
      }
    }

    // ----- operators on memory and the bus -----

    method GetData(reg: nat) returns (v: Word)
      requires regs.Valid()
      ensures v == M.DataReg(regs.Value(), reg)
    {
      v := if reg == 0 then regs.x else if reg == 1 then regs.y else if reg == 2 then regs.t else regs.l;
    }

    method SetData(reg: nat, v: Word)
      requires regs.Valid()
      modifies regs`x, regs`y, regs`t, regs`l
      ensures regs.Value() == M.SetDataReg(old(regs.Value()), reg, v)
    {
      match reg {
        case 0 => regs.x := v;
        case 1 => regs.y := v;
        case 2 => regs.t := v;
        case _ => regs.l := v;
      }
    }

    /** The transfer of a memory access, before counting. */
    method Transfer(write: bool, reg: nat, rev: bool, n: nat)
      requires regs.Valid() && mem.data.Length <= 0x20_0000 && 1 <= n <= 24
      modifies regs`x, regs`y, regs`t, regs`l, mem.data
      ensures mem.Contents() == if write then
          WriteField(old(mem.Contents()), old(regs.fa), n, M.DataReg(old(regs.Value()), reg), rev)
        else old(mem.Contents())
      ensures regs.Value() == if write then old(regs.Value())
        else M.SetDataReg(old(regs.Value()), reg, Mil.FieldValue(old(mem.Contents()), old(regs.fa), n, rev))
    {
      hide ReadField, WriteField, mem.Contents, Pow2, M.DataReg, M.SetDataReg;
      if write {
        var v := GetData(reg);
        MaskedWrite(mem.Contents(), regs.fa, n, v, rev);
        mem.WriteBits(regs.fa, n, v % Pow2(n), rev);
      } else {
        Pow2Monotone(n, 24);
        Pow2Values();
        var v := mem.ReadBits(regs.fa, n, rev);
        SetData(reg, v);
      }
    }

    method ExecMemoryAccess(write: bool, reg: nat, rev: bool, len: nat, cv: nat) returns (clks: nat)
      requires regs.Valid() && mem.data.Length <= 0x20_0000 && (regs.stack as object) != (mem.data as object)
      modifies regs, mem.data
      ensures regs.Value() == FieldRegs(old(regs.Value()), old(mem.Contents()), write, reg, rev, len, cv) && clks == 8
      ensures mem.Contents() == FieldMem(old(regs.Value()), old(mem.Contents()), write, reg, rev, len)
    {
      hide ReadField, WriteField, M.CountFaFl, mem.Contents, Pow2, CPL, M.DataReg, M.SetDataReg;
      var n := if len == 0 then CPL(regs.cp) else len;
      if n == 0 || n > 24 {
        n := 24;
      }
      LatchesAside(regs.Value(), regs.lat.(tempb := regs.mar), reg);
      regs.lat := regs.lat.(tempb := regs.mar);
      Transfer(write, reg, rev, n);
      ApplyCountVariant(cv, n);
      regs.mar := regs.lat.tempb;
      clks := 8;
    }

    method ExecLiteral24(g: nat, hi: nat) returns (clks: nat)
      requires Valid()
      modifies regs, regs.stack
      ensures Valid() && State() == M.Exec(Lit24(g, hi), old(State()))
      ensures clks == M.Clocks(Lit24(g, hi), old(regs.Value()))
    {
      hide FetchMicro, WriteReg, M.Forward, mem.Contents, io.Slots;
      var lo := mem.FetchWord(regs.mar);
      regs.mar := M.Forward(regs.mar, 1);
      regs.Write(g, 2, hi * K16 + lo);
      clks := if g == 4 then 6 else 4;
    }

    /** Reads the words of a descriptor that devices use. */
    method FetchDescriptor(addr: Word) returns (d: Descriptor)
      requires mem.data.Length <= 0x20_0000
      ensures d == ReadDescriptor(mem.Contents(), addr) && Addressed(d)
    {
      hide ReadField, mem.Contents, Pow2;
      Pow2Values();
      var op := mem.ReadBits(addr, 24, false);
      var ria := mem.ReadBits(addr + 24, 24, false);
      var a := mem.ReadBits(addr + 48, 24, false);
      var b := mem.ReadBits(addr + 72, 24, false);
      d := Descriptor(op, ria, a, b);
    }

    method DispatchLock()
      requires Valid()
      modifies regs`mar, io`locked
      ensures regs.Value() == if old(io.locked) then old(regs.Value()) else M.SkipWord(old(regs.Value()), true)
      ensures io.locked
    {
      if !io.locked {
        io.locked := true;
        Skip();
      }
    }

    method DispatchStart()
      requires Valid()
      modifies io`locked, io.controls[..]
      ensures Valid() && !io.locked
      ensures io.Slots() == DispatchWrite(old(io.Slots()), regs.t / 16 % 16, ReadDescriptor(mem.Contents(), regs.l))
    {
      hide ReadDescriptor, DispatchWrite, mem.Contents;
      var d := FetchDescriptor(regs.l);
      io.DispatchTo(regs.t / 16 % 16, d);
      io.locked := false;
    }

    /** Acknowledges the lowest port that requests service. */
    method DispatchReadAndClear()
      requires regs.Valid() && io.Valid()
      modifies regs`lat, regs`l, regs`t, io.controls[..]
      ensures io.Valid() && io.Slots() == AcknowledgedSlots(old(io.Slots()))
      ensures regs.Value() == AcknowledgedRegs(old(regs.Value()), old(io.Slots()))
    {
      hide RequestingPort, ClearRequest, BusUnit.Valid, io.Slots;
      var port := io.FindRequestingPort();
      regs.lat := regs.lat.(cc := M.ClearBusInterrupt(regs.lat.cc));
      if port < 14 {
        var ria := io.CompletedRia(port);
        io.ClearAt(port);
        regs.l := (ria + 23) % K24;
        regs.t := port * 0x10_0000 % K24;
      } else {
        regs.t := 1;
      }
    }

    /** LOCK, WRITE, or READ AND CLEAR on the bus. */
    method ExecDispatch(variant: nat) returns (clks: nat)
      requires Valid()
      modifies regs, io`locked, io.controls[..]
      ensures Valid() && clks == 2
      ensures regs.Value() == M.ExecDispatch(old(State()), variant).r
      ensures Bus(io.Slots(), io.locked) == M.ExecDispatch(old(State()), variant).bus
    {
      hide ReadDescriptor, DispatchWrite, mem.Contents, RequestingPort, ClearRequest, M.SkipWord;
      clks := 2;
      if variant == 0 {
        DispatchLock();
      } else if variant == 1 {
        DispatchStart();
      } else if variant == 2 {
        Acknowledges(State());
        DispatchReadAndClear();
      }
    }

    // ----- execution -----

    /** Reports X. */
    method ExecMonitor() returns (clks: nat)
      requires regs.Valid()
      modifies this`out
      ensures out == old(out) + [regs.Value().x] && clks == 2
    {
      out := out + [regs.x];
      clks := 2;
    }

    /** Executes an operator on memory, the bus or the output. */
    method ExecuteBeyond(op: Op) returns (clks: nat)
      requires Valid() && (op.Field? || op.Lit24? || op.Monitor? || op.Dispatch?)
      modifies this`out, regs, regs.stack, mem.data, io`locked, io.controls[..]
      ensures Valid() && State() == M.Exec(op, old(State())) && clks == M.Clocks(op, old(regs.Value()))
    {
      hide M.ExecRegs, M.ExecDispatch, M.ExecField, FieldRegs, FieldMem, mem.Contents, regs.Value, io.Slots, WriteReg,
        FetchMicro, M.Forward, BusUnit.Valid;
      match op {
        case Field(write, reg, rev, len, cv) =>
          FieldParts(State(), write, reg, rev, len, cv);
          clks := ExecMemoryAccess(write, reg, rev, len, cv);
        case Lit24(g, hi) => clks := ExecLiteral24(g, hi);
        case Monitor => clks := ExecMonitor();
        case Dispatch(v) =>
          DispatchKeeps(State(), v);
          clks := ExecDispatch(v);
      }
    }

    /** Executes an operator, saying how many clocks it takes. */
    method Execute(op: Op) returns (clks: nat)
      requires Valid()
      modifies this`out, regs, regs.stack, regs.pads, mem.data, io`locked, io.controls[..]
      ensures Valid() && State() == M.Exec(op, old(State())) && clks == M.Clocks(op, old(regs.Value()))
    {
      hide M.ExecRegs, M.ExecDispatch, M.ExecField, mem.Contents, regs.Value, io.Slots, WriteReg, FetchMicro, M.Forward,
        M.Clocks, BusUnit.Valid;
      if op.Field? || op.Lit24? || op.Monitor? || op.Dispatch? {
        clks := ExecuteBeyond(op);
      } else {
        clks := ExecOnRegisters(op);
      }
    }

    /** Ticks the devices, then latches the bus interrupt and status. */
    method Poll()
      requires Valid()
      modifies regs`lat, mem.data, io.controls[..]
      ensures Valid() && State() == M.Poll(old(State()))
    {
      hide TickSlots, RequestingPort, mem.Contents, BusUnit.Valid, io.Slots;
      io.Tick(cycles, mem);
      var port := io.FindRequestingPort();
      if port < 14 {
        regs.lat := regs.lat.(cc := M.SetBusInterrupt(regs.lat.cc));
      }
      regs.lat := regs.lat.(bicn := B(port < 14));
    }

    /** Fetches the next micro, applies a pending modification and advances the address. */
    method FetchNext() returns (w: Half)
      requires Valid()
      modifies regs`lat, regs`m, regs`mar
      ensures w == M.NextWord(old(State())) && Valid() && State() == M.Advance(old(State()), w)
    {
      hide FetchMicro, mem.Contents, BusUnit.Valid, io.Slots, M.Or16, M.Forward;
      w := mem.FetchWord(regs.mar);
      if regs.lat.pending {
        w := M.Or16(w, regs.lat.pendingValue);
      }
      regs.lat := regs.lat.(pending := false, pendingValue := 0);
      regs.m := w;
      regs.mar := M.Forward(regs.mar, 1);
    }

    /** One micro-step. */
    method Step()
      requires Valid()
      modifies this, regs, regs.stack, regs.pads, mem.data, io`locked, io.controls[..]
      ensures Valid() && State() == M.Step(old(State()))
    {
      hide M.Poll, M.NextWord, M.Advance, M.Exec, M.Clocks, Decode, mem.Contents, io.Slots, BusUnit.Valid;
      if regs.halted {
        return;
      }
      Poll();
      var w := FetchNext();
      var clks := Execute(Decode(w));
      cycles := cycles + clks;
    }

    /** Runs until the machine halts or at least maxCycles have passed. */
    method Run(maxCycles: nat)
      requires Valid()
      modifies this, regs, regs.stack, regs.pads, mem.data, io`locked, io.controls[..]
      ensures Valid()
      ensures var s := old(State()); State() == RunFor(s.(r := s.r.(halted := false)), s.cycles, maxCycles)
    {
      hide M.Step, mem.Contents, io.Slots, BusUnit.Valid;
      regs.halted := false;
      var start := cycles;
      ghost var s := State();
      while !regs.halted && cycles - start < maxCycles
        invariant Valid() && RunFor(s, start, maxCycles) == RunFor(State(), start, maxCycles)
        decreases start + maxCycles - cycles, !regs.halted
      {
        StepKeeps(State());
        Step();
      }
    }
  }
}
