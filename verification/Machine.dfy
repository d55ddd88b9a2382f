/** The micro-machine: one micro-operator per step over registers, memory and the I/O bus. */
module Machine {
  import opened Bits
  import opened BitMemory
  import opened IoBus
  import opened Isa
  import opened Registers

  /** `out` collects the values the MONITOR operator reports. */
  datatype State = State(r: Regs, m: Mem, bus: Bus, cycles: nat, out: seq<Word>)

  function Forward(mar: nat, words: nat): Addr { (mar + 16 * words) % K19 }
  function Backward(mar: nat, words: nat): Addr { (mar - 16 * words) % K19 }

  function Jump(mar: nat, neg: bool, disp: nat): Addr {
    if neg then Backward(mar, disp) else Forward(mar, disp)
  }

  function SkipWord(r: Regs, skip: bool): Regs {
    if skip then r.(mar := Forward(r.mar, 1)) else r
  }

  // ----- 3C, 4C/5C, 6C: four-bit operators -----

  function NibbleResult(fn: nat, cur: Nib, lit: nat): Nib {
    match fn
    case 0 => lit % 16
    case 1 => BitAnd(cur, lit)
    case 2 => Or4(cur, lit % 16)
    case 3 => Xor4(cur, lit % 16)
    case 4 => (cur + lit) % 16
    case 5 => (cur + lit) % 16
    case _ => (cur - lit) % 16
  }

  function Or4(a: Nib, b: Nib): Nib { OrXorRange(a, b, 4); BitOr(a, b) }
  function Xor4(a: Nib, b: Nib): Nib { OrXorRange(a, b, 4); BitXor(a, b) }

  /** INC-T skips on overflow, DEC-T on underflow. */
  predicate NibbleSkips(fn: nat, cur: Nib, lit: nat) {
    (fn == 5 && cur + lit > 15) || (fn == 7 && cur < lit)
  }

  /** Bit 0 is the most significant of the four. */
  predicate NibbleBit(v: nat, bit: nat) {
    match bit
    case 0 => v / 8 % 2 == 1
    case 1 => v / 4 % 2 == 1
    case 2 => v / 2 % 2 == 1
    case _ => v % 2 == 1
  }

  predicate SkipTest(fn: nat, v: nat, mask: nat) {
    match fn
    case 0 => BitAnd(v, mask) != 0
    case 1 => v == mask
    case 2 => v == mask
    case 3 => BitAnd(v, mask) != 0
    case 4 => BitAnd(v, mask) == 0
    case 5 => v != mask
    case 6 => v != mask
    case _ => BitAnd(v, mask) == 0
  }

  function ExecSkip(r: Regs, g: nat, s: nat, fn: nat, mask: nat): Regs {
    var v := ReadReg(r, g, s) % 16;
    var skip := SkipTest(fn, v, mask);
    var r1 := if skip && (fn == 3 || fn == 7) then WriteReg(r, g, s, BitAnd(v, 15 - mask % 16)) else r;
    SkipWord(r1, skip)
  }

  // ----- 7C and 6D: field length and address counting -----

  function FieldLength(len: nat, cp: nat): (n: nat)
    ensures 1 <= n <= 24
  {
    var n := if len == 0 then CPL(cp) else len;
    if n == 0 || n > 24 then 24 else n
  }

  function SubToZero(a: nat, b: nat): nat { if a >= b then a - b else 0 }

  /** The seven variants that count FA and FL up or down; FL stops at zero going down. */
  function CountFa(cv: nat, fa: Word, n: nat): Word {
    match cv
    case 1 => (fa + n) % K24
    case 3 => (fa + n) % K24
    case 4 => (fa - n) % K24
    case 5 => (fa - n) % K24
    case 7 => (fa - n) % K24
    case _ => fa
  }

  function CountFb(cv: nat, fb: Word, n: nat): Word {
    match cv
    case 2 => SetFL(fb, FL(fb) + n)
    case 4 => SetFL(fb, FL(fb) + n)
    case 3 => SetFL(fb, SubToZero(FL(fb), n))
    case 6 => SetFL(fb, SubToZero(FL(fb), n))
    case 7 => SetFL(fb, SubToZero(FL(fb), n))
    case _ => fb
  }

  function CountFaFl(r: Regs, cv: nat, n: nat): Regs {
    r.(fa := CountFa(cv, r.fa, n), fb := CountFb(cv, r.fb, n))
  }

  function DataReg(r: Regs, id: nat): Word {
    match id
    case 0 => r.x
    case 1 => r.y
    case 2 => r.t
    case _ => r.l
  }

  function SetDataReg(r: Regs, id: nat, v: Word): Regs {
    match id
    case 0 => r.(x := v)
    case 1 => r.(y := v)
    case 2 => r.(t := v)
    case _ => r.(l := v)
  }

  function ExecField(s: State, write: bool, reg: nat, rev: bool, len: nat, cv: nat): State {
    var n := FieldLength(len, s.r.cp);
    var r := s.r.(lat := s.r.lat.(tempb := s.r.mar));
    if write then
      s.(r := CountFaFl(r, cv, n), m := WriteField(s.m, r.fa, n, DataReg(r, reg), rev))
    else
      Pow2Monotone(n, 24);
      Pow2Values();
      s.(r := CountFaFl(SetDataReg(r, reg, ReadField(s.m, r.fa, n, rev)), cv, n))
  }

  // ----- shifts -----

  function ShiftLeft(v: nat, n: nat): Word { v * Pow2(n) % K24 }
  function ShiftRight(v: Word, n: nat): (r: Word) { ShrRange(v, n); Shr(v, n) }

  lemma {:induction false} ShrRange(v: nat, n: nat)
    ensures Shr(v, n) <= v
  {
    if n > 0 {
      ShrRange(v / 2, n - 1);
    }
  }

  function RotateLeft(v: Word, n: nat): Word
    requires n <= 24
  {
    (ShiftLeft(v, n) + ShiftRight(v, 24 - n)) % K24
  }

  function RotateRight(v: Word, n: nat): Word
    requires n <= 24
  {
    (ShiftRight(v, n) + ShiftLeft(v, 24 - n)) % K24
  }

  function ShiftCount(count: nat): (n: nat)
    ensures n <= 24
  {
    if count > 24 then 24 else count
  }

  function ExecShiftXY(r: Regs, isY: bool, right: bool, rot: bool, count: nat): Regs {
    var n := ShiftCount(count);
    var v := if isY then r.y else r.x;
    var w :=
      if n == 0 then v
      else if rot then (if right then RotateRight(v, n % 24) else RotateLeft(v, n % 24))
      else if right then ShiftRight(v, n)
      else ShiftLeft(v, n);
    if isY then r.(y := w) else r.(x := w)
  }

  function ExecShiftConcat(r: Regs, right: bool): Regs {
    if right then r.(x := r.x / 2, y := r.x % 2 * 0x80_0000 + r.y / 2)
    else r.(x := r.x * 2 % K24 + r.y / 0x80_0000, y := r.y * 2 % K24)
  }

  function ShiftTResult(r: Regs, rot: bool, count: nat): Word {
    var n := FieldLength(count, r.cp);
    if rot then RotateLeft(r.t, n % 24) else ShiftLeft(r.t, n)
  }

  function LowBits(v: Word, n: nat): Word { v % Pow2(n) }

  function ExtractResult(r: Regs, rotate: nat, width: nat): Word {
    var n := FieldLength(width, r.cp);
    LowBits(if rotate > 24 || rotate == 0 then r.t else RotateRight(r.t, rotate), n)
  }

  // ----- 3F normalize, 3E bias, 6E carry -----

  /** Shifts X left until the bit at the operand width is set or FL is used up. */
  function ShiftsNeeded(x: Word, fl: nat, w: nat): (k: nat)
    requires w > 0
    ensures k <= fl
    decreases fl
  {
    if fl == 0 || Bit(x, w - 1) then 0 else 1 + ShiftsNeeded(x * 2 % K24, fl - 1, w)
  }

  function ExecNormalize(r: Regs): Regs {
    if Bit(r.x, Width(r.cp) - 1) then r
    else
      var k := ShiftsNeeded(r.x, FL(r.fb), Width(r.cp));
      r.(x := ShiftLeft(r.x, k), fb := SetFL(r.fb, FL(r.fb) - k))
  }

  function Cap24(n: nat): nat { if n > 24 then 24 else n }
  function Min(a: nat, b: nat): nat { if a < b then a else b }

  function BiasLength(r: Regs, variant: nat): nat {
    var cpl, fl, sfl := CPL(r.cp), FL(r.fb), r.pads[0].right % K16;
    match variant
    case 0 => GetNib(r.fb, 0)
    case 1 => Cap24(fl)
    case 2 => Cap24(sfl)
    case 3 => Cap24(Min(fl, sfl))
    case 5 => if cpl < fl then cpl else Cap24(fl)
    case _ => cpl
  }

  function ExecBias(r: Regs, variant: nat, test: bool): Regs {
    var cpl := BiasLength(r, variant);
    var cp := SetCPL(SetCPU(r.cp, B(GetNib(r.fb, 0) == 4)), cpl);
    SkipWord(r.(cp := cp), test && cpl != 0)
  }

  function ExecCarry(r: Regs, v: nat): Regs {
    var mx, my := Masked(r.x, r.cp), Masked(r.y, r.cp);
    var c1 := if v % 2 == 1 then SetCYF(r.cp, 0) else r.cp;
    var c2 := if v / 2 % 2 == 1 then SetCYF(c1, 1) else c1;
    var c3 := if v / 4 % 2 == 1 then SetCYF(c2, B(mx + my > AllOnes(r.cp))) else c2;
    var c4 := if v / 8 % 2 == 1 && mx != my then SetCYF(c3, 1) else c3;
    r.(cp := c4)
  }

  // ----- dispatch -----

  function ClearBusInterrupt(cc: Nib): Nib { cc - cc / 4 % 2 * 4 }
  function SetBusInterrupt(cc: Nib): Nib { ClearBusInterrupt(cc) + 4 }

  function ExecDispatch(s: State, variant: nat): State {
    match variant
    case 0 =>
      if s.bus.locked then s else s.(bus := s.bus.(locked := true), r := SkipWord(s.r, true))
    case 1 =>
      s.(bus := Bus(DispatchWrite(s.bus.slots, s.r.t / 16 % 16, ReadDescriptor(s.m, s.r.l)), false))
    case 2 =>
      var p := RequestingPort(s.bus.slots, 0);
      var r := s.r.(lat := s.r.lat.(cc := ClearBusInterrupt(s.r.lat.cc)));
      if p < 14 then
        var ria := s.bus.slots[p].value.desc.ria;
        s.(bus := s.bus.(slots := ClearRequest(s.bus.slots, p)),
           r := r.(l := (ria + 23) % K24, t := p * 0x10_0000 % K24))
      else s.(r := r.(t := 1))
    case _ => s
  }

  // ----- the operators -----

  function ExecMove(r: Regs, sg: nat, ss: nat, dg: nat, ds: nat): Regs {
    if sg == 11 && ss == 2 then WriteReg(Pop(r), dg, ds, Top(r)) else WriteReg(r, dg, ds, ReadReg(r, sg, ss))
  }

  function ExecPadMove(r: Regs, pad: nat, right: bool, from: bool, rs: nat, rg: nat): Regs {
    var p := if pad >= 16 then 0 else pad;
    if from then WriteReg(r, rg, rs, if right then r.pads[p].right else r.pads[p].left)
    else
      var v := ReadReg(r, rg, rs);
      r.(pads := r.pads[p := if right then r.pads[p].(right := v) else r.pads[p].(left := v)])
  }

  function ExecNibble(r: Regs, g: nat, s: nat, fn: nat, lit: nat): Regs {
    var cur := ReadReg(r, g, s) % 16;
    SkipWord(WriteReg(r, g, s, NibbleResult(fn, cur, lit)), NibbleSkips(fn, cur, lit))
  }

  function ExecBitBranch(r: Regs, g: nat, s: nat, bit: nat, neg: bool, disp: nat, onTrue: bool): Regs {
    if NibbleBit(ReadReg(r, g, s) % 16, bit) == onTrue then r.(mar := Jump(r.mar, neg, disp)) else r
  }

  function ExecExchange(r: Regs, src: nat, dst: nat): Regs {
    var a, b := if src >= 16 then 0 else src, if dst >= 16 then 0 else dst;
    r.(fa := r.pads[a].left, fb := r.pads[a].right, pads := r.pads[b := Pad(r.fa, r.fb)])
  }

  function ExecRelate(r: Regs, pad: nat, neg: bool): Regs {
    var v := r.pads[if pad >= 16 then 0 else pad].left;
    r.(fa := if neg then (r.fa - v) % K24 else (r.fa + v) % K24)
  }

  /** The operators that only compute on registers. */
  function ExecRegs(op: Op, r: Regs): Regs {
    match op
    case Overlay => if r.fa != 0 || r.fb != 0 then r.(halted := true) else r
    case Halt => r.(halted := true)
    case Normalize => ExecNormalize(r)
    case Bias(v, test) => ExecBias(r, v, test)
    case ShiftXY(isY, right, rot, n) => ExecShiftXY(r, isY, right, rot, n)
    case ShiftConcat(right) => ExecShiftConcat(r, right)
    case CarryFF(v) => ExecCarry(r, v)
    case Count(cv, n) => CountFaFl(r, cv, if n == 0 then CPL(r.cp) else n)
    case Exchange(a, b) => ExecExchange(r, a, b)
    case Relate(p, neg) => ExecRelate(r, p, neg)
    case Move(sg, ss, dg, ds) => ExecMove(r, sg, ss, dg, ds)
    case PadMove(p, right, from, rs, rg) => ExecPadMove(r, p, right, from, rs, rg)
    case Nibble(g, s, fn, lit) => ExecNibble(r, g, s, fn, lit)
    case BitBranch(g, s, bit, neg, disp, t) => ExecBitBranch(r, g, s, bit, neg, disp, t)
    case Skip(g, s, fn, mask) => ExecSkip(r, g, s, fn, mask)
    case Lit8(g, v) => WriteReg(r, g, 2, v)
    case ShiftT(dg, ds, rot, n) => WriteReg(r, dg, ds, ShiftTResult(r, rot, n))
    case Extract(rotate, d, w) => WriteReg(r, 2, d, ExtractResult(r, rotate, w))
    case Branch(neg, d) => r.(mar := Jump(r.mar, neg, d))
    case Call(neg, d) => Push(r, r.mar).(mar := Jump(r.mar, neg, d))
    case _ => r
  }

  function Exec(op: Op, s: State): State {
    match op
    case Field(w, reg, rev, n, cv) => ExecField(s, w, reg, rev, n, cv)
    case Lit24(g, hi) =>
      s.(r := WriteReg(s.r.(mar := Forward(s.r.mar, 1)), g, 2, hi * K16 + FetchMicro(s.m, s.r.mar)))
    case Monitor => s.(out := s.out + [s.r.x])
    case Dispatch(v) => ExecDispatch(s, v)
    case _ => s.(r := ExecRegs(op, s.r))
  }

  /** Clocks used by an operator executed in state s. */
  function Clocks(op: Op, r: Regs): (c: nat)
    ensures c >= 2
    ensures !op.Normalize? ==> c <= 8
  {
    match op
    case Move(_, _, dg, ds) => if dg == 4 && ds == 2 then 4 else 2
    case PadMove(_, _, _, _, _) => 3
    case BitBranch(_, _, _, _, _, _) => 4
    case Skip(g, s, fn, mask) => if SkipTest(fn, ReadReg(r, g, s) % 16, mask) then 4 else 2
    case Field(_, _, _, _, _) => 8
    case Lit8(g, _) => if g == 4 then 4 else 2
    case Lit24(g, _) => if g == 4 then 6 else 4
    case ShiftT(_, _, _, _) => 3
    case Extract(_, _, _) => 4
    case Branch(_, _) => 4
    case Call(_, _) => 5
    case ShiftXY(_, _, _, _) => 3
    case ShiftConcat(_) => 6
    case Count(_, _) => 4
    case Exchange(_, _) => 4
    case Relate(_, _) => 4
    case Normalize => NormalizeClocks(r)
    case _ => 2
  }

  function NormalizeClocks(r: Regs): (c: nat)
    ensures c >= 2
  {
    if Bit(r.x, Width(r.cp) - 1) then 4
    else
      var k := ShiftsNeeded(r.x, FL(r.fb), Width(r.cp));
      6 * k + (if k == FL(r.fb) then 2 else 4)
  }

  // ----- one step -----

  /** Ticks the bus and latches its interrupt and status into CC and BICN. */
  function Poll(s: State): State {
    var (slots, m) := TickSlots(s.bus.slots, s.cycles, s.m, 14);
    var cc := if AnyRequest(slots) then SetBusInterrupt(s.r.lat.cc) else s.r.lat.cc;
    s.(bus := s.bus.(slots := slots), m := m, r := s.r.(lat := s.r.lat.(cc := cc, bicn := BusStatus(slots))))
  }

  /** The word to execute: the fetched micro, or-ed with a pending M modification. */
  function NextWord(s: State): Half {
    var w := FetchMicro(s.m, s.r.mar);
    if s.r.lat.pending then Or16(w, s.r.lat.pendingValue) else w
  }

  function Or16(a: Half, b: Half): Half { Pow2Values(); OrXorRange(a, b, 16); BitOr(a, b) }

  /** The state in which the fetched operator executes. */
  function Advance(s: State, w: Half): State {
    s.(r := s.r.(m := w, mar := Forward(s.r.mar, 1), lat := s.r.lat.(pending := false, pendingValue := 0)))
  }

  function Step(s: State): (s': State) {
    if s.r.halted then s
    else
      var p := Poll(s);
      var w := NextWord(p);
      var a := Advance(p, w);
      var op := Decode(w);
      Exec(op, a).(cycles := s.cycles + Clocks(op, a.r))
  }

  function Run(s: State, n: nat): State
    decreases n
  {
    hide *;
    if n == 0 then s else Run(Step(s), n - 1)
  }

  lemma {:induction false} RunAdd(s: State, a: nat, b: nat)
    ensures Run(s, a + b) == Run(Run(s, a), b)
    decreases a
  {
    hide Step;
    if a > 0 {
      RunAdd(Step(s), a - 1, b);
      assert a + b - 1 == (a - 1) + b;
    }
  }
}
