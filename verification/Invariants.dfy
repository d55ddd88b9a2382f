/** What every micro-step keeps, whatever word it executes, and the clock accounting of bounded runs. */
module Invariants {
  import opened Bits
  import opened BitMemory
  import opened IoBus
  import opened Isa
  import opened Registers
  import opened Machine
  import opened OperandWidth

  /** The A-stack pointer stays inside the ring and the configured depth is fixed. */
  predicate StackKept(r: Regs, r': Regs) {
    r'.depth == r.depth && (r.sp < r.depth ==> r'.sp < r'.depth)
  }

  lemma WriteKeepsStack(r: Regs, g: nat, s: nat, v: nat)
    ensures StackKept(r, WriteReg(r, g, s, v))
  {
  }

  lemma MoveKeepsStack(r: Regs, sg: nat, ss: nat, dg: nat, ds: nat)
    ensures StackKept(r, ExecMove(r, sg, ss, dg, ds))
  {
    WriteKeepsStack(Pop(r), dg, ds, Top(r));
    WriteKeepsStack(r, dg, ds, ReadReg(r, sg, ss));
    hide WriteReg, ReadReg;
  }

  lemma NibbleKeepsStack(r: Regs, g: nat, s: nat, fn: nat, lit: nat)
    ensures StackKept(r, ExecNibble(r, g, s, fn, lit)) && StackKept(r, ExecSkip(r, g, s, fn, lit))
  {
    var cur := ReadReg(r, g, s) % 16;
    WriteKeepsStack(r, g, s, NibbleResult(fn, cur, lit));
    WriteKeepsStack(r, g, s, BitAnd(cur, 15 - lit % 16));
    hide WriteReg, ReadReg, NibbleResult, NibbleSkips, SkipTest;
  }

  lemma PadMoveKeepsStack(r: Regs, pad: nat, right: bool, from: bool, rs: nat, rg: nat)
    ensures StackKept(r, ExecPadMove(r, pad, right, from, rs, rg))
  {
    var p := if pad >= 16 then 0 else pad;
    WriteKeepsStack(r, rg, rs, if right then r.pads[p].right else r.pads[p].left);
    hide WriteReg, ReadReg;
  }

  lemma ShiftsKeepStack(r: Regs, a: nat, b: nat, rot: bool, n: nat, w: nat)
    ensures StackKept(r, WriteReg(r, a, b, ShiftTResult(r, rot, n)))
    ensures StackKept(r, WriteReg(r, 2, b, ExtractResult(r, n, w)))
  {
    WriteKeepsStack(r, a, b, ShiftTResult(r, rot, n));
    WriteKeepsStack(r, 2, b, ExtractResult(r, n, w));
    hide WriteReg, ShiftTResult, ExtractResult;
  }

  lemma ExecRegsKeepsStack(op: Op, r: Regs)
    ensures StackKept(r, ExecRegs(op, r))
  {
    if op.Move? || op.PadMove? {
      MovesKeepStack(op, r);
    } else if op.Nibble? || op.Skip? {
      TestsKeepStack(op, r);
    } else if op.Lit8? || op.ShiftT? || op.Extract? {
      WritesKeepStack(op, r);
    } else {
      OthersKeepStack(op, r);
    }
    hide ExecRegs;
  }

  lemma MovesKeepStack(op: Op, r: Regs)
    requires op.Move? || op.PadMove?
    ensures StackKept(r, ExecRegs(op, r))
  {
    match op
    case Move(sg, ss, dg, ds) => MoveKeepsStack(r, sg, ss, dg, ds); hide ExecMove;
    case PadMove(p, right, from, rs, rg) => PadMoveKeepsStack(r, p, right, from, rs, rg); hide ExecPadMove;
  }

  lemma TestsKeepStack(op: Op, r: Regs)
    requires op.Nibble? || op.Skip?
    ensures StackKept(r, ExecRegs(op, r))
  {
    match op
    case Nibble(g, s, fn, lit) => NibbleKeepsStack(r, g, s, fn, lit); hide ExecNibble;
    case Skip(g, s, fn, mask) => NibbleKeepsStack(r, g, s, fn, mask); hide ExecSkip;
  }

  lemma WritesAre(op: Op, r: Regs)
    ensures op.Lit8? ==> ExecRegs(op, r) == WriteReg(r, op.g, 2, op.v)
    ensures op.ShiftT? ==> ExecRegs(op, r) == WriteReg(r, op.dg, op.ds, ShiftTResult(r, op.rot, op.count))
    ensures op.Extract? ==> ExecRegs(op, r) == WriteReg(r, 2, op.dst, ExtractResult(r, op.rotate, op.width))
  {
    hide WriteReg, ShiftTResult, ExtractResult;
  }

  lemma WritesKeepStack(op: Op, r: Regs)
    requires op.Lit8? || op.ShiftT? || op.Extract?
    ensures StackKept(r, ExecRegs(op, r))
  {
    hide *;
    WritesAre(op, r);
    match op
    case Lit8(g, v) => WriteKeepsStack(r, g, 2, v);
    case ShiftT(dg, ds, rot, n) => ShiftsKeepStack(r, dg, ds, rot, n, 0);
    case Extract(rotate, d, w) => ShiftsKeepStack(r, 2, d, false, rotate, w);
  }

  lemma OthersKeepStack(op: Op, r: Regs)
    requires !op.Move? && !op.PadMove? && !op.Nibble? && !op.Skip? && !op.Lit8? && !op.ShiftT? && !op.Extract?
    ensures StackKept(r, ExecRegs(op, r))
  {
    hide ReadReg, NibbleBit, BiasLength, ShiftsNeeded, CountFa, CountFb, Masked, Jump;
  }

  // ----- one step -----

  /** A step from s to s' keeps the stack ring, the memory size and what was printed. */
  predicate Kept(s: State, s': State) {
    StackKept(s.r, s'.r) && |s'.m| == |s.m| && s.out <= s'.out
  }

  lemma ExecKeeps(op: Op, s: State)
    ensures Kept(s, Exec(op, s))
  {
    if op.Lit24? {
      WriteKeepsStack(s.r.(mar := Forward(s.r.mar, 1)), op.g, 2, op.hi * K16 + FetchMicro(s.m, s.r.mar));
      hide WriteReg, FetchMicro;
    } else if op.Field? {
      hide CountFa, CountFb, FieldLength;
    } else if !op.Dispatch? && !op.Monitor? {
      ExecRegsKeepsStack(op, s.r);
      hide ExecRegs;
    }
  }

  lemma PollKeeps(s: State)
    ensures Kept(s, Poll(s)) && Poll(s).cycles == s.cycles && Poll(s).r.halted == s.r.halted
  {
    hide TickSlots, AnyRequest, BusStatus;
  }

  lemma AdvanceKeeps(s: State, w: Half)
    ensures Kept(s, Advance(s, w))
  {
  }

  lemma KeptTwice(a: State, b: State, c: State)
    requires Kept(a, b) && Kept(b, c)
    ensures Kept(a, c)
  {
  }

  /** Every micro-step on every word keeps the ring pointer below the depth, the memory size and the output so
      far, and unless the machine has halted costs at least two clocks. */
  lemma StepKeeps(s: State)
    ensures Kept(s, Step(s))
    ensures if s.r.halted then Step(s) == s else Step(s).cycles >= s.cycles + 2
  {
    if !s.r.halted {
      var p := Poll(s);
      var w := NextWord(p);
      var a := Advance(p, w);
      var op := Decode(w);
      var e := Exec(op, a);
      assert Step(s) == e.(cycles := s.cycles + Clocks(op, a.r));
      hide *;
      PollKeeps(s);
      AdvanceKeeps(p, w);
      KeptTwice(s, p, a);
      ExecKeeps(op, a);
      KeptTwice(s, a, e);
      KeptClocks(s, e, Clocks(op, a.r));
    }
  }

  lemma KeptClocks(s: State, e: State, n: nat)
    requires Kept(s, e)
    ensures Kept(s, e.(cycles := s.cycles + n))
  {
  }

  lemma {:induction false} RunKeeps(s: State, n: nat)
    ensures Kept(s, Run(s, n))
    decreases n
  {
    hide Step;
    if n > 0 {
      StepKeeps(s);
      RunKeeps(Step(s), n - 1);
      assert Run(s, n) == Run(Step(s), n - 1);
      hide *;
      KeptTwice(s, Step(s), Run(s, n));
    }
  }

  // ----- bounded runs -----

  /** run(): steps while the machine is not halted and fewer than max clocks have passed since `start`. */
  function RunFor(s: State, start: nat, max: nat): State
    decreases start + max - s.cycles
  {
    if s.r.halted || s.cycles >= start + max then s
    else
      StepKeeps(s);
      RunFor(Step(s), start, max)
  }

  /** Number of steps run() takes. */
  function StepsFor(s: State, start: nat, max: nat): nat
    decreases start + max - s.cycles
  {
    if s.r.halted || s.cycles >= start + max then 0
    else
      StepKeeps(s);
      1 + StepsFor(Step(s), start, max)
  }

  /** run() is that many single steps, at most ceil(max / 2) of them. */
  lemma {:induction false} RunForIsRun(s: State, start: nat, max: nat)
    requires start <= s.cycles
    ensures RunFor(s, start, max) == Run(s, StepsFor(s, start, max))
    ensures s.cycles < start + max ==> 2 * StepsFor(s, start, max) <= start + max - s.cycles + 1
    decreases start + max - s.cycles
  {
    StepKeeps(s);
    hide Step;
    if !s.r.halted && s.cycles < start + max {
      RunForIsRun(Step(s), start, max);
    }
  }

  /** run() stops when the machine has halted or used the clocks asked for, and not before. */
  lemma {:induction false} RunForStops(s: State, start: nat, max: nat, k: nat)
    ensures RunFor(s, start, max).r.halted || RunFor(s, start, max).cycles >= start + max
    ensures k < StepsFor(s, start, max) ==> !Run(s, k).r.halted && Run(s, k).cycles < start + max
    decreases start + max - s.cycles
  {
    StepKeeps(s);
    hide Step;
    if !s.r.halted && s.cycles < start + max {
      RunForStops(Step(s), start, max, if k == 0 then 0 else k - 1);
    }
  }

  // ----- normalize -----

  lemma ModTimes(u: nat, p: nat)
    ensures (u % K24) * p % K24 == u * p % K24
  {
    var q, r := u / K24, u % K24;
    assert u == q * K24 + r;
    assert u * p == q * p * K24 + r * p by {
      assert q * K24 * p == q * p * K24;
    }
    DivMod(q * p + r * p / K24, r * p % K24, K24);
  }

  /** Doubling first, then shifting. */
  lemma ShiftDoubled(x: nat, j: nat)
    ensures ShiftLeft(x * 2 % K24, j) == ShiftLeft(x, j + 1)
  {
    ModTimes(x * 2, Pow2(j));
    assert x * 2 * Pow2(j) == x * Pow2(j + 1) by {
      assert Pow2(j + 1) == 2 * Pow2(j);
    }
  }

  lemma ShiftNone(x: Word)
    ensures ShiftLeft(x, 0) == x
  {
  }

  /** NORMALIZE shifts the least number of times that brings a one to the operand's top bit, or FL times if that is
      fewer. */
  lemma {:induction false} ShiftsLeast(x: Word, fl: nat, w: nat)
    requires w > 0
    ensures var k := ShiftsNeeded(x, fl, w);
      (forall j: nat :: j < k ==> !Bit(ShiftLeft(x, j), w - 1)) && (k < fl ==> Bit(ShiftLeft(x, k), w - 1))
    decreases fl
  {
    hide Bit, ShiftLeft;
    ShiftNone(x);
    if fl > 0 && !Bit(x, w - 1) {
      var y := x * 2 % K24;
      ShiftsLeast(y, fl - 1, w);
      var k := ShiftsNeeded(x, fl, w);
      forall j: nat | j < k
        ensures !Bit(ShiftLeft(x, j), w - 1)
      {
        if j > 0 {
          ShiftDoubled(x, j - 1);
        }
      }
      ShiftDoubled(x, k - 1);
    }
  }

  /** NORMALIZE looks at the top bit of the operand. It leaves X alone when the bit is one; otherwise it leaves X shifted
      by the least count that brings a one there, or by FL, FL reduced by it, and takes six clocks a shift. */
  lemma Normalizes(r: Regs)
    ensures var top, fl, r' := OperandLength(r.cp) - 1, FL(r.fb), ExecNormalize(r); var k := fl - FL(r'.fb);
      && if Bit(r.x, top) then r' == r && NormalizeClocks(r) == 4
         else
           && 0 <= k <= fl && r'.x == ShiftLeft(r.x, k) && r' == r.(x := r'.x, fb := r'.fb)
           && (forall j: nat :: j < k ==> !Bit(ShiftLeft(r.x, j), top)) && (k < fl ==> Bit(r'.x, top))
           && NormalizeClocks(r) == 6 * k + if k == fl then 2 else 4
  {
    WidthIs(r.cp);
    hide Bit, ShiftLeft, ShiftsNeeded, Width;
    ShiftsLeast(r.x, FL(r.fb), Width(r.cp));
  }
}
