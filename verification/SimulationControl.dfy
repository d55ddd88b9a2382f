/** Lines that jump, call, return, test or take several words, and the simulation of every line. */
module SimulationControl {
  import opened Bits
  import opened BitMemory
  import opened IoBus
  import opened Isa
  import opened Registers
  import opened Machine
  import opened Mil
  import opened AStack
  import opened Footprint
  import opened Lowering
  import opened Simulation
  import opened SimulationSteps

  lemma RunOne(s: State, g: Region)
    requires Confined(s, g)
    ensures ConfinedRun(s, 1, g) && Run(s, 1) == Step(s)
  {
    hide Confined, Step;
    assert ConfinedRun(Step(s), 0, g) && Run(Step(s), 0) == Step(s);
  }

  lemma RunTwo(s: State, g: Region)
    requires Confined(s, g) && Confined(Step(s), g)
    ensures ConfinedRun(s, 2, g) && Run(s, 2) == Step(Step(s))
  {
    hide Confined, Step;
    RunOne(Step(s), g);
  }

  /** The machine executes a register operator at word address a. */
  lemma RegisterStep(p: Program, s: State, c: Mil, g: Region, a: nat, op: Op) returns (r: Regs)
    requires Carries(p, s, c) && !c.halted && Guards(g, p)
    requires a < |Code(p)| && s.r.mar == 16 * a && Code(p)[a] == Encode(op)
    requires Packable(op) && OnRegisters(op) && Private(op)
    ensures Same(r, c) && r.mar == 16 * a + 16 && !r.lat.pending
    ensures r.stack == s.r.stack && r.sp == s.r.sp && r.depth == s.r.depth
    ensures Step(s) == s.(r := ExecRegs(op, r), cycles := Step(s).cycles)
    ensures Confined(s, g)
  {
    assert OpConfined(op, s, g) by {
      hide Private, Carries, Guards, Code, Encode, Packable;
    }
    hide Code, Encode, Packable, Exec, Step, OpConfined, Confined, FetchMicro, RingHolds, ExecRegs, LineAddr;
    var f := Executes(p, s, a, op);
    r := f.r;
    ExecOnRegisters(op, f);
  }

  lemma ExecOnRegisters(op: Op, f: State)
    requires OnRegisters(op)
    ensures Exec(op, f) == f.(r := ExecRegs(op, f.r))
  {
    hide ExecRegs;
  }

  /** A register step that leaves the A-stack alone. */
  lemma StillCarries(p: Program, s: State, c: Mil, s': State, c': Mil)
    requires Carries(p, s, c) && s'.bus == s.bus && s'.m == s.m && s'.out == s.out
    requires s'.r.stack == s.r.stack && s'.r.sp == s.r.sp && s'.r.depth == s.r.depth && !s'.r.lat.pending
    requires Same(s'.r, c') && c'.pc <= |p| && c'.rets == c.rets && c'.m == c.m && c'.out == c.out
    ensures Carries(p, s', c')
  {
    hide Loaded, Same;
  }

  /** Word k of line i in the finished program. */
  lemma WordOf(p: Program, i: nat, k: nat)
    requires Fits(p) && i < |p| && k < Size(p[i])
    ensures AddrOf(p, i) + k < |Code(p)| < 0x1000
    ensures Code(p)[AddrOf(p, i) + k] == LineWords(p, i)[k]
    ensures LineAddr(p, i + 1) == LineAddr(p, i) + 16 * Size(p[i])
  {
    hide Code, LineWords;
    CodeAt(p, i);
    SliceAt(Code(p), AddrOf(p, i), AddrOf(p, i + 1), k);
  }

  lemma LineAddrBelow(p: Program, i: nat)
    requires Fits(p) && i <= |p|
    ensures AddrOf(p, i) <= |Code(p)| < 0x1000
  {
    LayoutPrefix(p, i, |p|);
  }

  lemma AtLine(p: Program, s: State, c: Mil)
    requires Sim(p, s, c)
    ensures Fits(p) && c.pc <= |p| && Carries(p, s, c) && s.r.mar == LineAddr(p, c.pc) == 16 * AddrOf(p, c.pc)
  {
    hide LineAddr, Loaded, Same;
  }

  lemma Unpacked(p: Program, s: State, c: Mil, g: Region, depth: nat)
    requires Sim(p, s, c) && Ready(p, c, depth, g)
    ensures Carries(p, s, c) && Fits(p) && c.pc < |p| && s.r.mar == LineAddr(p, c.pc) == 16 * AddrOf(p, c.pc)
    ensures !c.halted && Guards(g, p)
  {
    hide LineAddr, LineWithin, Loaded, Same;
  }

  // ----- jumps -----

  /** The branch encoded at word a for line t arrives at line t. */
  lemma BranchArrives(p: Program, a: nat, t: nat, call: bool)
    requires Fits(p) && a < |Code(p)| && t <= |p|
    ensures var op := BranchTo(a, AddrOf(p, t), call);
      && Packable(op) && Private(op) && OnRegisters(op)
      && Jump(16 * a + 16, op.neg, op.disp) == LineAddr(p, t)
  {
    hide *;
    LineAddrBelow(p, t);
    BranchFits(a, AddrOf(p, t), call, |Code(p)|);
    BranchLands(a, AddrOf(p, t));
  }

  lemma BranchFits(a: nat, t: nat, call: bool, n: nat)
    requires a < n < 0x1000 && t <= n
    ensures var op := BranchTo(a, t, call); var d := t - (a + 1);
      && Packable(op) && Private(op) && OnRegisters(op) && op.neg == (d < 0) && op.disp == Abs(d) % 0x1000
      && Abs(d) < 0x1000
  {
  }

  lemma GoToNeeds(p: Program, c: Mil, depth: nat, g: Region)
    requires Ready(p, c, depth, g) && p[c.pc].GoTo?
    ensures !c.halted && c.pc < |p| && Target(p, p[c.pc].target) < |p|
  {
    hide CondOk, Guards, LineWithin, Target, OpensBlock, FindEnd, Size;
  }

  lemma GoToExecutes(p: Program, c: Mil)
    requires !c.halted && c.pc < |p| && p[c.pc].GoTo?
    ensures Execute(p, c) == c.(pc := Target(p, p[c.pc].target))
  {
    hide Holds, Target, AfterThen, OpensBlock, FieldValue, WriteField, Counted, Get, Set;
  }

  lemma GoToWords(p: Program, i: nat)
    requires i < |p| && p[i].GoTo? && Target(p, p[i].target) < |p|
    ensures Size(p[i]) == 1
    ensures LineWords(p, i) == [Encode(BranchTo(AddrOf(p, i), AddrOf(p, Target(p, p[i].target)), false))]
  {
    hide Encode, IfOp, AddrOf, BranchTo, Target, LitWords, OpensBlock, FindEnd, RegAddr;
  }

  lemma SimGoTo(p: Program, s: State, c: Mil, g: Region, depth: nat)
    requires Sim(p, s, c) && Ready(p, c, depth, g) && p[c.pc].GoTo?
    ensures Confined(s, g) && Sim(p, Step(s), Execute(p, c))
  {
    hide *;
    GoToNeeds(p, c, depth, g);
    var a, t := AddrOf(p, c.pc), Target(p, p[c.pc].target);
    GoToExecutes(p, c);
    GoToWords(p, c.pc);
    Unpacked(p, s, c, g, depth);
    WordOf(p, c.pc, 0);
    BranchArrives(p, a, t, false);
    var r := RegisterStep(p, s, c, g, a, BranchTo(a, AddrOf(p, t), false));
    ExecutesBranch(r, a, AddrOf(p, t), LineAddr(p, t));
    JumpCarries(p, s, c, r, t, Step(s));
  }

  lemma ExecutesBranch(r: Regs, a: nat, t: nat, addr: Addr)
    requires r.mar == 16 * a + 16 && Jump(16 * a + 16, BranchTo(a, t, false).neg, BranchTo(a, t, false).disp) == addr
    ensures ExecRegs(BranchTo(a, t, false), r) == r.(mar := addr)
  {
    hide Jump;
  }

  lemma JumpCarries(p: Program, s: State, c: Mil, r: Regs, t: nat, s': State)
    requires Carries(p, s, c) && Same(r, c) && !r.lat.pending && t <= |p|
    requires r.stack == s.r.stack && r.sp == s.r.sp && r.depth == s.r.depth
    requires s' == s.(r := r.(mar := LineAddr(p, t)), cycles := s'.cycles)
    ensures Sim(p, s', c.(pc := t))
  {
    hide Loaded, LineAddr;
    StillCarries(p, s, c, s', c.(pc := t));
  }

  // ----- calls and returns -----

  lemma CallWords(p: Program, i: nat)
    requires i < |p| && p[i].CallTo? && Target(p, p[i].target) <= |p|
    ensures Size(p[i]) == 1
    ensures LineWords(p, i) == [Encode(BranchTo(AddrOf(p, i), AddrOf(p, Target(p, p[i].target)), true))]
  {
    hide Encode, BranchTo, Target, AddrOf;
  }

  lemma MeansCall(p: Program, c: Mil, g: Region, depth: nat)
    requires Ready(p, c, depth, g) && p[c.pc].CallTo?
    ensures c.pc < |p| && Target(p, p[c.pc].target) < |p| && |c.rets| < depth
    ensures Execute(p, c) == c.(pc := Target(p, p[c.pc].target), rets := c.rets + [c.pc + 1])
  {
    hide Target, LineWithin, Guards;
  }

  lemma SimCall(p: Program, s: State, c: Mil, g: Region, depth: nat)
    requires Sim(p, s, c) && Ready(p, c, depth, g) && p[c.pc].CallTo? && depth <= s.r.depth
    ensures Confined(s, g) && Sim(p, Step(s), Execute(p, c))
  {
    hide *;
    MeansCall(p, c, g, depth);
    CallWords(p, c.pc);
    var a, t := AddrOf(p, c.pc), Target(p, p[c.pc].target);
    Unpacked(p, s, c, g, depth);
    WordOf(p, c.pc, 0);
    BranchArrives(p, a, t, true);
    var r := RegisterStep(p, s, c, g, a, BranchTo(a, AddrOf(p, t), true));
    ExecutesCall(r, a, AddrOf(p, t), LineAddr(p, t));
    CallCarries(p, s, c, r, t, Step(s));
  }

  lemma ExecutesCall(r: Regs, a: nat, t: nat, addr: Addr)
    requires r.mar == 16 * a + 16 && Jump(16 * a + 16, BranchTo(a, t, true).neg, BranchTo(a, t, true).disp) == addr
    ensures ExecRegs(BranchTo(a, t, true), r) == Push(r, r.mar).(mar := addr)
  {
    hide Jump;
  }

  lemma CallCarries(p: Program, s: State, c: Mil, r: Regs, t: nat, s': State)
    requires Carries(p, s, c) && Same(r, c) && !r.lat.pending && c.pc < |p| && t <= |p|
    requires r.stack == s.r.stack && r.sp == s.r.sp && r.depth == s.r.depth && |c.rets| < r.depth
    requires r.mar == LineAddr(p, c.pc + 1)
    requires s' == s.(r := Push(r, r.mar).(mar := LineAddr(p, t)), cycles := s'.cycles)
    ensures Sim(p, s', c.(pc := t, rets := c.rets + [c.pc + 1]))
  {
    var st := ReturnAddrs(p, c.rets);
    assert RingHolds(r, st);
    PushRefines(r, st, r.mar);
    assert ReturnAddrs(p, c.rets + [c.pc + 1]) == st + [r.mar];
    hide Loaded, LineAddr;
    assert RingHolds(s'.r, st + [r.mar]);
  }

  /** What a return does, and its one word. */
  lemma MeansExit(p: Program, c: Mil, g: Region, depth: nat)
    requires Ready(p, c, depth, g) && p[c.pc].Exit?
    ensures |c.rets| > 0 && Size(p[c.pc]) == 1 && LineWords(p, c.pc) == [Encode(Isa.Move(11, 2, 4, 2))]
    ensures Execute(p, c) == c.(pc := c.rets[|c.rets| - 1], rets := c.rets[..|c.rets| - 1])
  {
    hide Encode, LineWithin, Guards;
  }

  lemma ExitFits()
    ensures var op := Isa.Move(11, 2, 4, 2); Packable(op) && Private(op) && OnRegisters(op)
  {
  }

  lemma SimExit(p: Program, s: State, c: Mil, g: Region, depth: nat)
    requires Sim(p, s, c) && Ready(p, c, depth, g) && p[c.pc].Exit?
    ensures Confined(s, g) && Sim(p, Step(s), Execute(p, c))
  {
    hide *;
    MeansExit(p, c, g, depth);
    ExitFits();
    Unpacked(p, s, c, g, depth);
    WordOf(p, c.pc, 0);
    var r := RegisterStep(p, s, c, g, AddrOf(p, c.pc), Isa.Move(11, 2, 4, 2));
    ExecutesExit(r);
    ExitCarries(p, s, c, r, Step(s));
  }

  lemma ExecutesExit(r: Regs)
    ensures ExecRegs(Isa.Move(11, 2, 4, 2), r) == Pop(r).(mar := Top(r) % 0x8_0000)
  {
  }

  lemma ExitCarries(p: Program, s: State, c: Mil, r: Regs, s': State)
    requires Carries(p, s, c) && Same(r, c) && !r.lat.pending && |c.rets| > 0
    requires r.stack == s.r.stack && r.sp == s.r.sp && r.depth == s.r.depth
    requires s' == s.(r := Pop(r).(mar := Top(r) % 0x8_0000), cycles := s'.cycles)
    ensures Sim(p, s', c.(pc := c.rets[|c.rets| - 1], rets := c.rets[..|c.rets| - 1]))
  {
    var n := |c.rets| - 1;
    var st := ReturnAddrs(p, c.rets);
    assert RingHolds(r, st);
    PopRefines(r, st);
    assert ReturnAddrs(p, c.rets[..n]) == st[..n];
    assert Top(r) == LineAddr(p, c.rets[n]);
    hide Loaded, LineAddr;
    SmallMod(Top(r));
    assert RingHolds(s'.r, st[..n]);
  }

  // ----- conditions -----

  /** The assembler packs op, and it touches registers only. */
  predicate TestOp(op: Op) {
    Packable(op) && Private(op) && OnRegisters(op)
  }

  /** In the source-level state c, op skips the next word or does nothing. */
  ghost predicate Skips(op: Op, c: Mil, skip: bool) {
    forall r: Regs :: Same(r, c) && r.mar < 0x7_0000 ==> ExecRegs(op, r) == (if skip then r.(mar := r.mar + 16) else r)
  }

  lemma IfOpFits(c: Cond)
    requires Parses(c)
    ensures TestOp(IfOp(c)) && TestOp(Invert(IfOp(c)))
  {
    IfOpPacks(c);
    hide Packable;
  }

  lemma SkipOpFits(c: Cond)
    requires !c.test.TBit?
    ensures TestOp(SkipOp(c))
  {
    SkipOpPacks(c);
    hide Packable;
  }

  lemma IfSkips(cond: Cond, c: Mil)
    requires CondOk(cond)
    ensures TestOp(IfOp(cond)) && Skips(IfOp(cond), c, !Holds(cond, c))
    ensures TestOp(Invert(IfOp(cond))) && Skips(Invert(IfOp(cond)), c, Holds(cond, c))
  {
    OkParses(cond);
    IfOpFits(cond);
    hide CondOk, IfOp, Invert, Holds, ExecRegs, Same, TestOp;
    forall r: Regs | Same(r, c) && r.mar < 0x7_0000
      ensures ExecRegs(IfOp(cond), r) == (if Holds(cond, c) then r else r.(mar := r.mar + 16))
      ensures ExecRegs(Invert(IfOp(cond)), r) == (if Holds(cond, c) then r.(mar := r.mar + 16) else r)
    {
      ExecutesIf(cond, r, c);
    }
  }

  lemma WhenSkips(cond: Cond, c: Mil)
    requires SkipOk(cond)
    ensures TestOp(SkipOp(cond)) && Skips(SkipOp(cond), c, Holds(cond, c))
  {
    SkipOpFits(cond);
    hide SkipOk, SkipOp, Holds, ExecRegs, Same, TestOp;
    forall r: Regs | Same(r, c) && r.mar < 0x7_0000
      ensures ExecRegs(SkipOp(cond), r) == (if Holds(cond, c) then r.(mar := r.mar + 16) else r)
    {
      ExecutesSkip(cond, r, c);
    }
  }

  lemma TestOpMeans(op: Op)
    requires TestOp(op)
    ensures Packable(op) && Private(op) && OnRegisters(op)
  {
  }

  /** One skip word: control goes to the next word, or past it. */
  lemma SkipStep(p: Program, s: State, c: Mil, g: Region, a: nat, op: Op, skip: bool, c': Mil)
    requires Carries(p, s, c) && !c.halted && Guards(g, p) && TestOp(op) && Skips(op, c, skip)
    requires a < |Code(p)| && s.r.mar == 16 * a && Code(p)[a] == Encode(op)
    requires c' == c.(pc := c'.pc) && c'.pc <= |p|
    ensures Confined(s, g) && Carries(p, Step(s), c')
    ensures Step(s).r.mar == 16 * a + if skip then 32 else 16
  {
    assert |Code(p)| < 0x1000;
    hide *;
    TestOpMeans(op);
    var r := RegisterStep(p, s, c, g, a, op);
    SkipsAt(op, c, skip, r);
    MovedCarries(p, s, c, r, Step(s), c');
  }

  lemma SkipsAt(op: Op, c: Mil, skip: bool, r: Regs)
    requires Skips(op, c, skip) && Same(r, c) && r.mar < 0x7_0000
    ensures ExecRegs(op, r) == if skip then r.(mar := r.mar + 16) else r
  {
    hide ExecRegs, Same;
  }

  lemma MovedCarries(p: Program, s: State, c: Mil, r: Regs, s': State, c': Mil)
    requires Carries(p, s, c) && Same(r, c) && !r.lat.pending && r.mar < 0x7_0000
    requires r.stack == s.r.stack && r.sp == s.r.sp && r.depth == s.r.depth
    requires s' == s.(r := r, cycles := s'.cycles) || s' == s.(r := r.(mar := r.mar + 16), cycles := s'.cycles)
    requires c' == c.(pc := c'.pc) && c'.pc <= |p|
    ensures Carries(p, s', c')
  {
    hide Loaded;
    StillCarries(p, s, c, s', c');
  }

  /** A branch word: control goes to line t. */
  lemma BranchStep(p: Program, s: State, c: Mil, g: Region, a: nat, t: nat)
    requires Carries(p, s, c) && !c.halted && Guards(g, p)
    requires a < |Code(p)| && s.r.mar == 16 * a && t <= |p|
    requires Code(p)[a] == Encode(BranchTo(a, AddrOf(p, t), false))
    ensures Confined(s, g) && Sim(p, Step(s), c.(pc := t))
  {
    assert Fits(p);
    hide *;
    BranchArrives(p, a, t, false);
    var r := RegisterStep(p, s, c, g, a, BranchTo(a, AddrOf(p, t), false));
    ExecutesBranch(r, a, AddrOf(p, t), LineAddr(p, t));
    JumpCarries(p, s, c, r, t, Step(s));
  }

  lemma IfGoToExecutes(p: Program, c: Mil)
    requires !c.halted && c.pc < |p| && p[c.pc].IfGoTo?
    ensures Execute(p, c) == c.(pc := if Holds(p[c.pc].cond, c) then Target(p, p[c.pc].target) else c.pc + 1)
    ensures MicroSteps(p, c) == if Holds(p[c.pc].cond, c) then 2 else 1
  {
    hide Holds, Target, AfterThen, OpensBlock, FieldValue, WriteField, Counted, Get, Set;
  }

  lemma IfGoToNeeds(p: Program, c: Mil, depth: nat, g: Region)
    requires Ready(p, c, depth, g) && p[c.pc].IfGoTo?
    ensures !c.halted && c.pc < |p| && Target(p, p[c.pc].target) < |p| && CondOk(p[c.pc].cond)
  {
    hide CondOk, Guards, LineWithin, Target, OpensBlock, FindEnd, Size;
  }

  lemma IfGoToWords(p: Program, i: nat)
    requires i < |p| && p[i].IfGoTo? && Target(p, p[i].target) < |p|
    ensures Size(p[i]) == 2
    ensures LineWords(p, i)
      == [Encode(IfOp(p[i].cond)), Encode(BranchTo(AddrOf(p, i) + 1, AddrOf(p, Target(p, p[i].target)), false))]
  {
    hide Encode, IfOp, AddrOf, BranchTo, Target, LitWords, LineOp;
  }

  lemma MeansIfGoTo(p: Program, c: Mil, depth: nat, g: Region)
    requires Ready(p, c, depth, g) && p[c.pc].IfGoTo?
    ensures var cond, t := p[c.pc].cond, Target(p, p[c.pc].target);
      && t < |p| && CondOk(cond)
      && Execute(p, c) == c.(pc := if Holds(cond, c) then t else c.pc + 1)
      && MicroSteps(p, c) == (if Holds(cond, c) then 2 else 1) && Size(p[c.pc]) == 2
      && LineWords(p, c.pc) == [Encode(IfOp(cond)), Encode(BranchTo(AddrOf(p, c.pc) + 1, AddrOf(p, t), false))]
  {
    hide *;
    IfGoToNeeds(p, c, depth, g);
    IfGoToExecutes(p, c);
    IfGoToWords(p, c.pc);
  }

  lemma SimIfGoTo(p: Program, s: State, c: Mil, g: Region, depth: nat)
    requires Sim(p, s, c) && Ready(p, c, depth, g) && p[c.pc].IfGoTo?
    ensures ConfinedRun(s, MicroSteps(p, c), g) && Sim(p, Run(s, MicroSteps(p, c)), Execute(p, c))
  {
    hide *;
    Unpacked(p, s, c, g, depth);
    MeansIfGoTo(p, c, depth, g);
    WordOf(p, c.pc, 0);
    WordOf(p, c.pc, 1);
    var cond, a, t := p[c.pc].cond, AddrOf(p, c.pc), Target(p, p[c.pc].target);
    IfSkips(cond, c);
    if Holds(cond, c) {
      SkipStep(p, s, c, g, a, IfOp(cond), false, c);
      BranchStep(p, Step(s), c, g, a + 1, t);
      RunTwo(s, g);
    } else {
      SkipStep(p, s, c, g, a, IfOp(cond), true, c.(pc := c.pc + 1));
      RunOne(s, g);
      ArrivedAt(p, Step(s), c.(pc := c.pc + 1));
    }
  }

  lemma ArrivedAt(p: Program, s: State, c: Mil)
    requires Carries(p, s, c) && s.r.mar == LineAddr(p, c.pc)
    ensures Sim(p, s, c)
  {
  }

  lemma MeansIfThen(p: Program, c: Mil, depth: nat, g: Region)
    requires Ready(p, c, depth, g) && p[c.pc].IfThen?
    ensures var cond, holds, opens := p[c.pc].cond, Holds(p[c.pc].cond, c), OpensBlock(p, c.pc);
      && CondOk(cond) && c.pc + 1 < |p| && Size(p[c.pc]) == 1 && Size(p[c.pc + 1]) == 1
      && Execute(p, c) == c.(pc := if !holds then AfterThen(p, c.pc) else if opens then c.pc + 2 else c.pc + 1)
      && MicroSteps(p, c) == (if holds || !opens then 1 else 2)
      && LineWords(p, c.pc) == [Encode(if opens then Invert(IfOp(cond)) else IfOp(cond))]
  {
    hide Holds, Encode, IfOp, AddrOf, CondOk, Guards, AfterThen;
  }

  lemma MeansBegin(p: Program, i: nat)
    requires i + 1 < |p| && OpensBlock(p, i)
    ensures AfterThen(p, i) <= |p|
    ensures LineWords(p, i + 1) == [Encode(BranchTo(AddrOf(p, i + 1), AddrOf(p, AfterThen(p, i)), false))]
  {
    hide Encode, AddrOf;
  }

  lemma AfterWord(p: Program, i: nat)
    requires i < |p| && !OpensBlock(p, i)
    ensures AfterThen(p, i) == i + 2
  {
  }

  /** IF ... THEN with a one-word body. */
  lemma SimIfThenWord(p: Program, s: State, c: Mil, g: Region, depth: nat)
    requires Sim(p, s, c) && Ready(p, c, depth, g) && p[c.pc].IfThen? && !OpensBlock(p, c.pc)
    ensures ConfinedRun(s, MicroSteps(p, c), g) && Sim(p, Run(s, MicroSteps(p, c)), Execute(p, c))
  {
    hide *;
    Unpacked(p, s, c, g, depth);
    AfterWord(p, c.pc);
    MeansIfThen(p, c, depth, g);
    WordOf(p, c.pc, 0);
    WordOf(p, c.pc + 1, 0);
    var cond := p[c.pc].cond;
    var c' := c.(pc := if Holds(cond, c) then c.pc + 1 else c.pc + 2);
    IfSkips(cond, c);
    SkipStep(p, s, c, g, AddrOf(p, c.pc), IfOp(cond), !Holds(cond, c), c');
    RunOne(s, g);
    ArrivedAt(p, Step(s), c');
  }

  lemma MeansSkipWhen(p: Program, c: Mil, depth: nat, g: Region)
    requires Ready(p, c, depth, g) && p[c.pc].SkipWhen?
    ensures var cond := p[c.pc].cond;
      && SkipOk(cond) && c.pc + 1 < |p| && Size(p[c.pc]) == 1 && Size(p[c.pc + 1]) == 1
      && Execute(p, c) == c.(pc := if Holds(cond, c) then c.pc + 2 else c.pc + 1)
      && LineWords(p, c.pc) == [Encode(SkipOp(cond))]
  {
    hide Holds, Encode, SkipOp, AddrOf, SkipOk, Guards;
  }

  /** SKIP WHEN passes over the next word exactly when its condition holds. */
  lemma SimSkipWhen(p: Program, s: State, c: Mil, g: Region, depth: nat)
    requires Sim(p, s, c) && Ready(p, c, depth, g) && p[c.pc].SkipWhen?
    ensures Confined(s, g) && Sim(p, Step(s), Execute(p, c))
  {
    hide *;
    Unpacked(p, s, c, g, depth);
    MeansSkipWhen(p, c, depth, g);
    WordOf(p, c.pc, 0);
    WordOf(p, c.pc + 1, 0);
    var cond := p[c.pc].cond;
    var c' := c.(pc := if Holds(cond, c) then c.pc + 2 else c.pc + 1);
    WhenSkips(cond, c);
    SkipStep(p, s, c, g, AddrOf(p, c.pc), SkipOp(cond), Holds(cond, c), c');
    ArrivedAt(p, Step(s), c');
  }

  /** IF ... THEN BEGIN ... END: control enters the block exactly when the condition holds, otherwise it
      reaches the matching END. */
  lemma SimIfThenBegin(p: Program, s: State, c: Mil, g: Region, depth: nat)
    requires Sim(p, s, c) && Ready(p, c, depth, g) && p[c.pc].IfThen? && OpensBlock(p, c.pc)
    ensures ConfinedRun(s, MicroSteps(p, c), g) && Sim(p, Run(s, MicroSteps(p, c)), Execute(p, c))
  {
    hide *;
    Unpacked(p, s, c, g, depth);
    MeansIfThen(p, c, depth, g);
    MeansBegin(p, c.pc);
    WordOf(p, c.pc, 0);
    WordOf(p, c.pc + 1, 0);
    var cond, a, end := p[c.pc].cond, AddrOf(p, c.pc), AfterThen(p, c.pc);
    IfSkips(cond, c);
    if Holds(cond, c) {
      SkipStep(p, s, c, g, a, Invert(IfOp(cond)), true, c.(pc := c.pc + 2));
      RunOne(s, g);
      ArrivedAt(p, Step(s), c.(pc := c.pc + 2));
    } else {
      SkipStep(p, s, c, g, a, Invert(IfOp(cond)), false, c);
      BranchStep(p, Step(s), c, g, a + 1, end);
      RunTwo(s, g);
    }
  }

  // ----- literals and STORE F -----

  /** A register word that sets one named register. */
  lemma SetStep(p: Program, s: State, c: Mil, g: Region, a: nat, op: Op, r: Regs, c': Mil)
    requires Carries(p, s, c) && Same(r, c) && !r.lat.pending && r.mar == 16 * a + 16
    requires r.stack == s.r.stack && r.sp == s.r.sp && r.depth == s.r.depth
    requires Step(s) == s.(r := ExecRegs(op, r), cycles := Step(s).cycles)
    requires var r' := ExecRegs(op, r); Same(r', c') && SameControl(r, r')
    requires c'.pc == c.pc && c'.rets == c.rets && c'.m == c.m && c'.out == c.out
    ensures Carries(p, Step(s), c') && Step(s).r.mar == 16 * a + 16
  {
    hide Loaded, ExecRegs, Step, Same;
    StillCarries(p, s, c, Step(s), c');
  }

  /** The register of the literal's group that 8C and 9C write. */
  function LiteralReg(dst: Name): Name {
    if ViaT(dst) then T else dst
  }

  lemma Lit8Step(p: Program, s: State, c: Mil, g: Region, a: nat, v: Word, dst: Name)
    requires Carries(p, s, c) && !c.halted && Guards(g, p) && IsRegister(dst) && v <= 0xFF
    requires a < |Code(p)| && s.r.mar == 16 * a && Code(p)[a] == Encode(Lit8(RegAddr(dst).0, v))
    ensures Confined(s, g) && Carries(p, Step(s), Set(c, LiteralReg(dst), v)) && Step(s).r.mar == 16 * a + 16
  {
    hide *;
    var n := LiteralReg(dst);
    var op := Lit8(RegAddr(n).0, v);
    var c' := Set(c, n, v);
    Lit8Fits(dst, v);
    SetOnly(c, n, v);
    var r := RegisterStep(p, s, c, g, a, op);
    ExecutesLit8(r, c, v, n);
    SetStep(p, s, c, g, a, op, r, c');
  }

  lemma Lit8Fits(dst: Name, v: Word)
    requires IsRegister(dst) && v <= 0xFF
    ensures var n := LiteralReg(dst); var op := Lit8(RegAddr(n).0, v);
      && RegAddr(dst).0 == RegAddr(n).0 && (n == T || n == FA || n == FB)
      && Packable(op) && Private(op) && OnRegisters(op)
  {
  }

  lemma SetOnly(c: Mil, n: Name, v: Word)
    ensures var c' := Set(c, n, v); c'.pc == c.pc && c'.rets == c.rets && c'.m == c.m && c'.out == c.out
  {
  }

  lemma MoveStep(p: Program, s: State, c: Mil, g: Region, a: nat, src: Name, dst: Name)
    requires Carries(p, s, c) && !c.halted && Guards(g, p) && IsRegister(dst)
    requires a < |Code(p)| && s.r.mar == 16 * a && Code(p)[a] == Encode(MoveOp(src, dst))
    ensures Confined(s, g) && Carries(p, Step(s), Set(c, dst, Get(c, src))) && Step(s).r.mar == 16 * a + 16
  {
    hide *;
    var op := MoveOp(src, dst);
    var c' := Set(c, dst, Get(c, src));
    MoveOpFits(src, dst);
    SetOnly(c, dst, Get(c, src));
    var r := RegisterStep(p, s, c, g, a, op);
    ExecutesMove(r, c, src, dst);
    SetStep(p, s, c, g, a, op, r, c');
  }

  /** The two-word literal: the second word is the operator's own operand. */
  lemma Lit24Step(p: Program, s: State, c: Mil, g: Region, a: nat, v: Word, dst: Name)
    requires Carries(p, s, c) && !c.halted && Guards(g, p) && IsRegister(dst)
    requires a + 1 < |Code(p)| && s.r.mar == 16 * a
    requires Code(p)[a] == Encode(Lit24(RegAddr(dst).0, v / 0x1_0000)) && Code(p)[a + 1] == v % 0x1_0000
    ensures Confined(s, g) && Carries(p, Step(s), Set(c, LiteralReg(dst), v)) && Step(s).r.mar == 16 * a + 32
  {
    hide *;
    var n := LiteralReg(dst);
    var op := Lit24(RegAddr(n).0, v / 0x1_0000);
    var c' := Set(c, n, v);
    Lit24Fits(dst, v);
    SetOnly(c, n, v);
    CarriesFacts(p, s, c, g);
    assert OpConfined(op, s, g) by {
      NextAddr(a, |Code(p)|);
      NextAddr(a + 1, |Code(p)|);
      ConfinedLiteral(s, g, op, a, 16 * |Code(p)|);
    }
    ShowAtOp(p, s, a, op);
    var f := Executes(p, s, a, op);
    LoadedAt(p, s.m, a + 1);
    SameAfterFetch(s, f, c);
    Lit24Result(f, c, v, n, a);
    Lit24Carries(p, s, c, f, a, op, c');
  }

  lemma Lit24Fits(dst: Name, v: Word)
    requires IsRegister(dst)
    ensures var n := LiteralReg(dst); var op := Lit24(RegAddr(n).0, v / 0x1_0000);
      && RegAddr(dst).0 == RegAddr(n).0 && (n == T || n == FA || n == FB) && Packable(op) && Private(op)
  {
  }

  lemma CarriesFacts(p: Program, s: State, c: Mil, g: Region)
    requires Carries(p, s, c) && !c.halted && Guards(g, p)
    ensures Fits(p) && Quiet(s) && !s.r.halted && Loaded(p, s.m) && |Code(p)| < 0x1000 && Same(s.r, c)
    ensures 16 * |Code(p)| <= g.code && s.m == c.m && s.out == c.out
  {
    hide Loaded, Quiet, Code;
  }

  lemma SameAfterFetch(s: State, f: State, c: Mil)
    requires Same(s.r, c) && f == s.(r := s.r.(m := f.r.m, mar := f.r.mar, lat := f.r.lat))
    ensures Same(f.r, c)
  {
  }

  lemma ShowAtOp(p: Program, s: State, a: nat, op: Op)
    requires Fits(p) && Quiet(s) && !s.r.halted && Loaded(p, s.m)
    requires a < |Code(p)| && s.r.mar == 16 * a && Packable(op) && Code(p)[a] == Encode(op)
    ensures AtOp(p, s, a, op)
  {
    hide Loaded, Packable, Encode, Code;
  }

  lemma ConfinedLiteral(s: State, g: Region, op: Op, a: nat, code: nat)
    requires op.Lit24? && Private(op) && s.r.mar == 16 * a && Forward(16 * a, 1) == 16 * a + 16
    requires FetchWithin(16 * (a + 1), code) && code <= g.code
    ensures OpConfined(op, s, g)
  {
    hide Private, Forward;
    assert 16 * (a + 1) == 16 * a + 16;
  }

  lemma Lit24Result(f: State, c: Mil, v: Word, n: Name, a: nat)
    requires Same(f.r, c) && (n == T || n == FA || n == FB) && f.r.mar == 16 * a + 16 && a + 1 < 0x1000
    requires FetchMicro(f.m, f.r.mar) == v % 0x1_0000
    ensures var e := Exec(Lit24(RegAddr(n).0, v / 0x1_0000), f);
      && e == f.(r := e.r) && Same(e.r, Set(c, n, v)) && e.r.mar == 16 * a + 32
      && e.r.stack == f.r.stack && e.r.sp == f.r.sp && e.r.depth == f.r.depth && e.r.lat == f.r.lat
  {
    SmallMod(16 * a + 32);
    var r := f.r.(mar := Forward(f.r.mar, 1));
    WritesName(r, c, n, v);
    hide WriteReg, Set, FetchMicro;
  }

  lemma Lit24Carries(p: Program, s: State, c: Mil, f: State, a: nat, op: Op, c': Mil)
    requires Carries(p, s, c) && f == s.(r := s.r.(m := f.r.m, mar := f.r.mar, lat := f.r.lat)) && !f.r.lat.pending
    requires Step(s) == Exec(op, f).(cycles := Step(s).cycles)
    requires var e := Exec(op, f);
      && e == f.(r := e.r) && Same(e.r, c') && e.r.mar == 16 * a + 32
      && e.r.stack == f.r.stack && e.r.sp == f.r.sp && e.r.depth == f.r.depth && e.r.lat == f.r.lat
    requires c'.pc == c.pc && c'.rets == c.rets && c'.m == c.m && c'.out == c.out
    ensures Carries(p, Step(s), c') && Step(s).r.mar == 16 * a + 32
  {
    hide Exec, Step, Loaded, Same;
    StillCarries(p, s, c, Step(s), c');
  }

  lemma MeansLit(p: Program, c: Mil, depth: nat, g: Region)
    requires Ready(p, c, depth, g) && p[c.pc].Lit?
    ensures var v, dst := p[c.pc].v, p[c.pc].dst; var n := LiteralReg(dst);
      && IsRegister(dst)
      && Execute(p, c) == Next(if ViaT(dst) then Set(Set(c, n, v), dst, v) else Set(c, n, v))
      && MicroSteps(p, c) == (if ViaT(dst) then 2 else 1)
      && LineWords(p, c.pc) == LitWords(v, dst) && Size(p[c.pc]) == |LitWords(v, dst)|
  {
    hide LitWords, Guards;
    var v, dst := p[c.pc].v, p[c.pc].dst;
    assert IsRegister(dst) && !c.halted;
    hide Ready, LineOk, LineWithin;
    assert Execute(p, c) == Next(Set(if ViaT(dst) then c.(t := v) else c, dst, v));
    hide Execute;
    assert LineWords(p, c.pc) == LitWords(v, dst);
    hide LineWords;
    assert ViaT(dst) ==> Set(c, T, v) == c.(t := v);
  }

  lemma LitShape(v: Word, dst: Name)
    requires IsRegister(dst)
    ensures var w, g := LitWords(v, dst), RegAddr(dst).0; var k := if v <= 0xFF then 1 else 2;
      && |w| == (if ViaT(dst) then k + 1 else k)
      && (v <= 0xFF ==> w[0] == Encode(Lit8(g, v)))
      && (v > 0xFF ==> w[0] == Encode(Lit24(g, v / 0x1_0000)) && w[1] == v % 0x1_0000)
      && (ViaT(dst) ==> w[k] == Encode(MoveOp(T, dst)))
  {
    hide Encode, MoveOp;
  }

  /** The literal's first operator, whichever its length. */
  lemma LitFirstStep(p: Program, s: State, c: Mil, g: Region, v: Word, dst: Name)
    requires c.pc < |p| && Sim(p, s, c) && !c.halted && Guards(g, p) && IsRegister(dst)
    requires LineWords(p, c.pc) == LitWords(v, dst) && Size(p[c.pc]) == |LitWords(v, dst)|
    ensures Confined(s, g) && Carries(p, Step(s), Set(c, LiteralReg(dst), v))
    ensures Step(s).r.mar == 16 * (AddrOf(p, c.pc) + (if v <= 0xFF then 1 else 2))
  {
    hide *;
    AtLine(p, s, c);
    LitShape(v, dst);
    var a := AddrOf(p, c.pc);
    WordOf(p, c.pc, 0);
    if v <= 0xFF {
      Lit8Step(p, s, c, g, a, v, dst);
    } else {
      WordOf(p, c.pc, 1);
      Lit24Step(p, s, c, g, a, v, dst);
    }
  }

  lemma SimLit(p: Program, s: State, c: Mil, g: Region, depth: nat)
    requires Sim(p, s, c) && Ready(p, c, depth, g) && p[c.pc].Lit?
    ensures ConfinedRun(s, MicroSteps(p, c), g) && Sim(p, Run(s, MicroSteps(p, c)), Execute(p, c))
  {
    hide *;
    Unpacked(p, s, c, g, depth);
    MeansLit(p, c, depth, g);
    var v, dst := p[c.pc].v, p[c.pc].dst;
    var k := if v <= 0xFF then 1 else 2;
    LitFirstStep(p, s, c, g, v, dst);
    LitShape(v, dst);
    WordOf(p, c.pc, 0);
    var c1 := Set(c, LiteralReg(dst), v);
    if ViaT(dst) {
      WordOf(p, c.pc, k);
      SetKeeps(c, dst, v);
      MoveStep(p, Step(s), c1, g, AddrOf(p, c.pc) + k, T, dst);
      NextCarries(p, Step(Step(s)), Set(c1, dst, v));
      RunTwo(s, g);
    } else {
      SetKeeps(c, dst, v);
      NextCarries(p, Step(s), c1);
      RunOne(s, g);
    }
  }

  lemma SetKeeps(c: Mil, dst: Name, v: Word)
    requires IsRegister(dst)
    ensures var c1 := Set(c, LiteralReg(dst), v);
      c1.halted == c.halted && c1.pc == c.pc && (ViaT(dst) ==> Get(c1, T) == v && Set(c1, dst, v).pc == c.pc)
  {
  }

  lemma NextCarries(p: Program, s: State, c: Mil)
    requires Carries(p, s, c) && c.pc < |p| && s.r.mar == LineAddr(p, c.pc + 1)
    ensures Sim(p, s, Next(c))
  {
    hide Loaded;
  }

  lemma PadFits(k: nat, right: bool, src: Name)
    requires k < 16
    ensures var op := PadMove(k, right, false, RegAddr(src).1, RegAddr(src).0);
      Packable(op) && Private(op) && OnRegisters(op)
  {
  }

  lemma PadStep(p: Program, s: State, c: Mil, g: Region, a: nat, k: nat, right: bool, src: Name)
    requires Carries(p, s, c) && !c.halted && Guards(g, p) && k < 16
    requires a < |Code(p)| && s.r.mar == 16 * a
    requires Code(p)[a] == Encode(PadMove(k, right, false, RegAddr(src).1, RegAddr(src).0))
    ensures var pad := if right then c.pads[k].(right := Get(c, src)) else c.pads[k].(left := Get(c, src));
      Confined(s, g) && Carries(p, Step(s), c.(pads := c.pads[k := pad])) && Step(s).r.mar == 16 * a + 16
  {
    var op := PadMove(k, right, false, RegAddr(src).1, RegAddr(src).0);
    var pad := if right then c.pads[k].(right := Get(c, src)) else c.pads[k].(left := Get(c, src));
    hide *;
    PadFits(k, right, src);
    var r := RegisterStep(p, s, c, g, a, op);
    ExecutesStorePad(r, c, src, k, right);
    SetStep(p, s, c, g, a, op, r, c.(pads := c.pads[k := pad]));
  }

  lemma MeansStoreF(p: Program, c: Mil, depth: nat, g: Region)
    requires Ready(p, c, depth, g) && p[c.pc].StoreF?
    ensures var k := p[c.pc].pad;
      && k < 16 && MicroSteps(p, c) == 2 && Size(p[c.pc]) == 2
      && Execute(p, c) == Next(c.(pads := c.pads[k := Pad(c.fa, c.fb)]))
      && LineWords(p, c.pc) == [Encode(PadMove(k, false, false, 2, 8)), Encode(PadMove(k, true, false, 2, 9))]
  {
    hide Encode, Guards;
    assert p[c.pc].pad < 16 && !c.halted;
    hide Ready, LineOk, LineWithin;
  }

  lemma FieldRegs(c: Mil)
    ensures RegAddr(FA) == (8, 2) && RegAddr(FB) == (9, 2) && Get(c, FA) == c.fa && Get(c, FB) == c.fb
  {
  }

  lemma SimStoreF(p: Program, s: State, c: Mil, g: Region, depth: nat)
    requires Sim(p, s, c) && Ready(p, c, depth, g) && p[c.pc].StoreF?
    ensures ConfinedRun(s, MicroSteps(p, c), g) && Sim(p, Run(s, MicroSteps(p, c)), Execute(p, c))
  {
    hide *;
    Unpacked(p, s, c, g, depth);
    MeansStoreF(p, c, depth, g);
    var k := p[c.pc].pad;
    WordOf(p, c.pc, 0);
    WordOf(p, c.pc, 1);
    var c1 := c.(pads := c.pads[k := c.pads[k].(left := c.fa)]);
    FieldRegs(c);
    FieldRegs(c1);
    PadStep(p, s, c, g, AddrOf(p, c.pc), k, false, FA);
    PadStep(p, Step(s), c1, g, AddrOf(p, c.pc) + 1, k, true, FB);
    assert c1.pads[k := c1.pads[k].(right := c.fb)] == c.pads[k := Pad(c.fa, c.fb)];
    NextCarries(p, Step(Step(s)), c.(pads := c.pads[k := Pad(c.fa, c.fb)]));
    RunTwo(s, g);
  }

  // ----- every line -----

  /** Lines without words. */
  lemma SimNoWords(p: Program, s: State, c: Mil, g: Region, depth: nat)
    requires Sim(p, s, c) && Ready(p, c, depth, g) && (p[c.pc].Label? || p[c.pc].End?)
    ensures ConfinedRun(s, MicroSteps(p, c), g) && Sim(p, Run(s, MicroSteps(p, c)), Execute(p, c))
  {
    assert Execute(p, c) == Next(c) && MicroSteps(p, c) == 0 && Size(p[c.pc]) == 0;
    hide *;
    Unpacked(p, s, c, g, depth);
    assert LineAddr(p, c.pc + 1) == LineAddr(p, c.pc) by {
      CodeAt(p, c.pc);
    }
    NextCarries(p, s, c);
    NoSteps(s, g);
  }

  /** The assembler keeps the meaning of every line: from the words of the line at c.pc the machine reaches,
      in MicroSteps steps that keep to the region, the line and values that the source line leads to. */
  lemma SimLine(p: Program, s: State, c: Mil, g: Region, depth: nat)
    requires Sim(p, s, c) && Ready(p, c, depth, g) && depth <= s.r.depth
    ensures ConfinedRun(s, MicroSteps(p, c), g) && Sim(p, Run(s, MicroSteps(p, c)), Execute(p, c))
  {
    assert c.pc < |p|;
    var line := p[c.pc];
    assert !line.Begin?;
    assert OneStep(line) ==> MicroSteps(p, c) == 1;
    hide *;
    match line
    case Label(_) => SimNoWords(p, s, c, g, depth);
    case End => SimNoWords(p, s, c, g, depth);
    case Lit(_, _) => SimLit(p, s, c, g, depth);
    case StoreF(_) => SimStoreF(p, s, c, g, depth);
    case IfGoTo(_, _) => SimIfGoTo(p, s, c, g, depth);
    case IfThen(_) => SimIfThen(p, s, c, g, depth);
    case _ => SimOneStep(p, s, c, g, depth);
  }

  predicate OneStep(l: Line) {
    !l.Label? && !l.End? && !l.Lit? && !l.StoreF? && !l.IfGoTo? && !l.IfThen? && !l.Begin?
  }

  lemma SimIfThen(p: Program, s: State, c: Mil, g: Region, depth: nat)
    requires Sim(p, s, c) && Ready(p, c, depth, g) && p[c.pc].IfThen?
    ensures ConfinedRun(s, MicroSteps(p, c), g) && Sim(p, Run(s, MicroSteps(p, c)), Execute(p, c))
  {
    hide *;
    if OpensBlock(p, c.pc) {
      SimIfThenBegin(p, s, c, g, depth);
    } else {
      SimIfThenWord(p, s, c, g, depth);
    }
  }

  lemma SimOneStep(p: Program, s: State, c: Mil, g: Region, depth: nat)
    requires Sim(p, s, c) && Ready(p, c, depth, g) && depth <= s.r.depth && OneStep(p[c.pc])
    ensures ConfinedRun(s, MicroSteps(p, c), g) && Sim(p, Run(s, MicroSteps(p, c)), Execute(p, c))
  {
    var line := p[c.pc];
    assert MicroSteps(p, c) == 1;
    assert !line.Label? && !line.End? && !line.Lit? && !line.StoreF? && !line.IfGoTo? && !line.IfThen? && !line.Begin?;
    hide *;
    match line {
      case Move(_, _) => SimMove(p, s, c, g, depth);
      case LoadPad(_, _, _) => SimLoadPad(p, s, c, g, depth);
      case StorePad(_, _, _) => SimStorePad(p, s, c, g, depth);
      case ReadBits(_, _, _, _) => SimRead(p, s, c, g, depth);
      case WriteBits(_, _, _) => SimWrite(p, s, c, g, depth);
      case CountBy(_, _) => SimCount(p, s, c, g, depth);
      case Xch(_, _) => SimXch(p, s, c, g, depth);
      case MonitorX => SimMonitor(p, s, c, g, depth);
      case HaltLine => SimHaltOrNop(p, s, c, g, depth);
      case NopLine => SimHaltOrNop(p, s, c, g, depth);
      case GoTo(_) => SimGoTo(p, s, c, g, depth);
      case CallTo(_) => SimCall(p, s, c, g, depth);
      case Exit => SimExit(p, s, c, g, depth);
      case SkipWhen(_) => SimSkipWhen(p, s, c, g, depth);
    }
    RunOne(s, g);
  }
}
