/** Every kind of line, executed on the machine from its first word. */
module SimulationSteps {
  import opened Bits
  import opened BitMemory
  import opened IoBus
  import opened Isa
  import opened Registers
  import opened Machine
  import opened Mil
  import opened AStack
  import opened Footprint
  import opened Lowering
  import opened Simulation

  /** r' continues from r at the same address with the same A-stack. */
  predicate Kept(r: Regs, r': Regs) {
    r'.mar == r.mar && r'.stack == r.stack && r'.sp == r.sp && r'.depth == r.depth && r'.lat.pending == r.lat.pending
  }

  /** f is s with the program counter already on the next word and no other visible change. */
  predicate Advanced(s: State, f: State) {
    && f.m == s.m && f.out == s.out && f.bus == s.bus
    && f.r.stack == s.r.stack && f.r.sp == s.r.sp && f.r.depth == s.r.depth && !f.r.lat.pending
  }

  /** The machine takes the line's one word. */
  lemma Starts(p: Program, s: State, c: Mil, g: Region, op: Op) returns (f: State)
    requires Sim(p, s, c) && !c.halted && Guards(g, p) && c.pc < |p|
    requires LineWords(p, c.pc) == [Encode(op)] && Packable(op)
    ensures Advanced(s, f) && Same(f.r, c) && f.r.mar == LineAddr(p, c.pc + 1)
    ensures Step(s) == Exec(op, f).(cycles := Step(s).cycles)
    ensures OpConfined(op, s, g) ==> Confined(s, g)
  {
    hide LineWords, Code, Encode, Packable, Exec, Step, OpConfined, Confined, FetchMicro, LineAddr, AddrOf, RingHolds;
    var a := AddrOf(p, c.pc);
    WordAt(p, s.m, c.pc, 0);
    LoadedAt(p, s.m, a);
    f := Executes(p, s, a, op);
  }

  /** The machine arrives at the next line. */
  lemma Ends(p: Program, s: State, c: Mil, f: State, s': State, c': Mil)
    requires Sim(p, s, c) && Advanced(s, f) && Kept(f.r, s'.r) && s'.bus == f.bus
    requires c'.pc <= |p| && s'.r.mar == LineAddr(p, c'.pc) && c'.rets == c.rets
    requires Same(s'.r, c') && s'.m == c'.m && s'.out == c'.out && Loaded(p, s'.m)
    ensures Sim(p, s', c')
  {
    hide Loaded, LineAddr, Same;
  }

  // ----- one-word register lines -----

  /** Operators whose whole effect is on the register file, in at most eight clocks. */
  predicate OnRegisters(op: Op) {
    !op.Field? && !op.Lit24? && !op.Monitor? && !op.Dispatch? && !op.Normalize?
  }

  lemma RegisterLine(p: Program, s: State, c: Mil, g: Region, op: Op, f: State, c': Mil)
    requires c.pc < |p| && Sim(p, s, c) && Advanced(s, f) && f.r.mar == LineAddr(p, c.pc + 1)
    requires OnRegisters(op) && Step(s) == Exec(op, f).(cycles := Step(s).cycles)
    requires var r' := ExecRegs(op, f.r); Kept(f.r, r') && Same(r', c')
    requires c'.pc == c.pc + 1 && c'.rets == c.rets && c'.m == c.m && c'.out == c.out
    ensures Sim(p, Step(s), c')
  {
    assert Exec(op, f) == f.(r := ExecRegs(op, f.r)) by {
      hide ExecRegs;
    }
    hide Exec, ExecRegs, LineAddr, Same, Loaded, Step;
    Ends(p, s, c, f, Step(s), c');
  }

  lemma MeansMove(p: Program, c: Mil, g: Region, depth: nat)
    requires Ready(p, c, depth, g) && p[c.pc].Move?
    ensures c.pc < |p| && IsRegister(p[c.pc].dst) && LineWords(p, c.pc) == [Encode(MoveOp(p[c.pc].src, p[c.pc].dst))]
    ensures Execute(p, c) == Next(Set(c, p[c.pc].dst, Get(c, p[c.pc].src)))
  {
    hide Encode, MoveOp, Set, Get, LineWithin, Guards, Next;
  }

  lemma MoveOpFits(src: Name, dst: Name)
    ensures var op := MoveOp(src, dst); Packable(op) && Private(op) && OnRegisters(op)
  {
  }

  lemma SimMove(p: Program, s: State, c: Mil, g: Region, depth: nat)
    requires Sim(p, s, c) && Ready(p, c, depth, g) && p[c.pc].Move?
    ensures Confined(s, g) && Sim(p, Step(s), Execute(p, c))
  {
    hide *;
    MeansMove(p, c, g, depth);
    var src, dst := p[c.pc].src, p[c.pc].dst;
    var op := MoveOp(src, dst);
    MoveOpFits(src, dst);
    ReadyMeans(p, s, c, g, depth);
    var f := Starts(p, s, c, g, op);
    ExecutesMove(f.r, c, src, dst);
    FinishesSet(p, s, c, g, op, f, dst, Get(c, src));
  }

  lemma ReadyMeans(p: Program, s: State, c: Mil, g: Region, depth: nat)
    requires Sim(p, s, c) && Ready(p, c, depth, g)
    ensures c.pc < |p| && !c.halted && Guards(g, p)
    ensures s.out == c.out && s.m == c.m && s.r.fa == c.fa && Loaded(p, s.m)
  {
    hide Guards, LineWithin, Loaded, LineAddr, AStack.RingHolds, Quiet;
  }

  /** A register line whose meaning is to set one named register. */
  lemma FinishesSet(p: Program, s: State, c: Mil, g: Region, op: Op, f: State, dst: Name, v: Word)
    requires c.pc < |p| && Sim(p, s, c) && Advanced(s, f) && f.r.mar == LineAddr(p, c.pc + 1)
    requires OnRegisters(op) && Private(op) && Step(s) == Exec(op, f).(cycles := Step(s).cycles)
    requires OpConfined(op, s, g) ==> Confined(s, g)
    requires var r' := ExecRegs(op, f.r); Same(r', Set(c, dst, v)) && SameControl(f.r, r')
    ensures Confined(s, g) && Sim(p, Step(s), Next(Set(c, dst, v)))
  {
    assert OpConfined(op, s, g) by {
      hide Private, Sim, Exec, Step, ExecRegs, Same, Set;
    }
    hide ExecRegs, Exec, Step, LineAddr, Sim, Confined, OpConfined, Private;
    RegisterLine(p, s, c, g, op, f, Next(Set(c, dst, v)));
  }

  lemma SimLoadPad(p: Program, s: State, c: Mil, g: Region, depth: nat)
    requires Sim(p, s, c) && Ready(p, c, depth, g) && p[c.pc].LoadPad?
    ensures Confined(s, g) && Sim(p, Step(s), Execute(p, c))
  {
    var LoadPad(k, right, dst) := p[c.pc];
    var op := PadMove(k, right, true, RegAddr(dst).1, RegAddr(dst).0);
    var v := if right then c.pads[k].right else c.pads[k].left;
    assert Packable(op) && Private(op) && OnRegisters(op);
    assert LineWords(p, c.pc) == [Encode(op)];
    assert Execute(p, c) == Next(Set(c, dst, v));
    assert IsRegister(dst);
    hide *;
    var f := Starts(p, s, c, g, op);
    ExecutesLoadPad(f.r, c, k, right, dst);
    FinishesSet(p, s, c, g, op, f, dst, v);
  }

  /** A register line whose meaning changes neither program counter, returns, memory nor output. */
  lemma FinishesRegs(p: Program, s: State, c: Mil, g: Region, op: Op, f: State, c': Mil)
    requires c.pc < |p| && Sim(p, s, c) && Advanced(s, f) && f.r.mar == LineAddr(p, c.pc + 1)
    requires OnRegisters(op) && Private(op) && Step(s) == Exec(op, f).(cycles := Step(s).cycles)
    requires OpConfined(op, s, g) ==> Confined(s, g)
    requires var r' := ExecRegs(op, f.r); Same(r', c') && SameControl(f.r, r')
    requires c'.pc == c.pc && c'.rets == c.rets && c'.m == c.m && c'.out == c.out
    ensures Confined(s, g) && Sim(p, Step(s), Next(c'))
  {
    assert OpConfined(op, s, g) by {
      hide Private, Sim, Exec, Step, ExecRegs, Same;
    }
    hide ExecRegs, Exec, Step, LineAddr, Sim, Confined, OpConfined, Private;
    RegisterLine(p, s, c, g, op, f, Next(c'));
  }

  lemma SimStorePad(p: Program, s: State, c: Mil, g: Region, depth: nat)
    requires Sim(p, s, c) && Ready(p, c, depth, g) && p[c.pc].StorePad?
    ensures Confined(s, g) && Sim(p, Step(s), Execute(p, c))
  {
    var StorePad(src, k, right) := p[c.pc];
    var op := PadMove(k, right, false, RegAddr(src).1, RegAddr(src).0);
    var pad := if right then c.pads[k].(right := Get(c, src)) else c.pads[k].(left := Get(c, src));
    var c' := c.(pads := c.pads[k := pad]);
    assert Packable(op) && Private(op) && OnRegisters(op);
    assert LineWords(p, c.pc) == [Encode(op)];
    assert Execute(p, c) == Next(c');
    hide *;
    var f := Starts(p, s, c, g, op);
    ExecutesStorePad(f.r, c, src, k, right);
    FinishesRegs(p, s, c, g, op, f, c');
  }

  lemma ExecutesCount(r: Regs, c: Mil, w: Counts, n: nat)
    requires Same(r, c) && n > 0 && Countable(w)
    ensures var r' := ExecRegs(Isa.Count(CountCode(w), n), r); Same(r', Counted(c, w, n)) && SameControl(r, r')
  {
    CountsMean(w, r.fa, r.fb, n);
    hide CountFa, CountFb, CountCode, FaCounted, FbCounted;
  }

  lemma MeansCount(p: Program, c: Mil, g: Region, depth: nat)
    requires Ready(p, c, depth, g) && p[c.pc].CountBy?
    ensures var CountBy(w, n) := p[c.pc]; var op := Isa.Count(CountCode(w), n);
      && c.pc < |p| && n > 0 && Countable(w) && Packable(op) && Private(op) && OnRegisters(op)
      && LineWords(p, c.pc) == [Encode(op)] && Execute(p, c) == Next(Counted(c, w, n))
  {
    hide Encode, Counted, Guards;
  }

  lemma CountMoves(c: Mil, w: Counts, n: nat)
    ensures var c' := Counted(c, w, n); c'.pc == c.pc && c'.rets == c.rets && c'.m == c.m && c'.out == c.out
  {
    hide FaCounted, FbCounted;
  }

  lemma SimCount(p: Program, s: State, c: Mil, g: Region, depth: nat)
    requires Sim(p, s, c) && Ready(p, c, depth, g) && p[c.pc].CountBy?
    ensures Confined(s, g) && Sim(p, Step(s), Execute(p, c))
  {
    hide *;
    MeansCount(p, c, g, depth);
    var CountBy(w, n) := p[c.pc];
    var op := Isa.Count(CountCode(w), n);
    CountMoves(c, w, n);
    ReadyMeans(p, s, c, g, depth);
    var f := Starts(p, s, c, g, op);
    ExecutesCount(f.r, c, w, n);
    FinishesRegs(p, s, c, g, op, f, Counted(c, w, n));
  }

  lemma ExecutesXch(r: Regs, c: Mil, a: nat, b: nat)
    requires Same(r, c) && a < 16 && b < 16
    ensures var r' := ExecRegs(Exchange(a, b), r);
      Same(r', c.(fa := c.pads[a].left, fb := c.pads[a].right, pads := c.pads[b := Pad(c.fa, c.fb)]))
      && SameControl(r, r')
  {
  }

  lemma SimXch(p: Program, s: State, c: Mil, g: Region, depth: nat)
    requires Sim(p, s, c) && Ready(p, c, depth, g) && p[c.pc].Xch?
    ensures Confined(s, g) && Sim(p, Step(s), Execute(p, c))
  {
    var Xch(a, b) := p[c.pc];
    var op := Exchange(a, b);
    var c' := c.(fa := c.pads[a].left, fb := c.pads[a].right, pads := c.pads[b := Pad(c.fa, c.fb)]);
    assert Packable(op) && Private(op) && OnRegisters(op);
    assert LineWords(p, c.pc) == [Encode(op)];
    assert Execute(p, c) == Next(c');
    hide *;
    var f := Starts(p, s, c, g, op);
    ExecutesXch(f.r, c, a, b);
    FinishesRegs(p, s, c, g, op, f, c');
  }

  lemma MeansHaltOrNop(p: Program, c: Mil, g: Region, depth: nat)
    requires Ready(p, c, depth, g) && (p[c.pc].HaltLine? || p[c.pc].NopLine?)
    ensures c.pc < |p| && !c.halted
    ensures LineWords(p, c.pc) == [Encode(if p[c.pc].HaltLine? then Halt else Nop)]
    ensures Execute(p, c) == Next(c.(halted := p[c.pc].HaltLine?))
  {
    hide Encode, LineWithin, Guards;
  }

  lemma HaltFits()
    ensures Packable(Halt) && Private(Halt) && OnRegisters(Halt) && Packable(Nop) && Private(Nop) && OnRegisters(Nop)
  {
  }

  lemma SimHaltOrNop(p: Program, s: State, c: Mil, g: Region, depth: nat)
    requires Sim(p, s, c) && Ready(p, c, depth, g) && (p[c.pc].HaltLine? || p[c.pc].NopLine?)
    ensures Confined(s, g) && Sim(p, Step(s), Execute(p, c))
  {
    hide *;
    MeansHaltOrNop(p, c, g, depth);
    HaltFits();
    ReadyMeans(p, s, c, g, depth);
    var op := if p[c.pc].HaltLine? then Halt else Nop;
    var c' := c.(halted := p[c.pc].HaltLine?);
    var f := Starts(p, s, c, g, op);
    ExecutesHalt(f.r, c, op);
    FinishesRegs(p, s, c, g, op, f, c');
  }

  lemma ExecutesHalt(r: Regs, c: Mil, op: Op)
    requires Same(r, c) && (op.Halt? || op.Nop?) && !c.halted
    ensures var r' := ExecRegs(op, r); Same(r', c.(halted := op.Halt?)) && SameControl(r, r')
  {
  }

  // ----- memory and output -----

  /** A line whose operator takes the advanced state f to e. */
  lemma FinishesExec(p: Program, s: State, c: Mil, g: Region, op: Op, f: State, e: State, c': Mil)
    requires c.pc < |p| && Sim(p, s, c) && Advanced(s, f) && f.r.mar == LineAddr(p, c.pc + 1)
    requires OpConfined(op, s, g) && (OpConfined(op, s, g) ==> Confined(s, g))
    requires Step(s) == e.(cycles := Step(s).cycles)
    requires Kept(f.r, e.r) && e.bus == f.bus && Same(e.r, c') && e.m == c'.m && e.out == c'.out && Loaded(p, e.m)
    requires c'.pc == c.pc + 1 && c'.rets == c.rets
    ensures Confined(s, g) && Sim(p, Step(s), c')
  {
    hide Step, LineAddr, Loaded, Confined, OpConfined;
    Ends(p, s, c, f, Step(s), c');
  }

  lemma ExecutesMonitor(f: State, c: Mil)
    requires Same(f.r, c) && f.out == c.out
    ensures var s' := Exec(Monitor, f);
      s'.r == f.r && s'.m == f.m && s'.out == c.out + [c.x] && s'.bus == f.bus
  {
  }

  lemma SimMonitor(p: Program, s: State, c: Mil, g: Region, depth: nat)
    requires Sim(p, s, c) && Ready(p, c, depth, g) && p[c.pc].MonitorX?
    ensures Confined(s, g) && Sim(p, Step(s), Execute(p, c))
  {
    assert s.out == c.out && s.m == c.m && Loaded(p, s.m);
    assert Guards(g, p) && !c.halted && c.pc < |p|;
    hide Sim, Ready, LineOk;
    var c' := Next(c.(out := c.out + [c.x]));
    assert Packable(Monitor) && LineWords(p, c.pc) == [Encode(Monitor)];
    assert Execute(p, c) == c';
    assert OpConfined(Monitor, s, g);
    hide *;
    var f := Starts(p, s, c, g, Monitor);
    var e := Exec(Monitor, f);
    KeptAfter(s, c, f, c');
    ExecutesMonitor(f, c);
    FinishesExec(p, s, c, g, Monitor, f, e, c');
  }

  lemma KeptAfter(s: State, c: Mil, f: State, c': Mil)
    requires Advanced(s, f) && Same(f.r, c) && c' == Next(c.(out := c.out + [c.x]))
    ensures Kept(f.r, f.r) && Same(f.r, c') && f.out == s.out && f.m == s.m
  {
  }

  lemma ExecutesRead(f: State, c: Mil, n: nat, rev: bool, dst: Name, w: Counts)
    requires Same(f.r, c) && f.m == c.m && 1 <= n <= 24 && IsData(dst) && Countable(w)
    ensures var e := Exec(Field(false, DataId(dst), rev, n, CountCode(w)), f);
      && Same(e.r, Next(Counted(Set(c, dst, FieldValue(c.m, c.fa, n, rev)), w, n))) && Kept(f.r, e.r)
      && e.m == f.m && e.out == f.out && e.bus == f.bus
  {
    CountsMean(w, f.r.fa, f.r.fb, n);
    hide CountFa, CountFb, CountCode, FaCounted, FbCounted;
  }

  lemma MeansRead(p: Program, c: Mil, g: Region, depth: nat)
    requires Ready(p, c, depth, g) && p[c.pc].ReadBits?
    ensures var ReadBits(n, rev, dst, w) := p[c.pc];
      && c.pc < |p| && 1 <= n <= 24 && IsData(dst) && Countable(w) && FieldWithin(c.fa, n, rev, g.rd)
      && LineWords(p, c.pc) == [Encode(Field(false, DataId(dst), rev, n, CountCode(w)))]
      && Execute(p, c) == Next(Counted(Set(c, dst, FieldValue(c.m, c.fa, n, rev)), w, n))
  {
    hide Encode, DataId, IsData, Set, Counted, FieldValue, FieldWithin, Next, Guards;
  }

  lemma FieldFits(write: bool, reg: Name, rev: bool, n: nat, w: Counts, s: State, a: Word, g: Region)
    requires 1 <= n <= 24 && Countable(w) && s.r.fa == a && FieldWithin(a, n, rev, if write then g.wr else g.rd)
    ensures var op := Field(write, DataId(reg), rev, n, CountCode(w)); Packable(op) && OpConfined(op, s, g)
  {
    hide FieldWithin;
  }

  lemma ReadKeeps(c: Mil, dst: Name, v: Word, w: Counts, n: nat)
    ensures var c' := Next(Counted(Set(c, dst, v), w, n));
      c'.m == c.m && c'.out == c.out && c'.rets == c.rets && c'.pc == c.pc + 1
  {
    hide CountFa, CountFb, CountCode, FaCounted, FbCounted;
  }

  lemma SimRead(p: Program, s: State, c: Mil, g: Region, depth: nat)
    requires Sim(p, s, c) && Ready(p, c, depth, g) && p[c.pc].ReadBits?
    ensures Confined(s, g) && Sim(p, Step(s), Execute(p, c))
  {
    hide *;
    MeansRead(p, c, g, depth);
    var ReadBits(n, rev, dst, w) := p[c.pc];
    var op := Field(false, DataId(dst), rev, n, CountCode(w));
    var v := FieldValue(c.m, c.fa, n, rev);
    ReadyMeans(p, s, c, g, depth);
    FieldFits(false, dst, rev, n, w, s, c.fa, g);
    ReadKeeps(c, dst, v, w, n);
    var f := Starts(p, s, c, g, op);
    ShownBy(s, f);
    ExecutesRead(f, c, n, rev, dst, w);
    FinishesExec(p, s, c, g, op, f, Exec(op, f), Next(Counted(Set(c, dst, v), w, n)));
  }

  lemma ShownBy(s: State, f: State)
    requires Advanced(s, f)
    ensures f.m == s.m && f.out == s.out
  {
  }

  lemma ExecutesWrite(f: State, c: Mil, n: nat, src: Name, w: Counts)
    requires Same(f.r, c) && f.m == c.m && 1 <= n <= 24 && IsData(src) && Countable(w)
    ensures var e := Exec(Field(true, DataId(src), false, n, CountCode(w)), f);
      && Same(e.r, Next(Counted(c.(m := WriteField(c.m, c.fa, n, Get(c, src), false)), w, n))) && Kept(f.r, e.r)
      && e.m == WriteField(c.m, c.fa, n, Get(c, src), false) && e.out == f.out && e.bus == f.bus
  {
    CountsMean(w, f.r.fa, f.r.fb, n);
    hide CountFa, CountFb, CountCode, FaCounted, FbCounted;
  }

  /** A write beyond the program's words leaves them as they are. */
  lemma WriteKeepsLoaded(p: Program, m: Mem, a: nat, n: nat, v: nat)
    requires Loaded(p, m) && (n > 0 ==> a >= 16 * |Code(p)|)
    ensures Loaded(p, WriteField(m, a, n, v, false))
  {
    var m' := WriteField(m, a, n, v, false);
    forall w: nat | w < |Code(p)|
      ensures FetchMicro(m', 16 * w) == Code(p)[w]
    {
      assert 16 * w / 16 * 16 == 16 * w;
      ReadDisjoint(m, a, n, v, false, 16 * w, 16, false);
    }
  }

  lemma MeansWrite(p: Program, c: Mil, g: Region, depth: nat)
    requires Ready(p, c, depth, g) && p[c.pc].WriteBits?
    ensures var WriteBits(n, src, w) := p[c.pc];
      && c.pc < |p| && 1 <= n <= 24 && IsData(src) && Countable(w) && FieldWithin(c.fa, n, false, g.wr)
      && LineWords(p, c.pc) == [Encode(Field(true, DataId(src), false, n, CountCode(w)))]
      && Execute(p, c) == Next(Counted(c.(m := WriteField(c.m, c.fa, n, Get(c, src), false)), w, n))
  {
    hide Encode, DataId, IsData, Get, Counted, WriteField, FieldWithin, Next, Guards;
  }

  lemma WritesBeyond(p: Program, a: nat, n: nat, g: Region)
    requires n > 0 && FieldWithin(a, n, false, g.wr) && Guards(g, p)
    ensures a >= 16 * |Code(p)|
  {
    hide Code;
    assert FieldAddr(a, 0, false) in g.wr;
  }

  lemma WriteMoves(c: Mil, m: Mem, w: Counts, n: nat)
    ensures var c' := Next(Counted(c.(m := m), w, n));
      c'.m == m && c'.out == c.out && c'.rets == c.rets && c'.pc == c.pc + 1
  {
    hide CountFa, CountFb, CountCode, FaCounted, FbCounted;
  }

  lemma SimWrite(p: Program, s: State, c: Mil, g: Region, depth: nat)
    requires Sim(p, s, c) && Ready(p, c, depth, g) && p[c.pc].WriteBits?
    ensures Confined(s, g) && Sim(p, Step(s), Execute(p, c))
  {
    hide *;
    MeansWrite(p, c, g, depth);
    var WriteBits(n, src, w) := p[c.pc];
    var op := Field(true, DataId(src), false, n, CountCode(w));
    var m := WriteField(c.m, c.fa, n, Get(c, src), false);
    ReadyMeans(p, s, c, g, depth);
    FieldFits(true, src, false, n, w, s, c.fa, g);
    WritesBeyond(p, c.fa, n, g);
    WriteMoves(c, m, w, n);
    var f := Starts(p, s, c, g, op);
    ShownBy(s, f);
    ExecutesWrite(f, c, n, src, w);
    WriteKeepsLoaded(p, c.m, c.fa, n, Get(c, src));
    FinishesExec(p, s, c, g, op, f, Exec(op, f), Next(Counted(c.(m := m), w, n)));
  }
}
