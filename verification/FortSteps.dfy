/** The routine of each opcode, and the refinement of one instruction. */
module FortSteps {
  import opened Bits
  import opened BitMemory
  import opened Registers
  import opened Mil
  import opened Footprint
  import opened Simulation
  import opened MilRun
  import opened MilSteps
  import opened FortMicrocode
  import opened FortLines
  import opened FortVm
  import opened SCode
  import opened FortRefinement
  import opened Multiply

  /** Scratchpad words 4 to 7 hold R0 to R3 and word 1 the compare flag. */
  predicate RegsIn(pads: Pads, v: Vm) {
    && pads[1].left == v.flag
    && pads[4].left == v.regs[0] && pads[5].left == v.regs[1]
    && pads[6].left == v.regs[2] && pads[7].left == v.regs[3]
  }

  /** The interpreter is at FETCH and stands for the S-FORT state v. */
  predicate Rep(c: Mil, v: Vm) {
    && c.pc == 3 && c.fa == v.pc && c.cp == 0 && c.rets == [] && c.out == v.out
    && !c.halted && !v.halted && RegsIn(c.pads, v)
  }

  /** e lines have led from c to a state that stands for v: back at FETCH, or halted. */
  ghost predicate Performs(start: Word, c: Mil, d: Mil, e: nat, g: Region, v: Vm) {
    && Leads(FortSource(start), c, d, e, g) && e > 0 && d.m == c.m
    && if v.halted then d.halted && d.out == v.out && RegsIn(d.pads, v) else Rep(d, v)
  }

  lemma OperandIn(c: Mil, v: Vm, a: Word)
    requires RegsIn(c.pads, v)
    ensures c.pads[4 + Sel(Octet8(c.m, a))].left == Operand(c.m, v, a)
  {
    hide Octet8;
  }

  /** Writing scratchpad word 4 + k is writing register k. */
  lemma RegWritten(pads: Pads, v: Vm, k: nat, value: Word)
    requires RegsIn(pads, v) && k < 4
    ensures RegsIn(pads[4 + k := pads[4 + k].(left := value)], v.(regs := v.regs[k := value]))
  {
  }

  // ----- the tail common to LOAD, ADD, SUB, MUL and MOV -----

  /** MOVE SnA TO X, CALL WRITE_REG, GO TO FETCH: the register whose number word n holds receives word 8. */
  lemma WritesBack(start: Word, c0: Mil, c: Mil, n: nat, g: Region, k: nat) returns (d: Mil, e: nat)
    requires Running(FortSource(start), c0, c, n, g) && c.rets == [] && k < 16 && c.pc + 3 <= 190
    requires var p := FortSource(start);
      |p| == 190 && Target(p, 3) == 3 && p[c.pc] == LoadPad(k, false, X) && p[c.pc + 1] == CallTo(46)
      && p[c.pc + 2] == GoTo(3)
    ensures Running(FortSource(start), c0, d, e, g)
    ensures var r := 4 + Sel(c.pads[k].left);
      d == c.(pc := 3, x := c.pads[8].left, pads := c.pads[r := c.pads[r].(left := c.pads[8].left)], t := d.t, y := d.y)
    ensures e > n
  {
    hide *;
    var p := FortSource(start);
    var c1 := ThenLoadLeftX(p, c0, c, n, g, k);
    var c2, e2 := CallsWrite(start, c0, c1, n + 1, g);
    d := ThenGoTo(p, c0, c2, e2, g, 3);
    e := e2 + 1;
  }

  /** The same, ending a routine that has kept the registers. */
  lemma Finishes(start: Word, c0: Mil, c: Mil, n: nat, g: Region, k: nat, v: Vm, v': Vm) returns (d: Mil, e: nat)
    requires Running(FortSource(start), c0, c, n, g) && c.rets == [] && k < 16 && c.pc + 3 <= 190
    requires var p := FortSource(start);
      |p| == 190 && Target(p, 3) == 3 && p[c.pc] == LoadPad(k, false, X) && p[c.pc + 1] == CallTo(46)
      && p[c.pc + 2] == GoTo(3)
    requires RegsIn(c.pads, v) && c.out == v.out && !v.halted && c.m == c0.m
    requires v' == v.(regs := v.regs[Sel(c.pads[k].left) := c.pads[8].left], pc := c.fa)
    ensures Performs(start, c0, d, e, g, v')
  {
    hide Leads, Guards, Target, FortLine, Sel;
    d, e := WritesBack(start, c0, c, n, g, k);
    RegWritten(c.pads, v, Sel(c.pads[k].left), c.pads[8].left);
  }

  // ----- entering a routine -----

  /** n lines have led from c, which stands for v, into the routine of the opcode at v.pc. */
  ghost predicate Entered(start: Word, c: Mil, d: Mil, n: nat, g: Region, v: Vm) {
    && Running(FortSource(start), c, d, n, g) && Rep(c, v) && Fetchable(c.m, v, g.rd)
    && d.pc == Handler(Octet8(c.m, v.pc)) && d.fa == Up(v.pc, 8)
    && d.pads == c.pads && d.m == c.m && d.rets == [] && d.out == v.out && RegsIn(d.pads, v)
  }

  /** What is known on entering the routine of opcode op. */
  lemma OnEntry(start: Word, c: Mil, d: Mil, n: nat, g: Region, v: Vm, op: nat)
    requires Entered(start, c, d, n, g, v) && Octet8(c.m, v.pc) == op
    ensures Running(FortSource(start), c, d, n, g) && d.pc == Handler(op) && d.fa == Up(v.pc, 8)
    ensures d.pads == c.pads && d.m == c.m && d.rets == [] && d.out == v.out && RegsIn(d.pads, v)
    ensures !v.halted && Fetchable(c.m, v, g.rd)
  {
    hide Running, Fetchable, Handler, Octet8, RegsIn, Up;
  }

  lemma Handlers()
    ensures Handler(0) == 70 && Handler(1) == 72 && Handler(2) == 80 && Handler(3) == 94 && Handler(4) == 109
    ensures Handler(5) == 139 && Handler(6) == 148 && Handler(7) == 163 && Handler(8) == 174 && Handler(9) == 185
  {
  }

  // ----- LOAD -----

  lemma MeansLoad(m: Mem, start: Word, v: Vm, rd: iset<int>)
    requires !v.halted && Octet8(m, v.pc) == 1 && Fetchable(m, v, rd)
    ensures var a := Up(v.pc, 8); var b := Up(a, 8);
      Readable(a, 8, rd) && Readable(b, 16, rd)
      && VmStep(m, start, v) == v.(regs := v.regs[Sel(Octet8(m, a)) := Octets16(m, b)], pc := Up(b, 16))
  {
    hide Octet8, Octets16, Up, Readable, Sel;
  }

  lemma StepsLoad(start: Word, c: Mil, c0: Mil, n: nat, g: Region, v: Vm) returns (d: Mil, e: nat)
    requires Entered(start, c, c0, n, g, v) && Octet8(c.m, v.pc) == 1
    ensures Performs(start, c, d, e, g, VmStep(c.m, start, v))
  {
    hide *;
    var p := FortSource(start);
    OnEntry(start, c, c0, n, g, v, 1);
    Handlers();
    LoadLines(start);
    MeansLoad(c.m, start, v, g.rd);
    var c1 := ThenLabel(p, c, c0, n, g);
    var c2 := ReadsOctet(p, c, c1, n + 1, g);
    var c3 := ThenStoreLeftX(p, c, c2, n + 2, g, 2);
    var c4 := ReadsOctets16(p, c, c3, n + 3, g);
    var c5 := ThenStoreLeftX(p, c, c4, n + 4, g, 8);
    StillIn(c0.pads, c5.pads, v);
    d, e := Finishes(start, c, c5, n + 5, g, 2, v, VmStep(c.m, start, v));
  }

  /** The routines use scratchpad words 2, 3, 8 and 9. */
  lemma StillIn(pads: Pads, pads': Pads, v: Vm)
    requires RegsIn(pads, v)
    requires pads'[1] == pads[1] && pads'[4] == pads[4] && pads'[5] == pads[5]
    requires pads'[6] == pads[6] && pads'[7] == pads[7]
    ensures RegsIn(pads', v)
  {
  }

  // ----- ADD, SUB, MUL -----

  lemma MeansArith(m: Mem, start: Word, v: Vm, rd: iset<int>, op: nat)
    requires !v.halted && Octet8(m, v.pc) == op && 2 <= op <= 4 && Fetchable(m, v, rd)
    ensures var a := Up(v.pc, 8); var b := Up(a, 8); var c := Up(b, 8);
      Readable(a, 8, rd) && Readable(b, 8, rd) && Readable(c, 8, rd)
      && VmStep(m, start, v)
         == v.(regs := v.regs[Sel(Octet8(m, a)) := Arith(op, Operand(m, v, b), Operand(m, v, c))], pc := Up(c, 8))
  {
    hide Octet8, Octets16, Up, Readable, Sel, Arith, Operand;
  }

  /** READ 8 BITS TO X INC FA, CALL READ_REG: X is the register that the next octet names. */
  lemma ReadsOperand(start: Word, c0: Mil, c: Mil, n: nat, g: Region, v: Vm) returns (d: Mil, e: nat)
    requires Running(FortSource(start), c0, c, n, g) && c.rets == [] && RegsIn(c.pads, v) && Readable(c.fa, 8, g.rd)
    requires var p := FortSource(start);
      c.pc + 2 <= 190 && |p| == 190 && p[c.pc] == ReadBits(8, false, X, Counts(Inc, Stay)) && p[c.pc + 1] == CallTo(26)
    ensures Running(FortSource(start), c0, d, e, g)
    ensures d == c.(pc := c.pc + 2, x := Operand(c.m, v, c.fa), fa := Up(c.fa, 8), t := d.t, y := d.y)
    ensures e > n
  {
    hide *;
    var p := FortSource(start);
    var c1 := ReadsOctet(p, c0, c, n, g);
    OperandIn(c, v, c.fa);
    d, e := CallsRead(start, c0, c1, n + 1, g);
  }

  lemma StepsAdd(start: Word, c: Mil, c0: Mil, n: nat, g: Region, v: Vm) returns (d: Mil, e: nat)
    requires Entered(start, c, c0, n, g, v) && Octet8(c.m, v.pc) == 2
    ensures Performs(start, c, d, e, g, VmStep(c.m, start, v))
  {
    hide *;
    var p := FortSource(start);
    OnEntry(start, c, c0, n, g, v, 2);
    Handlers();
    AddLines(start);
    MeansArith(c.m, start, v, g.rd, 2);
    var c1 := ThenLabel(p, c, c0, n, g);
    var c2 := ReadsOctet(p, c, c1, n + 1, g);
    var c3 := ThenStoreLeftX(p, c, c2, n + 2, g, 9);
    StillIn(c0.pads, c3.pads, v);
    var c4, e4 := ReadsOperand(start, c, c3, n + 3, g, v);
    var c5 := ThenStoreLeftX(p, c, c4, e4, g, 3);
    StillIn(c0.pads, c5.pads, v);
    var c6, e6 := ReadsOperand(start, c, c5, e4 + 1, g, v);
    var c7 := ThenLoadLeftY(p, c, c6, e6, g, 3);
    var c8 := ThenSumToT(p, c, c7, e6 + 1, g);
    ArithIs(c4.x, c6.x);
    var c9 := ThenStoreLeftT(p, c, c8, e6 + 2, g, 8);
    StillIn(c0.pads, c9.pads, v);
    d, e := Finishes(start, c, c9, e6 + 3, g, 9, v, VmStep(c.m, start, v));
  }

  lemma StepsSub(start: Word, c: Mil, c0: Mil, n: nat, g: Region, v: Vm) returns (d: Mil, e: nat)
    requires Entered(start, c, c0, n, g, v) && Octet8(c.m, v.pc) == 3
    ensures Performs(start, c, d, e, g, VmStep(c.m, start, v))
  {
    hide *;
    var p := FortSource(start);
    OnEntry(start, c, c0, n, g, v, 3);
    Handlers();
    SubLines(start);
    MeansArith(c.m, start, v, g.rd, 3);
    var c1 := ThenLabel(p, c, c0, n, g);
    var c2 := ReadsOctet(p, c, c1, n + 1, g);
    var c3 := ThenStoreLeftX(p, c, c2, n + 2, g, 9);
    StillIn(c0.pads, c3.pads, v);
    var c4, e4 := ReadsOperand(start, c, c3, n + 3, g, v);
    var c5 := ThenStoreLeftX(p, c, c4, e4, g, 3);
    StillIn(c0.pads, c5.pads, v);
    var c6, e6 := ReadsOperand(start, c, c5, e4 + 1, g, v);
    var c7 := ThenXToY(p, c, c6, e6, g);
    var c8 := ThenLoadLeftX(p, c, c7, e6 + 1, g, 3);
    var c9 := ThenDiffToT(p, c, c8, e6 + 2, g);
    ArithIs(c4.x, c6.x);
    var c10 := ThenStoreLeftT(p, c, c9, e6 + 3, g, 8);
    StillIn(c0.pads, c10.pads, v);
    d, e := Finishes(start, c, c10, e6 + 4, g, 9, v, VmStep(c.m, start, v));
  }

  lemma Product(pads: Pads, a: Word, k: Word)
    requires pads[2] == Pad(a, k) && pads[3].left == 0
    ensures Multiplied(pads)[3].left == a * k % 0x100_0000
    ensures forall j :: 0 <= j < 16 && j != 2 && j != 3 ==> Multiplied(pads)[j] == pads[j]
  {
  }

  lemma StepsMul(start: Word, c: Mil, c0: Mil, n: nat, g: Region, v: Vm) returns (d: Mil, e: nat)
    requires Entered(start, c, c0, n, g, v) && Octet8(c.m, v.pc) == 4
    ensures Performs(start, c, d, e, g, VmStep(c.m, start, v))
  {
    hide *;
    var p := FortSource(start);
    OnEntry(start, c, c0, n, g, v, 4);
    Handlers();
    MulLines(start);
    MeansArith(c.m, start, v, g.rd, 4);
    var c1 := ThenLabel(p, c, c0, n, g);
    var c2 := ReadsOctet(p, c, c1, n + 1, g);
    var c3 := ThenStoreLeftX(p, c, c2, n + 2, g, 9);
    StillIn(c0.pads, c3.pads, v);
    var c4, e4 := ReadsOperand(start, c, c3, n + 3, g, v);
    var c5 := ThenStoreLeftX(p, c, c4, e4, g, 2);
    StillIn(c0.pads, c5.pads, v);
    var c6, e6 := ReadsOperand(start, c, c5, e4 + 1, g, v);
    var c7 := ThenStoreRightX(p, c, c6, e6, g, 2);
    var c8 := ThenLitX(p, c, c7, e6 + 1, g, 0);
    var c9 := ThenStoreLeftX(p, c, c8, e6 + 2, g, 3);
    StillIn(c0.pads, c9.pads, v);
    var c10, e10 := MultiplyLoop(start, c, c9, e6 + 3, g);
    Product(c9.pads, c4.x, c6.x);
    StillIn(c9.pads, c10.pads, v);
    ArithIs(c4.x, c6.x);
    d, e := MulEnds(start, c, c10, e10, g, v, VmStep(c.m, start, v));
  }

  lemma MulEnds(start: Word, c0: Mil, c: Mil, n: nat, g: Region, v: Vm, v': Vm) returns (d: Mil, e: nat)
    requires Running(FortSource(start), c0, c, n, g) && c.pc == 133 && c.rets == [] && RegsIn(c.pads, v)
    requires c.out == v.out && !v.halted && c.m == c0.m
    requires v' == v.(regs := v.regs[Sel(c.pads[9].left) := c.pads[3].left], pc := c.fa)
    ensures Performs(start, c0, d, e, g, v')
  {
    hide *;
    var p := FortSource(start);
    MulEndLines(start);
    var c1 := ThenLabel(p, c0, c, n, g);
    var c2 := ThenLoadLeftX(p, c0, c1, n + 1, g, 3);
    var c3 := ThenStoreLeftX(p, c0, c2, n + 2, g, 8);
    StillIn(c.pads, c3.pads, v);
    d, e := Finishes(start, c0, c3, n + 3, g, 9, v, v');
  }

  // ----- MOV -----

  lemma MeansMov(m: Mem, start: Word, v: Vm, rd: iset<int>)
    requires !v.halted && Octet8(m, v.pc) == 5 && Fetchable(m, v, rd)
    ensures var a := Up(v.pc, 8); var b := Up(a, 8);
      Readable(a, 8, rd) && Readable(b, 8, rd)
      && VmStep(m, start, v) == v.(regs := v.regs[Sel(Octet8(m, a)) := Operand(m, v, b)], pc := Up(b, 8))
  {
    hide Octet8, Octets16, Up, Readable, Sel, Operand;
  }

  lemma StepsMov(start: Word, c: Mil, c0: Mil, n: nat, g: Region, v: Vm) returns (d: Mil, e: nat)
    requires Entered(start, c, c0, n, g, v) && Octet8(c.m, v.pc) == 5
    ensures Performs(start, c, d, e, g, VmStep(c.m, start, v))
  {
    hide *;
    var p := FortSource(start);
    OnEntry(start, c, c0, n, g, v, 5);
    Handlers();
    MovLines(start);
    MeansMov(c.m, start, v, g.rd);
    var c1 := ThenLabel(p, c, c0, n, g);
    var c2 := ReadsOctet(p, c, c1, n + 1, g);
    var c3 := ThenStoreLeftX(p, c, c2, n + 2, g, 2);
    StillIn(c0.pads, c3.pads, v);
    var c4, e4 := ReadsOperand(start, c, c3, n + 3, g, v);
    var c5 := ThenStoreLeftX(p, c, c4, e4, g, 8);
    StillIn(c0.pads, c5.pads, v);
    d, e := Finishes(start, c, c5, e4 + 1, g, 2, v, VmStep(c.m, start, v));
  }

  // ----- CMP, BEQ, BNE -----

  lemma MeansCmp(m: Mem, start: Word, v: Vm, rd: iset<int>)
    requires !v.halted && Octet8(m, v.pc) == 6 && Fetchable(m, v, rd)
    ensures var a := Up(v.pc, 8); var b := Up(a, 8);
      Readable(a, 8, rd) && Readable(b, 8, rd)
      && VmStep(m, start, v) == v.(flag := if Operand(m, v, a) == Operand(m, v, b) then 0 else 1, pc := Up(b, 8))
  {
    hide Octet8, Octets16, Up, Readable, Operand;
  }

  lemma FlagWritten(pads: Pads, v: Vm, f: Word)
    requires RegsIn(pads, v)
    ensures RegsIn(pads[1 := pads[1].(left := f)], v.(flag := f))
  {
  }

  /** Back at FETCH with the registers of v'. */
  lemma Arrives(start: Word, c: Mil, d: Mil, e: nat, g: Region, v': Vm)
    requires Running(FortSource(start), c, d, e, g) && e > 0 && d.pc == 3
    requires d.fa == v'.pc && d.rets == [] && d.out == v'.out
    requires !v'.halted && RegsIn(d.pads, v') && d.m == c.m
    ensures Performs(start, c, d, e, g, v')
  {
    hide Leads, Guards, RegsIn;
  }

  lemma StepsCmp(start: Word, c: Mil, c0: Mil, n: nat, g: Region, v: Vm) returns (d: Mil, e: nat)
    requires Entered(start, c, c0, n, g, v) && Octet8(c.m, v.pc) == 6
    ensures Performs(start, c, d, e, g, VmStep(c.m, start, v))
  {
    hide *;
    var p := FortSource(start);
    OnEntry(start, c, c0, n, g, v, 6);
    Handlers();
    CmpLines(start);
    MeansCmp(c.m, start, v, g.rd);
    var c1 := ThenLabel(p, c, c0, n, g);
    var c2, e2 := ReadsOperand(start, c, c1, n + 1, g, v);
    var c3 := ThenStoreLeftX(p, c, c2, e2, g, 2);
    StillIn(c0.pads, c3.pads, v);
    var c4, e4 := ReadsOperand(start, c, c3, e2 + 1, g, v);
    var c5 := ThenLoadLeftY(p, c, c4, e4, g, 2);
    var c6 := ThenIfEqual(p, c, c5, e4 + 1, g, 159);
    if c2.x == c4.x {
      var c7 := ThenLabel(p, c, c6, e4 + 2, g);
      d, e := SetsFlag(start, c, c7, e4 + 3, g, v, 0);
    } else {
      d, e := SetsFlag(start, c, c6, e4 + 2, g, v, 1);
    }
  }

  /** LIT f TO X, MOVE X TO S1A, GO TO FETCH. */
  lemma SetsFlag(start: Word, c0: Mil, c: Mil, n: nat, g: Region, v: Vm, f: Word) returns (d: Mil, e: nat)
    requires Running(FortSource(start), c0, c, n, g) && c.rets == [] && RegsIn(c.pads, v)
    requires (c.pc == 156 && f == 1) || (c.pc == 160 && f == 0)
    requires c.out == v.out && !v.halted && c.m == c0.m
    ensures Performs(start, c0, d, e, g, v.(flag := f, pc := c.fa))
  {
    hide *;
    var p := FortSource(start);
    CmpLines(start);
    var c1 := ThenLitX(p, c0, c, n, g, f);
    var c2 := ThenStoreLeftX(p, c0, c1, n + 1, g, 1);
    FlagWritten(c.pads, v, f);
    SamePc(c2.pads, v.(flag := f), c.fa);
    d := ThenGoTo(p, c0, c2, n + 2, g, 3);
    e := n + 3;
    Arrives(start, c0, d, e, g, v.(flag := f, pc := c.fa));
  }

  lemma SamePc(pads: Pads, v: Vm, a: Word)
    requires RegsIn(pads, v)
    ensures RegsIn(pads, v.(pc := a))
  {
  }

  lemma MeansBranch(m: Mem, start: Word, v: Vm, rd: iset<int>)
    requires !v.halted && 7 <= Octet8(m, v.pc) <= 8 && Fetchable(m, v, rd)
    ensures var a := Up(v.pc, 8); var taken := (v.flag == 0) == (Octet8(m, v.pc) == 7);
      (taken ==> Readable(a, 16, rd))
      && VmStep(m, start, v) == v.(pc := if taken then Up(Octets16(m, a), start) else Up(a, 16))
  {
    hide Octet8, Octets16, Up, Readable;
  }

  /** Scratchpad word 1 is compared with zero. */
  lemma TestsFlag(start: Word, c0: Mil, c: Mil, n: nat, g: Region, v: Vm, l: nat) returns (d: Mil)
    requires Running(FortSource(start), c0, c, n, g) && RegsIn(c.pads, v)
    requires var p := FortSource(start);
      c.pc + 4 <= 190 && |p| == 190 && p[c.pc].Label? && p[c.pc + 1] == LoadPad(1, false, X) && p[c.pc + 2] == Lit(0, Y)
      && p[c.pc + 3] == IfGoTo(Cond(XY(Eql), false), l) && Target(p, l) == l < 190
    ensures Running(FortSource(start), c0, d, n + 4, g)
    ensures d == c.(pc := if v.flag == 0 then l else c.pc + 4, x := v.flag, t := 0, y := 0)
  {
    hide *;
    FlagIn(c.pads, v);
    var p := FortSource(start);
    var c1 := ThenLabel(p, c0, c, n, g);
    var c2 := ThenLoadLeftX(p, c0, c1, n + 1, g, 1);
    var c3 := ThenLitY(p, c0, c2, n + 2, g, 0);
    d := ThenIfEqual(p, c0, c3, n + 3, g, l);
  }

  lemma FlagIn(pads: Pads, v: Vm)
    requires RegsIn(pads, v)
    ensures pads[1].left == v.flag
  {
  }

  /** READ 16 BITS TO X INC FA, LIT S_START TO Y, MOVE SUM TO FA, GO TO FETCH. */
  lemma TakesBranch(start: Word, c0: Mil, c: Mil, n: nat, g: Region, v: Vm) returns (d: Mil, e: nat)
    requires Running(FortSource(start), c0, c, n, g) && c.rets == [] && RegsIn(c.pads, v) && Readable(c.fa, 16, g.rd)
    requires c.pc == 170 || c.pc == 178
    requires c.out == v.out && !v.halted && c.m == c0.m
    ensures Performs(start, c0, d, e, g, v.(pc := Up(Octets16(c.m, c.fa), start)))
  {
    hide *;
    var p := FortSource(start);
    BeqLines(start);
    BneLines(start);
    var c1 := ReadsOctets16(p, c0, c, n, g);
    var c2 := ThenLitY(p, c0, c1, n + 1, g, start);
    var c3 := ThenSumToFA(p, c0, c2, n + 2, g);
    UpIs(c1.x, start);
    d := ThenGoTo(p, c0, c3, n + 3, g, 3);
    e := n + 4;
    SamePc(c.pads, v, d.fa);
    Arrives(start, c0, d, e, g, v.(pc := d.fa));
  }

  lemma UpIs(a: Word, n: nat)
    ensures Up(a, n) == (a + n) % 0x100_0000
  {
  }

  /** COUNT FA UP BY 16, GO TO FETCH. */
  lemma PassesBranch(start: Word, c0: Mil, c: Mil, n: nat, g: Region, v: Vm) returns (d: Mil, e: nat)
    requires Running(FortSource(start), c0, c, n, g) && c.rets == [] && RegsIn(c.pads, v)
    requires c.pc == 167 || c.pc == 183
    requires c.out == v.out && !v.halted && c.m == c0.m
    ensures Performs(start, c0, d, e, g, v.(pc := Up(c.fa, 16)))
  {
    hide *;
    var p := FortSource(start);
    BeqLines(start);
    BneLines(start);
    var c1 := ThenCountUp(p, c0, c, n, g, 16);
    UpIs(c.fa, 16);
    d := ThenGoTo(p, c0, c1, n + 1, g, 3);
    e := n + 2;
    SamePc(c.pads, v, d.fa);
    Arrives(start, c0, d, e, g, v.(pc := d.fa));
  }

  lemma StepsBeq(start: Word, c: Mil, c0: Mil, n: nat, g: Region, v: Vm) returns (d: Mil, e: nat)
    requires Entered(start, c, c0, n, g, v) && Octet8(c.m, v.pc) == 7
    ensures Performs(start, c, d, e, g, VmStep(c.m, start, v))
  {
    hide *;
    var p := FortSource(start);
    OnEntry(start, c, c0, n, g, v, 7);
    Handlers();
    BeqLines(start);
    MeansBranch(c.m, start, v, g.rd);
    var c1 := TestsFlag(start, c, c0, n, g, v, 169);
    if v.flag == 0 {
      var c2 := ThenLabel(p, c, c1, n + 4, g);
      d, e := TakesBranch(start, c, c2, n + 5, g, v);
    } else {
      d, e := PassesBranch(start, c, c1, n + 4, g, v);
    }
  }

  lemma StepsBne(start: Word, c: Mil, c0: Mil, n: nat, g: Region, v: Vm) returns (d: Mil, e: nat)
    requires Entered(start, c, c0, n, g, v) && Octet8(c.m, v.pc) == 8
    ensures Performs(start, c, d, e, g, VmStep(c.m, start, v))
  {
    hide *;
    var p := FortSource(start);
    OnEntry(start, c, c0, n, g, v, 8);
    Handlers();
    BneLines(start);
    MeansBranch(c.m, start, v, g.rd);
    var c1 := TestsFlag(start, c, c0, n, g, v, 182);
    if v.flag == 0 {
      var c2 := ThenLabel(p, c, c1, n + 4, g);
      d, e := PassesBranch(start, c, c2, n + 5, g, v);
    } else {
      d, e := TakesBranch(start, c, c1, n + 4, g, v);
    }
  }

  // ----- PRINT, HALT -----

  lemma MeansPrint(m: Mem, start: Word, v: Vm, rd: iset<int>)
    requires !v.halted && Octet8(m, v.pc) == 9 && Fetchable(m, v, rd)
    ensures var a := Up(v.pc, 8);
      Readable(a, 8, rd) && VmStep(m, start, v) == v.(out := v.out + [Operand(m, v, a)], pc := Up(a, 8))
  {
    hide Octet8, Octets16, Up, Readable, Operand;
  }

  lemma StepsPrint(start: Word, c: Mil, c0: Mil, n: nat, g: Region, v: Vm) returns (d: Mil, e: nat)
    requires Entered(start, c, c0, n, g, v) && Octet8(c.m, v.pc) == 9
    ensures Performs(start, c, d, e, g, VmStep(c.m, start, v))
  {
    hide *;
    var p := FortSource(start);
    OnEntry(start, c, c0, n, g, v, 9);
    Handlers();
    PrintLines(start);
    MeansPrint(c.m, start, v, g.rd);
    var c1 := ThenLabel(p, c, c0, n, g);
    var c2, e2 := ReadsOperand(start, c, c1, n + 1, g, v);
    var c3 := ThenMonitor(p, c, c2, e2, g);
    d := ThenGoTo(p, c, c3, e2 + 1, g, 3);
    e := e2 + 2;
    SameOut(c0.pads, v, d.out, d.fa);
    Arrives(start, c, d, e, g, VmStep(c.m, start, v));
  }

  lemma SameOut(pads: Pads, v: Vm, out: seq<Word>, a: Word)
    requires RegsIn(pads, v)
    ensures RegsIn(pads, v.(out := out, pc := a))
  {
  }

  lemma MeansHalt(m: Mem, start: Word, v: Vm)
    requires !v.halted && (Octet8(m, v.pc) == 0 || Octet8(m, v.pc) >= 10)
    ensures VmStep(m, start, v) == v.(halted := true, pc := Up(v.pc, 8)) && Handler(Octet8(m, v.pc)) == 70
  {
    hide Octet8, Octets16, Up, Operand;
  }

  lemma StepsHalt(start: Word, c: Mil, c0: Mil, n: nat, g: Region, v: Vm) returns (d: Mil, e: nat)
    requires Entered(start, c, c0, n, g, v) && (Octet8(c.m, v.pc) == 0 || Octet8(c.m, v.pc) >= 10)
    ensures Performs(start, c, d, e, g, VmStep(c.m, start, v))
  {
    hide *;
    var p := FortSource(start);
    OnEntry(start, c, c0, n, g, v, Octet8(c.m, v.pc));
    HaltLines(start);
    MeansHalt(c.m, start, v);
    var c1 := ThenLabel(p, c, c0, n, g);
    d := ThenHalt(p, c, c1, n + 1, g);
    e := n + 2;
    HaltedPerforms(start, c, d, e, g, v, VmStep(c.m, start, v));
  }

  lemma HaltedPerforms(start: Word, c: Mil, d: Mil, e: nat, g: Region, v: Vm, v': Vm)
    requires Leads(FortSource(start), c, d, e, g) && e > 0 && d.m == c.m
    requires d.halted && d.out == v.out && RegsIn(d.pads, v)
    requires v' == v.(halted := true, pc := v'.pc)
    ensures Performs(start, c, d, e, g, v')
  {
    hide Leads;
  }

  // ----- one instruction -----

  lemma Enters(start: Word, c: Mil, g: Region, v: Vm) returns (d: Mil, e: nat)
    requires Rep(c, v) && Guards(g, FortSource(start)) && Fetchable(c.m, v, g.rd)
    ensures Entered(start, c, d, e, g, v)
  {
    hide Guards, Leads, Handler, RegsIn, Octet8, Readable, FortLine;
    d, e := Fetches(start, c, g);
    hide Running;
  }

  /** From any FETCH state that stands for v, the interpreter's lines lead back to FETCH, or halt, standing for
      exactly one S-FORT step, for all ten opcodes and every undefined one. */
  lemma FortStep(start: Word, c: Mil, g: Region, v: Vm) returns (d: Mil, e: nat)
    requires Rep(c, v) && Guards(g, FortSource(start)) && Fetchable(c.m, v, g.rd)
    ensures Performs(start, c, d, e, g, VmStep(c.m, start, v))
  {
    hide *;
    var c0, n := Enters(start, c, g, v);
    var op := Octet8(c.m, v.pc);
    if op == 1 {
      d, e := StepsLoad(start, c, c0, n, g, v);
    } else if op == 2 {
      d, e := StepsAdd(start, c, c0, n, g, v);
    } else if op == 3 {
      d, e := StepsSub(start, c, c0, n, g, v);
    } else if op == 4 {
      d, e := StepsMul(start, c, c0, n, g, v);
    } else if op == 5 {
      d, e := StepsMov(start, c, c0, n, g, v);
    } else if op == 6 {
      d, e := StepsCmp(start, c, c0, n, g, v);
    } else if op == 7 {
      d, e := StepsBeq(start, c, c0, n, g, v);
    } else if op == 8 {
      d, e := StepsBne(start, c, c0, n, g, v);
    } else if op == 9 {
      d, e := StepsPrint(start, c, c0, n, g, v);
    } else {
      d, e := StepsHalt(start, c, c0, n, g, v);
    }
  }
}
