/** Each trip round the FETCH loop of the S-CALC interpreter performs exactly one stack-machine instruction. */
module CalcRefinement {
  import opened Bits
  import opened BitMemory
  import opened Registers
  import opened Mil
  import opened Footprint
  import opened Simulation
  import opened MilRun
  import opened MilSteps
  import opened CalcMicrocode
  import opened CalcLines
  import opened SCode
  import opened CalcVm
  import opened Multiply

  // ----- decoding -----

  /** First line of the routine for each opcode. */
  function Routine(op: nat): nat {
    match op
    case 1 => DO_PUSH
    case 2 => DO_ADD
    case 3 => DO_SUB
    case 4 => DO_MUL
    case 5 => DO_PRINT
    case 6 => DO_DUP
    case 7 => DO_SWAP
    case _ => DO_HALT
  }

  function Prog(sp: Space): Program { CalcSource(sp.start, sp.base) }

  lemma FetchLines(sp: Space, k: nat)
    requires k <= 8
    ensures var p := Prog(sp);
      && |p| == 108 && p[8] == Label(8) && p[9] == ReadBits(8, false, X, Counts(Inc, Stay))
      && (k < 8 ==> p[10 + 2 * k] == Lit(k, Y) && p[11 + 2 * k] == IfGoTo(Cond(XY(Eql), false), Routine(k)))
      && p[26] == GoTo(27) && Target(p, 27) == 27
      && Target(p, Routine(k)) == Routine(k) < 108
  {
    hide Target;
    FetchLineAt(sp, k);
    RoutineLabel(sp, k);
    RoutineLabel(sp, 0);
    JumpFinds(sp.start, sp.base, Routine(k));
    JumpFinds(sp.start, sp.base, 27);
    hide CalcLine, FetchLine;
  }

  lemma FetchLineAt(sp: Space, k: nat)
    requires k <= 8
    ensures CalcLine(sp.start, sp.base, 8) == Label(8)
    ensures CalcLine(sp.start, sp.base, 9) == ReadBits(8, false, X, Counts(Inc, Stay))
    ensures k < 8 ==> CalcLine(sp.start, sp.base, 10 + 2 * k) == Lit(k, Y)
    ensures k < 8 ==> CalcLine(sp.start, sp.base, 11 + 2 * k) == IfGoTo(Cond(XY(Eql), false), Routine(k))
    ensures CalcLine(sp.start, sp.base, 26) == GoTo(27)
  {
  }

  lemma RoutineLabel(sp: Space, op: nat)
    ensures Routine(op) < 108 && CalcLine(sp.start, sp.base, Routine(op)) == Label(Routine(op)) && Routine(0) == 27
  {
  }

  lemma Routines()
    ensures Routine(1) == 29 && Routine(2) == 35 && Routine(3) == 45 && Routine(4) == 55
    ensures Routine(5) == 83 && Routine(6) == 90 && Routine(7) == 98
    ensures forall op: nat :: op == 0 || op >= 8 ==> Routine(op) == 27
  {
  }

  lemma {:induction false} Decodes(sp: Space, c0: Mil, c: Mil, n: nat, g: Region, k: nat) returns (d: Mil, e: nat)
    requires Running(Prog(sp), c0, c, n, g) && k <= 8 && c.pc == 10 + 2 * k && k <= c.x
    ensures Running(Prog(sp), c0, d, e, g) && d == c.(pc := Routine(c.x), t := d.t, y := d.y)
    ensures e > n
    decreases 8 - k
  {
    hide *;
    var p := Prog(sp);
    FetchLines(sp, k);
    Routines();
    if k == 8 {
      d := ThenGoTo(p, c0, c, n, g, 27);
      e := n + 1;
    } else {
      var c1 := ThenLitY(p, c0, c, n, g, k);
      d := ThenIfEqual(p, c0, c1, n + 1, g, Routine(k));
      e := n + 2;
      if c.x != k {
        d, e := Decodes(sp, c0, d, n + 2, g, k + 1);
      }
    }
  }

  // ----- representation -----

  /** FA is the stack pointer over the values st. */
  ghost predicate OnStack(sp: Space, m0: Mem, c: Mil, st: seq<Word>) {
    && c.fa == sp.base + 24 * |st| <= sp.limit && StackIn(c.m, sp.base, st) && SameOutside(m0, c.m, sp)
  }

  /** The interpreter is at FETCH and stands for v: FA is the code pointer, word 1 of the scratchpad the stack
      pointer. */
  ghost predicate Rep(sp: Space, m0: Mem, c: Mil, v: Calc) {
    && c.pc == 8 && c.fa == v.pc && c.cp == 0 && c.rets == [] && c.out == v.out && !c.halted && !v.halted
    && c.pads[1].left == sp.base + 24 * |v.stack| <= sp.limit
    && StackIn(c.m, sp.base, v.stack) && SameOutside(m0, c.m, sp)
  }

  /** e lines have led from c to a state that stands for v: back at FETCH, or halted. */
  ghost predicate Performs(sp: Space, m0: Mem, c: Mil, d: Mil, e: nat, g: Region, v: Calc) {
    && Leads(Prog(sp), c, d, e, g) && e > 0
    && if v.halted then d.halted && d.out == v.out && SameOutside(m0, d.m, sp) && d.rets == [] && d.cp == 0
       else Rep(sp, m0, d, v)
  }

  // ----- moving values -----

  lemma PopMeans(sp: Space, m0: Mem, c: Mil, d: Mil, st: seq<Word>, micro: nat)
    requires OnStack(sp, m0, c, st) && |st| > 0 && d.m == c.m && d.fa == (c.fa - 24) % 0x100_0000
    ensures d.fa == sp.base + 24 * (|st| - 1) && OnStack(sp, m0, d, st[..|st| - 1])
    ensures Word24(d.m, d.fa) == st[|st| - 1]
    ensures FieldWithin(d.fa, 24, false, SpaceRegion(sp, micro).rd)
  {
    hide Word24, SpaceRegion, SameOutside;
    StackReadable(sp, micro, d.fa);
  }

  lemma PopsY(sp: Space, m0: Mem, c0: Mil, c: Mil, n: nat, st: seq<Word>, micro: nat) returns (d: Mil)
    requires Running(Prog(sp), c0, c, n, SpaceRegion(sp, micro)) && OnStack(sp, m0, c, st) && |st| > 0
    requires c.pc + 2 <= |Prog(sp)| && Prog(sp)[c.pc] == CountBy(Counts(Dec, Stay), 24)
    requires Prog(sp)[c.pc + 1] == ReadBits(24, false, Y, Counts(Stay, Stay))
    ensures Running(Prog(sp), c0, d, n + 2, SpaceRegion(sp, micro)) && OnStack(sp, m0, d, st[..|st| - 1])
    ensures d == c.(pc := c.pc + 2, fa := d.fa, y := st[|st| - 1])
  {
    hide *;
    var g := SpaceRegion(sp, micro);
    var c1 := ThenCountDown(Prog(sp), c0, c, n, g, 24);
    PopMeans(sp, m0, c, c1, st, micro);
    Word24Is(c1.m, c1.fa);
    d := ThenReadY(Prog(sp), c0, c1, n + 1, g, 24);
    Elsewhere(sp, m0, c1, d, st[..|st| - 1]);
  }

  lemma PopsX(sp: Space, m0: Mem, c0: Mil, c: Mil, n: nat, st: seq<Word>, micro: nat) returns (d: Mil)
    requires Running(Prog(sp), c0, c, n, SpaceRegion(sp, micro)) && OnStack(sp, m0, c, st) && |st| > 0
    requires c.pc + 2 <= |Prog(sp)| && Prog(sp)[c.pc] == CountBy(Counts(Dec, Stay), 24)
    requires Prog(sp)[c.pc + 1] == ReadBits(24, false, X, Counts(Stay, Stay))
    ensures Running(Prog(sp), c0, d, n + 2, SpaceRegion(sp, micro)) && OnStack(sp, m0, d, st[..|st| - 1])
    ensures d == c.(pc := c.pc + 2, fa := d.fa, x := st[|st| - 1])
  {
    hide *;
    var g := SpaceRegion(sp, micro);
    var c1 := ThenCountDown(Prog(sp), c0, c, n, g, 24);
    PopMeans(sp, m0, c, c1, st, micro);
    Word24Is(c1.m, c1.fa);
    d := ThenReadX(Prog(sp), c0, c1, n + 1, g, 24);
    Elsewhere(sp, m0, c1, d, st[..|st| - 1]);
  }

  lemma Word24Is(m: Mem, a: Word)
    ensures Word24(m, a) == FieldValue(m, a, 24, false)
  {
  }

  /** The representation of the stack is in memory and FA only. */
  lemma Elsewhere(sp: Space, m0: Mem, c: Mil, d: Mil, st: seq<Word>)
    requires OnStack(sp, m0, c, st) && d.m == c.m && d.fa == c.fa
    ensures OnStack(sp, m0, d, st)
  {
    hide StackIn, SameOutside;
  }

  lemma PushMeans(sp: Space, m0: Mem, c: Mil, d: Mil, st: seq<Word>, v: Word, micro: nat)
    requires OnStack(sp, m0, c, st) && sp.base + 24 * (|st| + 1) <= sp.limit && Laid(sp, micro, |m0|)
    requires d.m == WriteField(c.m, c.fa, 24, v, false) && d.fa == (c.fa + 24) % 0x100_0000
    ensures OnStack(sp, m0, d, st + [v])
  {
    hide StackIn, WriteField, BitAt;
    WriteAbove(c.m, sp.base, st, v);
    WriteOutside(m0, c.m, sp, c.fa, v);
  }

  lemma Writable(sp: Space, m0: Mem, c: Mil, st: seq<Word>, micro: nat)
    requires OnStack(sp, m0, c, st) && sp.base + 24 * (|st| + 1) <= sp.limit
    ensures FieldWithin(c.fa, 24, false, SpaceRegion(sp, micro).wr)
  {
    hide StackIn, SameOutside, SpaceRegion;
    StackReadable(sp, micro, c.fa);
  }

  lemma PushesX(sp: Space, m0: Mem, c0: Mil, c: Mil, n: nat, st: seq<Word>, micro: nat) returns (d: Mil)
    requires Running(Prog(sp), c0, c, n, SpaceRegion(sp, micro)) && OnStack(sp, m0, c, st)
    requires sp.base + 24 * (|st| + 1) <= sp.limit && Laid(sp, micro, |m0|)
    requires c.pc < |Prog(sp)| && Prog(sp)[c.pc] == WriteBits(24, X, Counts(Inc, Stay))
    ensures Running(Prog(sp), c0, d, n + 1, SpaceRegion(sp, micro)) && OnStack(sp, m0, d, st + [c.x])
    ensures d == c.(pc := c.pc + 1, fa := d.fa, m := d.m)
  {
    hide *;
    Writable(sp, m0, c, st, micro);
    d := ThenWriteXUp(Prog(sp), c0, c, n, SpaceRegion(sp, micro), 24);
    PushMeans(sp, m0, c, d, st, c.x, micro);
  }

  lemma PushesY(sp: Space, m0: Mem, c0: Mil, c: Mil, n: nat, st: seq<Word>, micro: nat) returns (d: Mil)
    requires Running(Prog(sp), c0, c, n, SpaceRegion(sp, micro)) && OnStack(sp, m0, c, st)
    requires sp.base + 24 * (|st| + 1) <= sp.limit && Laid(sp, micro, |m0|)
    requires c.pc < |Prog(sp)| && Prog(sp)[c.pc] == WriteBits(24, Y, Counts(Inc, Stay))
    ensures Running(Prog(sp), c0, d, n + 1, SpaceRegion(sp, micro)) && OnStack(sp, m0, d, st + [c.y])
    ensures d == c.(pc := c.pc + 1, fa := d.fa, m := d.m)
  {
    hide *;
    Writable(sp, m0, c, st, micro);
    d := ThenWriteYUp(Prog(sp), c0, c, n, SpaceRegion(sp, micro), 24);
    PushMeans(sp, m0, c, d, st, c.y, micro);
  }

  lemma PushesT(sp: Space, m0: Mem, c0: Mil, c: Mil, n: nat, st: seq<Word>, micro: nat) returns (d: Mil)
    requires Running(Prog(sp), c0, c, n, SpaceRegion(sp, micro)) && OnStack(sp, m0, c, st)
    requires sp.base + 24 * (|st| + 1) <= sp.limit && Laid(sp, micro, |m0|)
    requires c.pc < |Prog(sp)| && Prog(sp)[c.pc] == WriteBits(24, T, Counts(Inc, Stay))
    ensures Running(Prog(sp), c0, d, n + 1, SpaceRegion(sp, micro)) && OnStack(sp, m0, d, st + [c.t])
    ensures d == c.(pc := c.pc + 1, fa := d.fa, m := d.m)
  {
    hide *;
    Writable(sp, m0, c, st, micro);
    d := ThenWriteTUp(Prog(sp), c0, c, n, SpaceRegion(sp, micro), 24);
    PushMeans(sp, m0, c, d, st, c.t, micro);
  }

  // ----- entering and leaving a routine -----

  /** n lines have led from c, which stands for v, into the routine of the opcode at v.pc. */
  ghost predicate Entered(sp: Space, m0: Mem, c: Mil, d: Mil, n: nat, micro: nat, v: Calc) {
    && Running(Prog(sp), c, d, n, SpaceRegion(sp, micro)) && n > 0
    && Laid(sp, micro, |m0|) && Within(m0, sp, v) && !v.halted
    && d.pc == Routine(Octet8(m0, v.pc)) && d.fa == Up(v.pc, 8)
    && d.pads[1].left == sp.base + 24 * |v.stack| <= sp.limit && StackIn(d.m, sp.base, v.stack)
    && SameOutside(m0, d.m, sp) && d.rets == [] && d.out == v.out && d.cp == 0
  }

  lemma RepMeans(sp: Space, m0: Mem, c: Mil, v: Calc, micro: nat)
    requires Rep(sp, m0, c, v) && Within(m0, sp, v) && Laid(sp, micro, |m0|)
    ensures c.pc == 8 && !c.halted && c.cp == 0 && c.fa == v.pc
    ensures FieldWithin(c.fa, 8, false, SpaceRegion(sp, micro).rd) && Octet8(c.m, v.pc) == Octet8(m0, v.pc)
  {
    hide FieldWithin, SpaceRegion, FieldValue, StackIn, SameOutside, Laid;
    CodeReadable(sp, micro, c.fa, 8);
    CodeUnchanged(m0, c.m, sp, micro, c.fa, 8);
  }

  lemma MakeEntered(sp: Space, m0: Mem, c: Mil, d: Mil, n: nat, micro: nat, v: Calc)
    requires Running(Prog(sp), c, d, n, SpaceRegion(sp, micro)) && n > 0
    requires Rep(sp, m0, c, v) && Within(m0, sp, v) && Laid(sp, micro, |m0|)
    requires d == c.(pc := Routine(Octet8(m0, v.pc)), x := d.x, fa := Up(v.pc, 8), t := d.t, y := d.y)
    ensures Entered(sp, m0, c, d, n, micro, v)
  {
    hide Running, SpaceRegion, Within, Laid, StackIn, SameOutside, Routine, Octet8, Up;
  }

  lemma ReadsOpcode(p: Program, c0: Mil, c: Mil, n: nat, g: Region) returns (d: Mil)
    requires Running(p, c0, c, n, g) && c.pc < |p|
    requires p[c.pc] == ReadBits(8, false, X, Counts(Inc, Stay)) && FieldWithin(c.fa, 8, false, g.rd)
    ensures Running(p, c0, d, n + 1, g)
    ensures d == c.(pc := c.pc + 1, x := Octet8(c.m, c.fa), fa := Up(c.fa, 8))
  {
    hide Running, FieldWithin, FieldValue;
    d := ThenReadXUp(p, c0, c, n, g, 8);
  }

  lemma Enters(sp: Space, m0: Mem, c: Mil, micro: nat, v: Calc) returns (d: Mil, e: nat)
    requires Rep(sp, m0, c, v) && Within(m0, sp, v) && Laid(sp, micro, |m0|) && Guards(SpaceRegion(sp, micro), Prog(sp))
    ensures Entered(sp, m0, c, d, e, micro, v)
  {
    hide *;
    var p, g := Prog(sp), SpaceRegion(sp, micro);
    RepMeans(sp, m0, c, v, micro);
    FetchLines(sp, 0);
    StartRun(p, c, g);
    var c1 := ThenLabel(p, c, c, 0, g);
    var c2 := ReadsOpcode(p, c, c1, 1, g);
    d, e := Decodes(sp, c, c2, 2, g, 0);
    MakeEntered(sp, m0, c, d, e, micro, v);
  }

  lemma OnEntry(sp: Space, m0: Mem, c: Mil, d: Mil, n: nat, micro: nat, v: Calc, op: nat)
    requires Entered(sp, m0, c, d, n, micro, v) && Octet8(m0, v.pc) == op
    ensures Running(Prog(sp), c, d, n, SpaceRegion(sp, micro)) && n > 0 && Laid(sp, micro, |m0|) && !v.halted
    ensures d.pc == Routine(op) && d.fa == Up(v.pc, 8) && d.rets == [] && d.out == v.out && d.cp == 0
    ensures Needs(op) <= |v.stack| && sp.base + 24 * (|v.stack| + Grows(op)) <= sp.limit
    ensures SameOutside(m0, d.m, sp)
  {
    hide Running, SpaceRegion, Laid, StackIn, SameOutside, Routine, Octet8, Up, Needs, Grows, InCode;
  }

  /** XCH S1 F S0: FA becomes the stack pointer, word 0 of the scratchpad keeps the code pointer. */
  lemma ToStack(sp: Space, m0: Mem, c0: Mil, c: Mil, n: nat, g: Region, st: seq<Word>) returns (d: Mil)
    requires Running(Prog(sp), c0, c, n, g) && c.pc < |Prog(sp)| && Prog(sp)[c.pc] == Xch(1, 0)
    requires c.pads[1].left == sp.base + 24 * |st| <= sp.limit && StackIn(c.m, sp.base, st) && SameOutside(m0, c.m, sp)
    ensures Running(Prog(sp), c0, d, n + 1, g) && OnStack(sp, m0, d, st) && d.pads[0].left == c.fa
    ensures d == c.(pc := c.pc + 1, fa := d.fa, fb := d.fb, pads := d.pads)
  {
    hide Running, StackIn, SameOutside, Prog;
    d := ThenXch(Prog(sp), c0, c, n, g, 1, 0);
  }

  lemma StackOnEntry(sp: Space, m0: Mem, c: Mil, d: Mil, n: nat, micro: nat, v: Calc)
    requires Entered(sp, m0, c, d, n, micro, v)
    ensures d.pads[1].left == sp.base + 24 * |v.stack| <= sp.limit
    ensures StackIn(d.m, sp.base, v.stack) && SameOutside(m0, d.m, sp)
  {
    hide Running, SpaceRegion, Laid, StackIn, SameOutside, Routine, Octet8, Up, Needs, Grows, InCode, Within;
  }

  /** XCH S0 F S1, GO TO FETCH. */
  lemma Finishes(sp: Space, m0: Mem, c0: Mil, c: Mil, n: nat, g: Region, v: Calc) returns (d: Mil, e: nat)
    requires Running(Prog(sp), c0, c, n, g) && OnStack(sp, m0, c, v.stack) && c.pads[0].left == v.pc
    requires c.rets == [] && c.out == v.out && !v.halted
    requires |Prog(sp)| == 108 && c.pc + 2 <= 108 && Prog(sp)[c.pc] == Xch(0, 1) && Prog(sp)[c.pc + 1] == GoTo(8)
    requires Target(Prog(sp), 8) == 8
    ensures Performs(sp, m0, c0, d, e, g, v)
  {
    hide Leads, Guards, StackIn, SameOutside, Prog, Target;
    var c1 := ThenXch(Prog(sp), c0, c, n, g, 0, 1);
    d := ThenGoTo(Prog(sp), c0, c1, n + 1, g, 8);
    e := n + 2;
  }

  // ----- PUSH -----

  lemma MeansPush(m: Mem, sp: Space, v: Calc)
    requires !v.halted && Octet8(m, v.pc) == 1 && Within(m, sp, v)
    ensures InCode(sp, Up(v.pc, 8), 24) && sp.base + 24 * (|v.stack| + 1) <= sp.limit
    ensures CalcStep(m, v) == v.(stack := v.stack + [Word24(m, Up(v.pc, 8))], pc := Up(Up(v.pc, 8), 24))
  {
    hide Octet8, Up, Word24, InCode;
  }

  lemma WithinOnEntry(sp: Space, m0: Mem, c: Mil, d: Mil, n: nat, micro: nat, v: Calc)
    requires Entered(sp, m0, c, d, n, micro, v)
    ensures Within(m0, sp, v)
  {
    hide Running, SpaceRegion, Laid, StackIn, SameOutside, Routine, Octet8, Up, Within;
  }

  lemma ReadsWord(sp: Space, m0: Mem, c0: Mil, c: Mil, n: nat, micro: nat) returns (d: Mil)
    requires Running(Prog(sp), c0, c, n, SpaceRegion(sp, micro)) && c.pc < |Prog(sp)|
    requires Prog(sp)[c.pc] == ReadBits(24, false, X, Counts(Inc, Stay)) && InCode(sp, c.fa, 24)
    requires SameOutside(m0, c.m, sp) && Laid(sp, micro, |m0|)
    ensures Running(Prog(sp), c0, d, n + 1, SpaceRegion(sp, micro))
    ensures d == c.(pc := c.pc + 1, x := Word24(m0, c.fa), fa := Up(c.fa, 24))
  {
    hide Running, FieldWithin, FieldValue, SpaceRegion, Laid, SameOutside, Prog, InCode;
    CodeReadable(sp, micro, c.fa, 24);
    CodeUnchanged(m0, c.m, sp, micro, c.fa, 24);
    d := ThenReadXUp(Prog(sp), c0, c, n, SpaceRegion(sp, micro), 24);
  }

  lemma StepsPush(sp: Space, m0: Mem, c: Mil, c0: Mil, n: nat, micro: nat, v: Calc) returns (d: Mil, e: nat)
    requires Entered(sp, m0, c, c0, n, micro, v) && Octet8(m0, v.pc) == 1
    ensures Performs(sp, m0, c, d, e, SpaceRegion(sp, micro), CalcStep(m0, v))
  {
    hide *;
    var p, g := Prog(sp), SpaceRegion(sp, micro);
    OnEntry(sp, m0, c, c0, n, micro, v, 1);
    StackOnEntry(sp, m0, c, c0, n, micro, v);
    WithinOnEntry(sp, m0, c, c0, n, micro, v);
    Routines();
    ProgIs(sp);
    PushLines(sp.start, sp.base);
    MeansPush(m0, sp, v);
    var c1 := ThenLabel(p, c, c0, n, g);
    var c2 := ReadsWord(sp, m0, c, c1, n + 1, micro);
    var c3 := ToStack(sp, m0, c, c2, n + 2, g, v.stack);
    var c4 := PushesX(sp, m0, c, c3, n + 3, v.stack, micro);
    d, e := Finishes(sp, m0, c, c4, n + 4, g, CalcStep(m0, v));
  }

  lemma ProgIs(sp: Space)
    ensures Prog(sp) == CalcSource(sp.start, sp.base)
  {
  }

  // ----- ADD, SUB, MUL -----

  lemma MeansCombine(m: Mem, v: Calc, op: nat)
    requires !v.halted && Octet8(m, v.pc) == op && 2 <= op <= 4 && Needs(op) <= |v.stack|
    ensures |v.stack| >= 2
    ensures var st := v.stack; var n := |st|;
      CalcStep(m, v) == v.(stack := st[..n - 2] + [Arith(op, st[n - 2], st[n - 1])], pc := Up(v.pc, 8))
  {
    hide Octet8, Up, Arith;
  }

  lemma Twice(st: seq<Word>)
    requires |st| >= 2
    ensures st[..|st| - 1][..|st| - 2] == st[..|st| - 2] && st[..|st| - 1][|st| - 2] == st[|st| - 2]
    ensures |st[..|st| - 1]| == |st| - 1 && |st[..|st| - 2]| == |st| - 2
  {
  }

  lemma StepsAdd(sp: Space, m0: Mem, c: Mil, c0: Mil, n: nat, micro: nat, v: Calc) returns (d: Mil, e: nat)
    requires Entered(sp, m0, c, c0, n, micro, v) && Octet8(m0, v.pc) == 2
    ensures Performs(sp, m0, c, d, e, SpaceRegion(sp, micro), CalcStep(m0, v))
  {
    hide *;
    var p, g, st := Prog(sp), SpaceRegion(sp, micro), v.stack;
    OnEntry(sp, m0, c, c0, n, micro, v, 2);
    StackOnEntry(sp, m0, c, c0, n, micro, v);
    Routines();
    ProgIs(sp);
    AddLines(sp.start, sp.base);
    MeansCombine(m0, v, 2);
    Twice(st);
    var c1 := ThenLabel(p, c, c0, n, g);
    var c2 := ToStack(sp, m0, c, c1, n + 1, g, st);
    var c3 := PopsY(sp, m0, c, c2, n + 2, st, micro);
    var c4 := PopsX(sp, m0, c, c3, n + 4, st[..|st| - 1], micro);
    var c5 := ThenSumToT(p, c, c4, n + 6, g);
    ArithIs(c4.x, c4.y);
    Elsewhere(sp, m0, c4, c5, st[..|st| - 2]);
    var c6 := PushesT(sp, m0, c, c5, n + 7, st[..|st| - 2], micro);
    d, e := Finishes(sp, m0, c, c6, n + 8, g, CalcStep(m0, v));
  }

  lemma StepsSub(sp: Space, m0: Mem, c: Mil, c0: Mil, n: nat, micro: nat, v: Calc) returns (d: Mil, e: nat)
    requires Entered(sp, m0, c, c0, n, micro, v) && Octet8(m0, v.pc) == 3
    ensures Performs(sp, m0, c, d, e, SpaceRegion(sp, micro), CalcStep(m0, v))
  {
    hide *;
    var p, g, st := Prog(sp), SpaceRegion(sp, micro), v.stack;
    OnEntry(sp, m0, c, c0, n, micro, v, 3);
    StackOnEntry(sp, m0, c, c0, n, micro, v);
    Routines();
    ProgIs(sp);
    SubLines(sp.start, sp.base);
    MeansCombine(m0, v, 3);
    Twice(st);
    var c1 := ThenLabel(p, c, c0, n, g);
    var c2 := ToStack(sp, m0, c, c1, n + 1, g, st);
    var c3 := PopsY(sp, m0, c, c2, n + 2, st, micro);
    var c4 := PopsX(sp, m0, c, c3, n + 4, st[..|st| - 1], micro);
    var c5 := ThenDiffToT(p, c, c4, n + 6, g);
    ArithIs(c4.x, c4.y);
    Elsewhere(sp, m0, c4, c5, st[..|st| - 2]);
    var c6 := PushesT(sp, m0, c, c5, n + 7, st[..|st| - 2], micro);
    d, e := Finishes(sp, m0, c, c6, n + 8, g, CalcStep(m0, v));
  }

  /** MULLOOP makes exactly counter-many passes of 13 lines and leaves the product modulo 2^24. */
  lemma {:induction false} MultiplyLoop(sp: Space, c0: Mil, c: Mil, n: nat, g: Region) returns (d: Mil, e: nat)
    requires Running(Prog(sp), c0, c, n, g) && c.pc == 65
    ensures Running(Prog(sp), c0, d, e, g)
    ensures d == c.(pc := 78, x := 0, y := 0, t := 0, pads := Multiplied(c.pads))
    ensures e == n + 13 * c.pads[2].right + 4
    decreases c.pads[2].right
  {
    hide *;
    var p := Prog(sp);
    ProgIs(sp);
    MulLoopLines(sp.start, sp.base);
    var c1 := ThenLabel(p, c0, c, n, g);
    var c2 := ThenLoadRightX(p, c0, c1, n + 1, g, 2);
    var c3 := ThenLitY(p, c0, c2, n + 2, g, 0);
    d := ThenIfEqual(p, c0, c3, n + 3, g, 78);
    e := n + 4;
    if c.pads[2].right == 0 {
      NothingLeft(c.pads);
    } else {
      var c5 := MultiplyPass(sp, c0, d, n + 4, g);
      PassKeepsProduct(c.pads, c5.pads);
      d, e := MultiplyLoop(sp, c0, c5, n + 13, g);
    }
  }

  lemma MultiplyPass(sp: Space, c0: Mil, c: Mil, n: nat, g: Region) returns (d: Mil)
    requires Running(Prog(sp), c0, c, n, g) && c.pc == 69 && c.pads[2].right > 0
    ensures Running(Prog(sp), c0, d, n + 9, g)
    ensures d == c.(pc := 65, x := c.pads[2].right, y := 1, t := d.t,
                    pads := c.pads[3 := c.pads[3].(left := (c.pads[3].left + c.pads[2].left) % 0x100_0000)]
                                  [2 := c.pads[2].(right := c.pads[2].right - 1)])
  {
    hide *;
    var p := Prog(sp);
    ProgIs(sp);
    MulLoopLines(sp.start, sp.base);
    var c1 := ThenLoadLeftX(p, c0, c, n, g, 3);
    var c2 := ThenLoadLeftY(p, c0, c1, n + 1, g, 2);
    var c3 := ThenSumToT(p, c0, c2, n + 2, g);
    var c4 := ThenStoreLeftT(p, c0, c3, n + 3, g, 3);
    var c5 := ThenLoadRightX(p, c0, c4, n + 4, g, 2);
    var c6 := ThenLitY(p, c0, c5, n + 5, g, 1);
    var c7 := ThenDiffToT(p, c0, c6, n + 6, g);
    var c8 := ThenStoreRightT(p, c0, c7, n + 7, g, 2);
    d := ThenGoTo(p, c0, c8, n + 8, g, 65);
    assert (c6.x - 1) % 0x100_0000 == c.pads[2].right - 1;
  }

  lemma Product(pads: Pads, a: Word, k: Word)
    requires pads[2] == Pad(a, k) && pads[3].left == 0
    ensures Multiplied(pads)[3].left == a * k % 0x100_0000 && Multiplied(pads)[0] == pads[0]
  {
  }

  lemma StepsMul(sp: Space, m0: Mem, c: Mil, c0: Mil, n: nat, micro: nat, v: Calc) returns (d: Mil, e: nat)
    requires Entered(sp, m0, c, c0, n, micro, v) && Octet8(m0, v.pc) == 4
    ensures Performs(sp, m0, c, d, e, SpaceRegion(sp, micro), CalcStep(m0, v))
  {
    hide *;
    var p, g, st := Prog(sp), SpaceRegion(sp, micro), v.stack;
    OnEntry(sp, m0, c, c0, n, micro, v, 4);
    StackOnEntry(sp, m0, c, c0, n, micro, v);
    Routines();
    ProgIs(sp);
    MulLines(sp.start, sp.base);
    MeansCombine(m0, v, 4);
    Twice(st);
    var c1 := ThenLabel(p, c, c0, n, g);
    var c2 := ToStack(sp, m0, c, c1, n + 1, g, st);
    var c3 := PopsY(sp, m0, c, c2, n + 2, st, micro);
    var c4 := PopsX(sp, m0, c, c3, n + 4, st[..|st| - 1], micro);
    var c5 := ThenStoreLeftX(p, c, c4, n + 6, g, 2);
    var c6 := ThenStoreRightY(p, c, c5, n + 7, g, 2);
    var c7 := ThenLitX(p, c, c6, n + 8, g, 0);
    var c8 := ThenStoreLeftX(p, c, c7, n + 9, g, 3);
    var c9, e9 := MultiplyLoop(sp, c, c8, n + 10, g);
    Product(c8.pads, c4.x, c4.y);
    ArithIs(c4.x, c4.y);
    Elsewhere(sp, m0, c4, c9, st[..|st| - 2]);
    d, e := MulEnds(sp, m0, c, c9, e9, micro, v, st[..|st| - 2], CalcStep(m0, v));
  }

  lemma MulEnds(sp: Space, m0: Mem, c0: Mil, c: Mil, n: nat, micro: nat, v: Calc, st: seq<Word>, v': Calc)
    returns (d: Mil, e: nat)
    requires Running(Prog(sp), c0, c, n, SpaceRegion(sp, micro)) && c.pc == 78 && OnStack(sp, m0, c, st)
    requires sp.base + 24 * (|st| + 1) <= sp.limit && Laid(sp, micro, |m0|) && c.rets == [] && c.out == v'.out
    requires v'.stack == st + [c.pads[3].left] && c.pads[0].left == v'.pc && !v'.halted
    ensures Performs(sp, m0, c0, d, e, SpaceRegion(sp, micro), v')
  {
    hide *;
    var p, g := Prog(sp), SpaceRegion(sp, micro);
    ProgIs(sp);
    MulEndLines(sp.start, sp.base);
    var c1 := ThenLabel(p, c0, c, n, g);
    var c2 := ThenLoadLeftX(p, c0, c1, n + 1, g, 3);
    Elsewhere(sp, m0, c, c2, st);
    var c3 := PushesX(sp, m0, c0, c2, n + 2, st, micro);
    d, e := Finishes(sp, m0, c0, c3, n + 3, g, v');
  }

  // ----- PRINT, DUP, SWAP, HALT -----

  lemma MeansPrint(m: Mem, v: Calc)
    requires !v.halted && Octet8(m, v.pc) == 5 && Needs(5) <= |v.stack|
    ensures |v.stack| >= 1
    ensures var st := v.stack; var n := |st|;
      CalcStep(m, v) == v.(out := v.out + [st[n - 1]], stack := st[..n - 1], pc := Up(v.pc, 8))
  {
    hide Octet8, Up;
  }

  lemma StepsPrint(sp: Space, m0: Mem, c: Mil, c0: Mil, n: nat, micro: nat, v: Calc) returns (d: Mil, e: nat)
    requires Entered(sp, m0, c, c0, n, micro, v) && Octet8(m0, v.pc) == 5
    ensures Performs(sp, m0, c, d, e, SpaceRegion(sp, micro), CalcStep(m0, v))
  {
    hide *;
    var p, g, st := Prog(sp), SpaceRegion(sp, micro), v.stack;
    OnEntry(sp, m0, c, c0, n, micro, v, 5);
    StackOnEntry(sp, m0, c, c0, n, micro, v);
    Routines();
    ProgIs(sp);
    PrintLines(sp.start, sp.base);
    MeansPrint(m0, v);
    var c1 := ThenLabel(p, c, c0, n, g);
    var c2 := ToStack(sp, m0, c, c1, n + 1, g, st);
    var c3 := PopsX(sp, m0, c, c2, n + 2, st, micro);
    d, e := Reports(sp, m0, c, c3, n + 4, g, CalcStep(m0, v));
  }

  /** XCH S0 F S1, MONITOR, GO TO FETCH. */
  lemma Reports(sp: Space, m0: Mem, c0: Mil, c: Mil, n: nat, g: Region, v: Calc) returns (d: Mil, e: nat)
    requires Running(Prog(sp), c0, c, n, g) && OnStack(sp, m0, c, v.stack) && c.pads[0].left == v.pc
    requires c.rets == [] && c.out + [c.x] == v.out && !v.halted && c.pc == 87
    ensures Performs(sp, m0, c0, d, e, g, v)
  {
    PrintLines(sp.start, sp.base);
    hide Leads, Guards, StackIn, SameOutside, CalcSource, Target;
    var c1 := ThenXch(Prog(sp), c0, c, n, g, 0, 1);
    var c2 := ThenMonitor(Prog(sp), c0, c1, n + 1, g);
    d := ThenGoTo(Prog(sp), c0, c2, n + 2, g, 8);
    e := n + 3;
  }

  lemma MeansDup(m: Mem, v: Calc)
    requires !v.halted && Octet8(m, v.pc) == 6 && Needs(6) <= |v.stack|
    ensures |v.stack| >= 1 && Grows(6) == 1
    ensures var st := v.stack; var n := |st|;
      CalcStep(m, v) == v.(stack := st[..n - 1] + [st[n - 1]] + [st[n - 1]], pc := Up(v.pc, 8))
  {
    hide Octet8, Up;
    assert v.stack[..|v.stack| - 1] + [v.stack[|v.stack| - 1]] == v.stack;
  }

  lemma StepsDup(sp: Space, m0: Mem, c: Mil, c0: Mil, n: nat, micro: nat, v: Calc) returns (d: Mil, e: nat)
    requires Entered(sp, m0, c, c0, n, micro, v) && Octet8(m0, v.pc) == 6
    ensures Performs(sp, m0, c, d, e, SpaceRegion(sp, micro), CalcStep(m0, v))
  {
    hide *;
    var p, g, st := Prog(sp), SpaceRegion(sp, micro), v.stack;
    OnEntry(sp, m0, c, c0, n, micro, v, 6);
    StackOnEntry(sp, m0, c, c0, n, micro, v);
    Routines();
    ProgIs(sp);
    DupLines(sp.start, sp.base);
    MeansDup(m0, v);
    var c1 := ThenLabel(p, c, c0, n, g);
    var c2 := ToStack(sp, m0, c, c1, n + 1, g, st);
    var c3 := PopsX(sp, m0, c, c2, n + 2, st, micro);
    var c4 := PushesX(sp, m0, c, c3, n + 4, st[..|st| - 1], micro);
    var c5 := PushesX(sp, m0, c, c4, n + 5, st[..|st| - 1] + [st[|st| - 1]], micro);
    d, e := Finishes(sp, m0, c, c5, n + 6, g, CalcStep(m0, v));
  }

  lemma MeansSwap(m: Mem, v: Calc)
    requires !v.halted && Octet8(m, v.pc) == 7 && Needs(7) <= |v.stack|
    ensures |v.stack| >= 2
    ensures var st := v.stack; var n := |st|;
      CalcStep(m, v) == v.(stack := st[..n - 2] + [st[n - 1]] + [st[n - 2]], pc := Up(v.pc, 8))
  {
    hide Octet8, Up;
  }

  lemma StepsSwap(sp: Space, m0: Mem, c: Mil, c0: Mil, n: nat, micro: nat, v: Calc) returns (d: Mil, e: nat)
    requires Entered(sp, m0, c, c0, n, micro, v) && Octet8(m0, v.pc) == 7
    ensures Performs(sp, m0, c, d, e, SpaceRegion(sp, micro), CalcStep(m0, v))
  {
    hide *;
    var p, g, st := Prog(sp), SpaceRegion(sp, micro), v.stack;
    OnEntry(sp, m0, c, c0, n, micro, v, 7);
    StackOnEntry(sp, m0, c, c0, n, micro, v);
    Routines();
    ProgIs(sp);
    SwapLines(sp.start, sp.base);
    MeansSwap(m0, v);
    Twice(st);
    var c1 := ThenLabel(p, c, c0, n, g);
    var c2 := ToStack(sp, m0, c, c1, n + 1, g, st);
    var c3 := PopsY(sp, m0, c, c2, n + 2, st, micro);
    var c4 := PopsX(sp, m0, c, c3, n + 4, st[..|st| - 1], micro);
    var c5 := PushesY(sp, m0, c, c4, n + 6, st[..|st| - 2], micro);
    var c6 := PushesX(sp, m0, c, c5, n + 7, st[..|st| - 2] + [st[|st| - 1]], micro);
    d, e := Finishes(sp, m0, c, c6, n + 8, g, CalcStep(m0, v));
  }

  lemma MeansHalt(m: Mem, v: Calc)
    requires !v.halted && (Octet8(m, v.pc) == 0 || Octet8(m, v.pc) >= 8)
    ensures CalcStep(m, v) == v.(halted := true, pc := Up(v.pc, 8))
  {
    hide Octet8, Up;
  }

  lemma StepsHalt(sp: Space, m0: Mem, c: Mil, c0: Mil, n: nat, micro: nat, v: Calc) returns (d: Mil, e: nat)
    requires Entered(sp, m0, c, c0, n, micro, v) && (Octet8(m0, v.pc) == 0 || Octet8(m0, v.pc) >= 8)
    ensures Performs(sp, m0, c, d, e, SpaceRegion(sp, micro), CalcStep(m0, v))
  {
    hide *;
    var p, g := Prog(sp), SpaceRegion(sp, micro);
    OnEntry(sp, m0, c, c0, n, micro, v, Octet8(m0, v.pc));
    Routines();
    ProgIs(sp);
    HaltLines(sp.start, sp.base);
    MeansHalt(m0, v);
    var c1 := ThenLabel(p, c, c0, n, g);
    d := ThenHalt(p, c, c1, n + 1, g);
    e := n + 2;
    HaltedPerforms(sp, m0, c, d, e, g, CalcStep(m0, v));
  }

  lemma HaltedPerforms(sp: Space, m0: Mem, c: Mil, d: Mil, e: nat, g: Region, v: Calc)
    requires Leads(Prog(sp), c, d, e, g) && e > 0 && d.halted && d.out == v.out && v.halted && SameOutside(m0, d.m, sp)
    requires d.rets == [] && d.cp == 0
    ensures Performs(sp, m0, c, d, e, g, v)
  {
    hide Leads, SameOutside;
  }

  // ----- one instruction -----

  /** From any FETCH state that stands for v, with its code and stack apart and no underflow or overflow, the
      interpreter's lines lead back to FETCH, or halt, standing for exactly one S-CALC step. */
  lemma PerformsStep(sp: Space, m0: Mem, c: Mil, micro: nat, v: Calc) returns (d: Mil, e: nat)
    requires Rep(sp, m0, c, v) && Within(m0, sp, v) && Laid(sp, micro, |m0|) && Guards(SpaceRegion(sp, micro), Prog(sp))
    ensures Performs(sp, m0, c, d, e, SpaceRegion(sp, micro), CalcStep(m0, v))
  {
    hide *;
    var c0, n := Enters(sp, m0, c, micro, v);
    var op := Octet8(m0, v.pc);
    if op == 1 {
      d, e := StepsPush(sp, m0, c, c0, n, micro, v);
    } else if op == 2 {
      d, e := StepsAdd(sp, m0, c, c0, n, micro, v);
    } else if op == 3 {
      d, e := StepsSub(sp, m0, c, c0, n, micro, v);
    } else if op == 4 {
      d, e := StepsMul(sp, m0, c, c0, n, micro, v);
    } else if op == 5 {
      d, e := StepsPrint(sp, m0, c, c0, n, micro, v);
    } else if op == 6 {
      d, e := StepsDup(sp, m0, c, c0, n, micro, v);
    } else if op == 7 {
      d, e := StepsSwap(sp, m0, c, c0, n, micro, v);
    } else {
      d, e := StepsHalt(sp, m0, c, c0, n, micro, v);
    }
  }
}
