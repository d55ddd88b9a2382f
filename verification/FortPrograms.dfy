/** S-FORT programs end to end: what the source says, the assembled bytes do. */
module FortPrograms {
  import opened Bits
  import opened BitMemory
  import opened Registers
  import opened Machine
  import opened FortVm
  import opened SCode
  import opened FortLanguage
  import opened FortAssembler
  import Boot
  import FortMicrocode
  import FortRuns
  import FortSteps
  import Mil

  // ----- the assembled lines -----

  lemma SoundLine(src: seq<SourceLine>, j: nat)
    requires ErrorFree(src) && j < |src| && src[j].Instr?
    ensures Meaning(src, j).Good? && Sound(Meaning(src, j).insn)
    ensures LineBytes(src, j) == Encode(Meaning(src, j).insn)
    ensures |LineBytes(src, j)| == LineSize(src[j]) > 0
  {
    hide Meaning, Encode, Sound, LineFine, OpSize;
    assert LineFine(src, j);
    FineTranslates(src, j);
    MeaningSize(src, j);
  }

  // ----- the bytes in memory -----

  /** The bytes b lie in memory from bit address `start`, followed by a zero byte. */
  predicate CodeIn(m: Mem, start: Word, b: seq<Octet>) {
    && start + 8 * |b| + 8 <= 0x100_0000
    && (forall i {:trigger b[i]} :: 0 <= i < |b| ==> Octet8(m, start + 8 * i) == b[i])
    && Octet8(m, start + 8 * |b|) == 0
  }

  /** The instruction bytes b lie at bit address a. */
  predicate BytesAt(m: Mem, a: Word, b: seq<Octet>) {
    && a + 8 * |b| + 8 <= 0x100_0000
    && (|b| > 0 ==> Octet8(m, a) == b[0])
    && (|b| > 1 ==> Octet8(m, a + 8) == b[1])
    && (|b| > 2 ==> Octet8(m, a + 16) == b[2])
    && (|b| > 3 ==> Octet8(m, a + 24) == b[3])
  }

  lemma CodeAtLine(src: seq<SourceLine>, m: Mem, start: Word, j: nat)
    requires ErrorFree(src) && CodeIn(m, start, Bytes(src, |src|)) && j < |src| && src[j].Instr?
    ensures start + 8 * Pos(src, j) < 0x100_0000 && Meaning(src, j).Good?
    ensures BytesAt(m, start + 8 * Pos(src, j), Encode(Meaning(src, j).insn))
    ensures Pos(src, j + 1) == Pos(src, j) + |Encode(Meaning(src, j).insn)|
    ensures Pos(src, j + 1) <= |Bytes(src, |src|)|
  {
    hide Meaning, Encode, LineBytes, Octet8, ErrorFree, Bytes, LineSize;
    SoundLine(src, j);
    BytesStep(src, j);
    PassesAgree(src, j);
    BytesPrefix(src, j + 1, |src|);
    var all, a, line := Bytes(src, |src|), Pos(src, j), LineBytes(src, j);
    var front := Bytes(src, j + 1);
    assert front == all[..|front|];
    forall k | 0 <= k < |line|
      ensures all[a + k] == line[k] && Octet8(m, start + 8 * (a + k)) == line[k]
    {
      assert front[a + k] == line[k];
      assert Octet8(m, start + 8 * (a + k)) == all[a + k];
    }
    PassesAgree(src, j + 1);
  }

  lemma TwoOctets(m: Mem, a: Word)
    requires a + 8 < 0x100_0000
    ensures Octets16(m, a) == 256 * Octet8(m, a) + Octet8(m, a + 8)
  {
    ReadConcat(m, a, 8, 8);
    Pow2Values();
    hide ReadField;
  }

  lemma UpWithin(a: Word, n: nat)
    requires a + n < 0x100_0000
    ensures Up(a, n) == a + n
  {
  }

  /** The machine's instruction is the one the bytes encode. */
  lemma DoesEncoded(m: Mem, start: Word, v: Vm, n: Insn)
    requires !v.halted && Sound(n) && BytesAt(m, v.pc, Encode(n))
    ensures VmStep(m, start, v) == VmPerform(start, v, n)
  {
    if n.Load? || n.Branch? {
      DoesWide(m, start, v, n);
    } else if n.Arith? {
      DoesArith(m, start, v, n);
    } else {
      DoesShort(m, start, v, n);
    }
    hide VmStep, VmPerform;
  }

  lemma DoesWide(m: Mem, start: Word, v: Vm, n: Insn)
    requires !v.halted && Sound(n) && BytesAt(m, v.pc, Encode(n)) && (n.Load? || n.Branch?)
    ensures VmStep(m, start, v) == VmPerform(start, v, n)
  {
    hide Octet8, Octets16, Up;
    UpWithin(v.pc, 8);
    if n.Load? {
      UpWithin(v.pc + 8, 8);
      UpWithin(v.pc + 16, 16);
      TwoOctets(m, v.pc + 16);
    } else {
      UpWithin(v.pc + 8, 16);
      TwoOctets(m, v.pc + 8);
    }
  }

  lemma DoesArith(m: Mem, start: Word, v: Vm, n: Insn)
    requires !v.halted && Sound(n) && BytesAt(m, v.pc, Encode(n)) && n.Arith?
    ensures VmStep(m, start, v) == VmPerform(start, v, n)
  {
    hide Octet8, Octets16, Up;
    UpWithin(v.pc, 8);
    UpWithin(v.pc + 8, 8);
    UpWithin(v.pc + 16, 8);
    UpWithin(v.pc + 24, 8);
  }

  lemma DoesShort(m: Mem, start: Word, v: Vm, n: Insn)
    requires !v.halted && Sound(n) && BytesAt(m, v.pc, Encode(n)) && (n.Halt? || n.Move? || n.Compare? || n.Print?)
    ensures VmStep(m, start, v) == VmPerform(start, v, n)
  {
    hide Octet8, Octets16, Up;
    UpWithin(v.pc, 8);
    if !n.Halt? {
      UpWithin(v.pc + 8, 8);
    }
    if n.Move? || n.Compare? {
      UpWithin(v.pc + 16, 8);
    }
  }

  /** What an instruction does to the S-FORT machine, in terms of its fields. */
  function VmPerform(start: Word, v: Vm, n: Insn): Vm
    requires Sound(n)
  {
    var next := (v.pc + 8 * |Encode(n)|) % 0x100_0000;
    match n
    case Halt => v.(halted := true, pc := next)
    case Load(rd, imm) => v.(regs := v.regs[rd := imm], pc := next)
    case Arith(opc, rd, rs1, rs2) => v.(regs := v.regs[rd := SCode.Arith(opc, v.regs[rs1], v.regs[rs2])], pc := next)
    case Move(rd, rs) => v.(regs := v.regs[rd := v.regs[rs]], pc := next)
    case Compare(rs1, rs2) => v.(flag := if v.regs[rs1] == v.regs[rs2] then 0 else 1, pc := next)
    case Branch(onEqual, offset) => v.(pc := if (v.flag == 0) == onEqual then Up(offset, start) else next)
    case Print(rs) => v.(out := v.out + [v.regs[rs]], pc := next)
  }

  // ----- the machine follows the source -----

  function Bank(f: Fort): RegBank {
    [f.r0, f.r1, f.r2, f.r3]
  }

  /** The S-FORT machine v is at the code of the line that the source program f is about to run. */
  predicate Follows(src: seq<SourceLine>, start: Word, v: Vm, f: Fort) {
    && v.halted == f.halted && v.out == f.out && v.regs == Bank(f) && (v.flag == 0) == f.equal
    && (!f.halted ==> f.line <= |src| && v.pc == start + 8 * Pos(src, f.line))
  }

  lemma {:induction false} SkipsLabels(src: seq<SourceLine>, i: nat)
    requires i <= |src|
    ensures Pos(src, NextInstr(src, i)) == Pos(src, i)
    decreases |src| - i
  {
    if i < |src| && src[i].LabelLine? {
      SkipsLabels(src, i + 1);
    }
  }

  lemma {:induction false} PosMonotone(src: seq<SourceLine>, i: nat, j: nat)
    requires i <= j <= |src|
    ensures Pos(src, i) <= Pos(src, j)
  {
    hide LineSize;
    if i < j {
      PosMonotone(src, i, j - 1);
    }
  }

  /** The numbered register is the named one. */
  lemma NamesRegister(f: Fort, name: string, x: Word)
    requires IsReg(name)
    ensures var k := ParseReg(name);
      0 <= k < 4 && Bank(f)[k] == Value(f, name) && Bank(Assign(f, name, x)) == Bank(f)[k := x]
  {
  }

  lemma AssignKeeps(f: Fort, name: string, x: Word)
    ensures var g := Assign(f, name, x);
      g.line == f.line && g.equal == f.equal && g.out == f.out && g.halted == f.halted
  {
  }

  /** The machine at the code of line j, the source program about to run it, and where the code of the next line is. */
  predicate AtLine(src: Source, start: Word, v: Vm, f: Fort, j: nat, size: nat) {
    && j < |src| && src[j].Instr? && LineFine(src, j) && Follows(src, start, v, f) && !f.halted
    && v.pc == start + 8 * Pos(src, j) && Pos(src, j + 1) == Pos(src, j) + size
    && start + 8 * Pos(src, j + 1) + 8 <= 0x100_0000
  }

  /** Setting a register and going on. */
  lemma FollowsAssign(src: Source, start: Word, v: Vm, f: Fort, j: nat, size: nat, v': Vm, name: string, x: Word)
    requires AtLine(src, start, v, f, j, size) && IsReg(name)
    requires ParseReg(name) >= 0 ==>
      v' == v.(regs := v.regs[ParseReg(name) % 4 := x], pc := (v.pc + 8 * size) % 0x100_0000)
    ensures Follows(src, start, v', Assign(f.(line := j + 1), name, x))
  {
    var g := f.(line := j + 1);
    NamesRegister(g, name, x);
    AssignKeeps(g, name, x);
    hide Pos, ParseReg, Assign, IsReg, LineFine;
  }

  /** What the operations translate to. */
  lemma TranslatesArith(op: string, ops: seq<Operand>, target: int)
    requires IsArithmetic(op) && RegNames(ops, 3)
    ensures Translate(op, ops, target) == Good(Insn.Arith(if op == "ADD" then 2 else if op == "SUB" then 3 else 4,
                                          ParseReg(ops[0].text), ParseReg(ops[1].text), ParseReg(ops[2].text)))
  {
    RegsParse(ops);
    hide ParseReg, RegNames, BitOffset;
  }

  lemma TranslatesMoves(op: string, ops: seq<Operand>, target: int)
    requires (op == "MOV" || op == "CMP") && RegNames(ops, 2)
    ensures Translate(op, ops, target) ==
      if op == "MOV" then Good(Insn.Move(ParseReg(ops[0].text), ParseReg(ops[1].text)))
      else Good(Insn.Compare(ParseReg(ops[0].text), ParseReg(ops[1].text)))
  {
    RegsParse(ops);
    hide ParseReg, RegNames, BitOffset;
  }

  lemma TranslatesOthers(op: string, ops: seq<Operand>, target: int)
    requires op == "LOAD" || op == "PRINT" ==> RegNames(ops, 1)
    ensures op == "HALT" ==> Translate(op, ops, target) == Good(Insn.Halt)
    ensures op == "LOAD" && |ops| >= 2 && ops[1].value.Num?
      ==> Translate(op, ops, target) == Good(Insn.Load(ParseReg(ops[0].text), ops[1].value.n % 0x1_0000))
    ensures op == "PRINT" ==> Translate(op, ops, target) == Good(Insn.Print(ParseReg(ops[0].text)))
    ensures IsBranch(op) && |ops| >= 1 && target >= 0
      ==> Translate(op, ops, target) == Good(Insn.Branch(op == "BEQ", BitOffset(target)))
  {
    RegsParse(ops);
    hide ParseReg, RegNames, BitOffset;
  }

  lemma Named(ops: seq<Operand>, n: nat, k: nat)
    requires RegNames(ops, n) && k < n
    ensures k < |ops| && IsReg(ops[k].text)
  {
    hide IsReg;
  }

  lemma AtLineMeans(src: Source, start: Word, v: Vm, f: Fort, j: nat, size: nat)
    requires AtLine(src, start, v, f, j, size)
    ensures v.regs == Bank(f) && (v.flag == 0) == f.equal && !f.halted && j < |src| && src[j].Instr? && LineFine(src, j)
    ensures v.pc == start + 8 * Pos(src, j) && Pos(src, j + 1) == Pos(src, j) + size
  {
    hide Bank, LineFine, Pos;
  }

  lemma ActArith(src: Source, j: nat, f: Fort)
    requires j < |src| && src[j].Instr? && LineFine(src, j) && IsArithmetic(src[j].op)
    ensures var op, ops := src[j].op, src[j].ops;
      && RegNames(ops, 3) && |ops| >= 3
      && Act(src, j, f) == Assign(f.(line := j + 1), ops[0].text,
           SCode.Arith(if op == "ADD" then 2 else if op == "SUB" then 3 else 4,
                       Value(f, ops[1].text), Value(f, ops[2].text)))
  {
    hide Assign, Value, FindLabel, IsReg;
  }

  lemma PerformArith(start: Word, v: Vm, n: Insn)
    requires Sound(n) && n.Arith?
    ensures VmPerform(start, v, n)
      == v.(regs := v.regs[n.rd := SCode.Arith(n.opc, v.regs[n.rs1], v.regs[n.rs2])], pc := (v.pc + 32) % 0x100_0000)
  {
    hide SCode.Arith;
  }

  lemma SoundRegs(n: Insn)
    ensures n.Arith? && 2 <= n.opc <= 4 && n.rd < 4 && n.rs1 < 4 && n.rs2 < 4 ==> Sound(n)
    ensures n.Move? && n.rd < 4 && n.rs < 4 ==> Sound(n)
    ensures n.Compare? && n.rs1 < 4 && n.rs2 < 4 ==> Sound(n)
    ensures n.Branch? ==> Sound(n)
    ensures Sound(n) && n.Arith? ==> n.rd < 4 && n.rs1 < 4 && n.rs2 < 4
  {
  }

  lemma FollowsArith(src: Source, start: Word, v: Vm, f: Fort, j: nat)
    requires AtLine(src, start, v, f, j, 4) && IsArithmetic(src[j].op)
    ensures Meaning(src, j).Good? && Sound(Meaning(src, j).insn)
    ensures Follows(src, start, VmPerform(start, v, Meaning(src, j).insn), Act(src, j, f))
  {
    hide *;
    AtLineMeans(src, start, v, f, j, 4);
    ActArith(src, j, f);
    var op, ops := src[j].op, src[j].ops;
    MeaningIs(src, j);
    TranslatesArith(op, ops, LabelPos(src, BranchName(ops)));
    Named(ops, 3, 0);
    Named(ops, 3, 1);
    Named(ops, 3, 2);
    NamesRegister(f, ops[0].text, 0);
    NamesRegister(f, ops[1].text, 0);
    NamesRegister(f, ops[2].text, 0);
    var n := Meaning(src, j).insn;
    SoundRegs(n);
    PerformArith(start, v, n);
    FollowsAssign(src, start, v, f, j, 4, VmPerform(start, v, n), ops[0].text,
                  SCode.Arith(n.opc, Value(f, ops[1].text), Value(f, ops[2].text)));
  }

  lemma ActMoves(src: Source, j: nat, f: Fort)
    requires j < |src| && src[j].Instr? && LineFine(src, j) && (src[j].op == "MOV" || src[j].op == "CMP")
    ensures var op, ops := src[j].op, src[j].ops;
      && RegNames(ops, 2) && |ops| >= 2
      && Act(src, j, f) ==
         if op == "MOV" then Assign(f.(line := j + 1), ops[0].text, Value(f, ops[1].text))
         else f.(line := j + 1, equal := Value(f, ops[0].text) == Value(f, ops[1].text))
  {
    hide Assign, Value, FindLabel, IsReg;
  }

  lemma PerformMoves(start: Word, v: Vm, n: Insn)
    requires (n.Move? && n.rd < 4 && n.rs < 4) || (n.Compare? && n.rs1 < 4 && n.rs2 < 4)
    ensures Sound(n) && VmPerform(start, v, n)
      == if n.Move? then v.(regs := v.regs[n.rd := v.regs[n.rs]], pc := (v.pc + 24) % 0x100_0000)
         else v.(flag := if v.regs[n.rs1] == v.regs[n.rs2] then 0 else 1, pc := (v.pc + 24) % 0x100_0000)
  {
  }

  /** Going on without touching a register. */
  lemma FollowsOn(src: Source, start: Word, v: Vm, f: Fort, j: nat, size: nat, v': Vm, g: Fort)
    requires AtLine(src, start, v, f, j, size)
    requires v' == v.(pc := (v.pc + 8 * size) % 0x100_0000, flag := v'.flag, out := v'.out, halted := v'.halted)
    requires g == f.(line := j + 1, equal := v'.flag == 0, out := v'.out, halted := v'.halted)
    ensures Follows(src, start, v', g)
  {
    hide Pos, LineFine;
  }

  lemma AtLineState(src: Source, start: Word, v: Vm, f: Fort, j: nat, size: nat)
    requires AtLine(src, start, v, f, j, size)
    ensures v.out == f.out && !v.halted && !f.halted
  {
    hide Bank, LineFine, Pos;
  }

  lemma FollowsMoves(src: Source, start: Word, v: Vm, f: Fort, j: nat)
    requires AtLine(src, start, v, f, j, 3) && (src[j].op == "MOV" || src[j].op == "CMP")
    ensures Meaning(src, j).Good? && Sound(Meaning(src, j).insn)
    ensures Follows(src, start, VmPerform(start, v, Meaning(src, j).insn), Act(src, j, f))
  {
    hide *;
    AtLineMeans(src, start, v, f, j, 3);
    AtLineState(src, start, v, f, j, 3);
    ActMoves(src, j, f);
    var op, ops := src[j].op, src[j].ops;
    MeaningIs(src, j);
    TranslatesMoves(op, ops, LabelPos(src, BranchName(ops)));
    Named(ops, 2, 0);
    Named(ops, 2, 1);
    NamesRegister(f, ops[0].text, 0);
    NamesRegister(f, ops[1].text, 0);
    var n := Meaning(src, j).insn;
    PerformMoves(start, v, n);
    if op == "MOV" {
      FollowsAssign(src, start, v, f, j, 3, VmPerform(start, v, n), ops[0].text, Value(f, ops[1].text));
    } else {
      FollowsOn(src, start, v, f, j, 3, VmPerform(start, v, n), Act(src, j, f));
    }
  }

  lemma FollowsHalt(src: Source, start: Word, v: Vm, f: Fort, j: nat)
    requires AtLine(src, start, v, f, j, 1) && src[j].op == "HALT"
    ensures Meaning(src, j).Good? && Sound(Meaning(src, j).insn)
    ensures Follows(src, start, VmPerform(start, v, Meaning(src, j).insn), Act(src, j, f))
  {
    MeaningIs(src, j);
    TranslatesOthers(src[j].op, src[j].ops, LabelPos(src, BranchName(src[j].ops)));
    hide Translate, Meaning, LineFine, Pos;
  }

  lemma FollowsLoad(src: Source, start: Word, v: Vm, f: Fort, j: nat)
    requires AtLine(src, start, v, f, j, 4) && src[j].op == "LOAD"
    ensures Meaning(src, j).Good? && Sound(Meaning(src, j).insn)
    ensures Follows(src, start, VmPerform(start, v, Meaning(src, j).insn), Act(src, j, f))
  {
    var ops := src[j].ops;
    assert RegNames(ops, 1) && v.regs == Bank(f);
    MeaningIs(src, j);
    TranslatesOthers(src[j].op, ops, LabelPos(src, BranchName(ops)));
    Named(ops, 1, 0);
    NamesRegister(f, ops[0].text, 0);
    var x := ops[1].value.n % 0x1_0000;
    assert Act(src, j, f) == Assign(f.(line := j + 1), ops[0].text, x);
    var n := Meaning(src, j).insn;
    hide Act, Follows, Translate, Meaning, LineFine, ParseReg, IsReg, Bank, Assign, Pos;
    FollowsAssign(src, start, v, f, j, 4, VmPerform(start, v, n), ops[0].text, x);
  }

  lemma FollowsPrint(src: Source, start: Word, v: Vm, f: Fort, j: nat)
    requires AtLine(src, start, v, f, j, 2) && src[j].op == "PRINT"
    ensures Meaning(src, j).Good? && Sound(Meaning(src, j).insn)
    ensures Follows(src, start, VmPerform(start, v, Meaning(src, j).insn), Act(src, j, f))
  {
    var ops := src[j].ops;
    assert RegNames(ops, 1) && v.regs == Bank(f);
    MeaningIs(src, j);
    TranslatesOthers(src[j].op, ops, LabelPos(src, BranchName(ops)));
    Named(ops, 1, 0);
    NamesRegister(f, ops[0].text, 0);
    hide Translate, Meaning, LineFine, ParseReg, IsReg, Value, Pos;
  }

  lemma ActBranch(src: Source, j: nat, f: Fort)
    requires j < |src| && src[j].Instr? && LineFine(src, j) && IsBranch(src[j].op)
    ensures |src[j].ops| >= 1 && BranchName(src[j].ops) == src[j].ops[0].text
    ensures var k := FindLabel(src, src[j].ops[0].text, 0);
      k < |src| && Act(src, j, f) == f.(line := if f.equal == (src[j].op == "BEQ") then k else j + 1)
  {
    hide FindLabel;
  }

  lemma PerformBranch(start: Word, v: Vm, n: Insn)
    requires n.Branch?
    ensures Sound(n) && VmPerform(start, v, n)
      == v.(pc := if (v.flag == 0) == n.onEqual then (n.offset + start) % 0x100_0000 else (v.pc + 24) % 0x100_0000)
  {
  }

  lemma FollowsTo(src: Source, start: Word, v: Vm, f: Fort, j: nat, size: nat, k: nat)
    requires AtLine(src, start, v, f, j, size) && k <= |src|
    requires start + 8 * Pos(src, k) < 0x100_0000
    ensures Follows(src, start, v.(pc := (8 * Pos(src, k) + start) % 0x100_0000), f.(line := k))
  {
    hide Pos, LineFine;
  }

  lemma FollowsBranch(src: Source, start: Word, v: Vm, f: Fort, j: nat)
    requires AtLine(src, start, v, f, j, 3) && IsBranch(src[j].op)
    requires forall k :: 0 <= k <= |src| ==> Pos(src, k) < 8192 && start + 8 * Pos(src, k) + 8 <= 0x100_0000
    ensures Meaning(src, j).Good? && Sound(Meaning(src, j).insn)
    ensures Follows(src, start, VmPerform(start, v, Meaning(src, j).insn), Act(src, j, f))
  {
    hide *;
    AtLineMeans(src, start, v, f, j, 3);
    AtLineState(src, start, v, f, j, 3);
    ActBranch(src, j, f);
    var op, ops := src[j].op, src[j].ops;
    assert op != "LOAD" && op != "PRINT" by {
      BranchOnly(op);
    }
    var k := FindLabel(src, ops[0].text, 0);
    MeaningIs(src, j);
    TranslatesOthers(op, ops, Pos(src, k));
    OffsetExact(Pos(src, k));
    var n := Meaning(src, j).insn;
    PerformBranch(start, v, n);
    if f.equal == (op == "BEQ") {
      FollowsTo(src, start, v, f, j, 3, k);
    } else {
      FollowsOn(src, start, v, f, j, 3, VmPerform(start, v, n), Act(src, j, f));
    }
  }

  lemma BranchOnly(op: string)
    requires IsBranch(op)
    ensures op != "LOAD" && op != "PRINT"
  {
  }

  /** What the line's translation does to the machine is what the line does. */
  lemma FollowsAct(src: Source, start: Word, v: Vm, f: Fort, j: nat)
    requires j < |src| && src[j].Instr? && AtLine(src, start, v, f, j, OpSize(src[j].op))
    requires forall k :: 0 <= k <= |src| ==> Pos(src, k) < 8192 && start + 8 * Pos(src, k) + 8 <= 0x100_0000
    ensures Meaning(src, j).Good? && Sound(Meaning(src, j).insn)
    ensures Follows(src, start, VmPerform(start, v, Meaning(src, j).insn), Act(src, j, f))
  {
    var op := src[j].op;
    assert IsOperation(op);
    hide AtLine, VmPerform, Act, Follows, Meaning, Sound, LineFine, Pos;
    if op == "HALT" {
      FollowsHalt(src, start, v, f, j);
    } else if op == "LOAD" {
      FollowsLoad(src, start, v, f, j);
    } else if IsArithmetic(op) {
      FollowsArith(src, start, v, f, j);
    } else if op == "MOV" || op == "CMP" {
      FollowsMoves(src, start, v, f, j);
    } else if IsBranch(op) {
      FollowsBranch(src, start, v, f, j);
    } else {
      FollowsPrint(src, start, v, f, j);
    }
  }

  /** One instruction of the machine is one step of the source. */
  lemma FollowsStep(src: seq<SourceLine>, m: Mem, start: Word, v: Vm, f: Fort)
    requires ErrorFree(src) && CodeIn(m, start, Bytes(src, |src|)) && |Bytes(src, |src|)| < 8192
    requires Follows(src, start, v, f)
    ensures Follows(src, start, VmStep(m, start, v), Next(src, f))
  {
    hide *;
    if f.halted {
      HaltedFollows(src, m, start, v, f);
    } else {
      FollowsAt(src, start, v, f);
      var j := NextInstr(src, f.line);
      SkipsLabels(src, f.line);
      if j == |src| {
        RunsOff(src, m, start, v, f);
      } else {
        SoundLine(src, j);
        CodeAtLine(src, m, start, j);
        DoesEncoded(m, start, v, Meaning(src, j).insn);
        forall k | 0 <= k <= |src|
          ensures Pos(src, k) < 8192 && start + 8 * Pos(src, k) + 8 <= 0x100_0000
        {
          InRange(src, m, start, k);
        }
        MakeAtLine(src, start, v, f, j);
        FollowsAct(src, start, v, f, j);
        NextIs(src, f, j);
      }
    }
  }

  lemma MakeAtLine(src: Source, start: Word, v: Vm, f: Fort, j: nat)
    requires ErrorFree(src) && j < |src| && src[j].Instr? && Follows(src, start, v, f) && !f.halted
    requires v.pc == start + 8 * Pos(src, j) && start + 8 * Pos(src, j + 1) + 8 <= 0x100_0000
    ensures AtLine(src, start, v, f, j, OpSize(src[j].op))
  {
    hide LineFine, Follows, OpSize;
  }

  lemma NextIs(src: seq<SourceLine>, f: Fort, j: nat)
    requires ErrorFree(src) && !f.halted && f.line <= |src| && j == NextInstr(src, f.line) < |src|
    ensures LineFine(src, j) && Next(src, f) == Act(src, j, f)
  {
    hide Act, LineFine, NextInstr;
  }

  /** Positions stay below the end of the code. */
  lemma InRange(src: seq<SourceLine>, m: Mem, start: Word, i: nat)
    requires ErrorFree(src) && CodeIn(m, start, Bytes(src, |src|)) && i <= |src|
    ensures Pos(src, i) <= |Bytes(src, |src|)| && start + 8 * Pos(src, i) + 8 <= 0x100_0000
    ensures i < |src| ==> start + 8 * Pos(src, i + 1) + 8 <= 0x100_0000
  {
    hide ErrorFree, Pos, Bytes, Octet8;
    PosMonotone(src, i, |src|);
    if i < |src| {
      PosMonotone(src, i + 1, |src|);
    }
    PassesAgree(src, |src|);
  }

  lemma HaltedFollows(src: seq<SourceLine>, m: Mem, start: Word, v: Vm, f: Fort)
    requires ErrorFree(src) && Follows(src, start, v, f) && f.halted
    ensures Follows(src, start, VmStep(m, start, v), Next(src, f))
  {
    hide ErrorFree, Pos, Octet8, Octets16;
  }

  lemma FollowsAt(src: seq<SourceLine>, start: Word, v: Vm, f: Fort)
    requires Follows(src, start, v, f) && !f.halted
    ensures !v.halted && f.line <= |src| && v.pc == start + 8 * Pos(src, f.line)
  {
    hide Pos;
  }

  lemma RunsOff(src: seq<SourceLine>, m: Mem, start: Word, v: Vm, f: Fort)
    requires ErrorFree(src) && CodeIn(m, start, Bytes(src, |src|)) && Follows(src, start, v, f) && !f.halted
    requires f.line <= |src| && NextInstr(src, f.line) == |src| && v.pc == start + 8 * Pos(src, |src|)
    ensures Follows(src, start, VmStep(m, start, v), Next(src, f))
  {
    hide ErrorFree, Pos, Octet8, Octets16, Bytes, NextInstr, VmStep;
    PassesAgree(src, |src|);
    FortSteps.MeansHalt(m, start, v);
  }

  lemma {:induction false} FollowsRun(src: seq<SourceLine>, m: Mem, start: Word, v: Vm, f: Fort, n: nat)
    requires ErrorFree(src) && CodeIn(m, start, Bytes(src, |src|)) && |Bytes(src, |src|)| < 8192
    requires Follows(src, start, v, f)
    ensures Follows(src, start, VmRun(m, start, v, n), Runs(src, f, n))
    decreases n
  {
    hide VmStep, Next, Follows, ErrorFree, CodeIn, Bytes;
    if n > 0 {
      FollowsStep(src, m, start, v, f);
      FollowsRun(src, m, start, VmStep(m, start, v), Next(src, f), n - 1);
    }
  }

  // ----- end to end -----

  /** The machine is about to run the interpreter on the assembled program, its registers cleared. */
  ghost predicate Prepared(src: seq<SourceLine>, start: Word, s: State) {
    && Boot.Booted(FortMicrocode.FortSource(start), s) && s.out == []
    && s.r.pads[1].left == 0 && s.r.pads[4].left == 0 && s.r.pads[5].left == 0
    && s.r.pads[6].left == 0 && s.r.pads[7].left == 0
    && CodeIn(s.m, start, Bytes(src, |src|)) && |Bytes(src, |src|)| < 8192
  }

  lemma Starts(src: seq<SourceLine>, start: Word, s: State)
    requires ErrorFree(src) && Prepared(src, start, s)
    ensures Follows(src, start, FortRuns.InitialVm(start, s), START)
    ensures Boot.Booted(FortMicrocode.FortSource(start), s)
    ensures CodeIn(s.m, start, Bytes(src, |src|)) && |Bytes(src, |src|)| < 8192
  {
    hide ErrorFree, CodeIn, Bytes, Boot.Booted;
  }

  lemma FollowsMeans(src: seq<SourceLine>, start: Word, v: Vm, f: Fort)
    requires Follows(src, start, v, f)
    ensures v.out == f.out && v.halted == f.halted
  {
    hide Pos;
  }

  /** The interpreter running the assembled bytes prints what n steps of the source print and halts if they do. */
  lemma PrintsSource(src: seq<SourceLine>, start: Word, s: State, n: nat) returns (k: nat)
    requires ErrorFree(src) && Prepared(src, start, s)
    ensures var f := Runs(src, START, n); var t := Run(s, k);
      t.out == f.out && t.r.halted == f.halted && (!f.halted ==> k >= n)
  {
    hide *;
    Starts(src, start, s);
    k := FortRuns.Interprets(start, s, n);
    FollowsRun(src, s.m, start, FortRuns.InitialVm(start, s), START, n);
    FollowsMeans(src, start, VmRun(s.m, start, FortRuns.InitialVm(start, s), n), Runs(src, START, n));
  }

  /** Everything the machine has printed after any k steps, the source prints; once it has halted, so has the source,
      having printed the same. */
  lemma PrintsOnlySource(src: seq<SourceLine>, start: Word, s: State, k: nat) returns (n: nat)
    requires ErrorFree(src) && Prepared(src, start, s)
    ensures var f := Runs(src, START, n);
      Run(s, k).out <= f.out && (Run(s, k).r.halted ==> f.halted && f.out == Run(s, k).out)
  {
    hide *;
    Starts(src, start, s);
    n := FortRuns.Faithful(start, s, k);
    FollowsRun(src, s.m, start, FortRuns.InitialVm(start, s), START, n);
    FollowsMeans(src, start, VmRun(s.m, start, FortRuns.InitialVm(start, s), n), Runs(src, START, n));
  }

  lemma SourceHaltsBy(src: seq<SourceLine>, n: nat)
    requires ErrorFree(src) && Runs(src, START, n).halted
    ensures SourceHalts(src)
  {
    hide ErrorFree, Runs;
  }

  lemma SourceHaltingTime(src: seq<SourceLine>) returns (n: nat)
    requires ErrorFree(src) && SourceHalts(src)
    ensures Runs(src, START, n).halted
  {
    hide ErrorFree, Runs;
    n :| Runs(src, START, n).halted;
  }

  /** End to end: the machine halts exactly when the source program does. */
  lemma HaltsLikeSource(src: seq<SourceLine>, start: Word, s: State)
    requires ErrorFree(src) && Prepared(src, start, s)
    ensures Boot.Halts(s) <==> SourceHalts(src)
  {
    hide *;
    if Boot.Halts(s) {
      var k := Boot.HaltingTime(s);
      var n := PrintsOnlySource(src, start, s, k);
      SourceHaltsBy(src, n);
    }
    if SourceHalts(src) {
      var n := SourceHaltingTime(src);
      var k := PrintsSource(src, start, s, n);
      Boot.HaltsBy(s, k);
    }
  }
}
