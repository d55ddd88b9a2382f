/** The S-FORT language: source lines, which programs have no error, and what each line does, in the words of the
    source alone. */
module FortLanguage {
  import opened Registers

  /** An operand in upper case without its comma, and the number it reads as (NaN if it is not one). */
  datatype Number = NaN | Num(n: nat)
  datatype Operand = Operand(text: string, value: Number)

  /** A non-empty source line: a label definition or an operation with its operands. */
  datatype SourceLine = LabelLine(name: string) | Instr(op: string, ops: seq<Operand>)

  type Source = seq<SourceLine>

  /** The first line at or after i that defines the label, or |src|. */
  function FindLabel(src: Source, name: string, i: nat): (k: nat)
    requires i <= |src|
    ensures i <= k <= |src|
    ensures k < |src| ==> src[k] == LabelLine(name)
    ensures forall j :: i <= j < k ==> src[j] != LabelLine(name)
    decreases |src| - i
  {
    if i == |src| || src[i] == LabelLine(name) then i else FindLabel(src, name, i + 1)
  }

  // ----- programs without errors -----

  predicate IsReg(name: string) {
    name == "R0" || name == "R1" || name == "R2" || name == "R3"
  }

  /** The first n operands are there and name registers. */
  predicate RegNames(ops: seq<Operand>, n: nat) {
    n <= |ops| && forall k :: 0 <= k < n ==> IsReg(ops[k].text)
  }

  predicate IsArithmetic(op: string) { op == "ADD" || op == "SUB" || op == "MUL" }

  predicate IsBranch(op: string) { op == "BEQ" || op == "BNE" }

  predicate IsOperation(op: string) {
    op == "HALT" || op == "LOAD" || IsArithmetic(op) || op == "MOV" || op == "CMP" || IsBranch(op) || op == "PRINT"
  }

  /** The operands that the operation needs are there. */
  predicate OperandsFine(op: string, ops: seq<Operand>) {
    && (op == "LOAD" ==> RegNames(ops, 1) && |ops| >= 2 && ops[1].value.Num?)
    && (IsArithmetic(op) ==> RegNames(ops, 3))
    && (op == "MOV" || op == "CMP" ==> RegNames(ops, 2))
    && (IsBranch(op) ==> |ops| >= 1)
    && (op == "PRINT" ==> RegNames(ops, 1))
  }

  /** Line i has no error: a new label, or an operation with its operands, a branch to a label of the program. */
  predicate LineFine(src: Source, i: nat)
    requires i < |src|
  {
    match src[i]
    case LabelLine(name) => FindLabel(src, name, 0) == i
    case Instr(op, ops) =>
      && IsOperation(op) && OperandsFine(op, ops)
      && (IsBranch(op) ==> FindLabel(src, ops[0].text, 0) < |src|)
  }

  predicate ErrorFree(src: Source) {
    forall i :: 0 <= i < |src| ==> LineFine(src, i)
  }

  // ----- what a program does -----

  /** A running program: the line about to run, the registers, whether the last CMP found its operands equal. */
  datatype Fort = Fort(line: nat, r0: Word, r1: Word, r2: Word, r3: Word, equal: bool, out: seq<Word>, halted: bool)

  const START: Fort := Fort(0, 0, 0, 0, 0, true, [], false)

  /** The value of the named register. */
  function Value(f: Fort, name: string): Word {
    if name == "R0" then f.r0 else if name == "R1" then f.r1 else if name == "R2" then f.r2 else f.r3
  }

  /** The named register is set. */
  function Assign(f: Fort, name: string, v: Word): Fort {
    if name == "R0" then f.(r0 := v)
    else if name == "R1" then f.(r1 := v)
    else if name == "R2" then f.(r2 := v)
    else f.(r3 := v)
  }

  /** The first instruction at or after line i, or |src|. */
  function NextInstr(src: Source, i: nat): (k: nat)
    requires i <= |src|
    ensures i <= k <= |src| && (k < |src| ==> src[k].Instr?)
    decreases |src| - i
  {
    if i == |src| || src[i].Instr? then i else NextInstr(src, i + 1)
  }

  /** What the operation on line j does. */
  function Act(src: Source, j: nat, f: Fort): Fort
    requires j < |src| && src[j].Instr? && LineFine(src, j)
  {
    var op, ops, g := src[j].op, src[j].ops, f.(line := j + 1);
    if op == "HALT" then g.(halted := true)
    else if op == "LOAD" then Assign(g, ops[0].text, ops[1].value.n % 0x1_0000)
    else if op == "ADD" then Assign(g, ops[0].text, (Value(f, ops[1].text) + Value(f, ops[2].text)) % 0x100_0000)
    else if op == "SUB" then Assign(g, ops[0].text, (Value(f, ops[1].text) - Value(f, ops[2].text)) % 0x100_0000)
    else if op == "MUL" then Assign(g, ops[0].text, Value(f, ops[1].text) * Value(f, ops[2].text) % 0x100_0000)
    else if op == "MOV" then Assign(g, ops[0].text, Value(f, ops[1].text))
    else if op == "CMP" then g.(equal := Value(f, ops[0].text) == Value(f, ops[1].text))
    else if op == "BEQ" then if f.equal then f.(line := FindLabel(src, ops[0].text, 0)) else g
    else if op == "BNE" then if f.equal then g else f.(line := FindLabel(src, ops[0].text, 0))
    else g.(out := f.out + [Value(f, ops[0].text)])
  }

  /** Runs the next instruction; running off the end halts. */
  function Next(src: Source, f: Fort): Fort
    requires ErrorFree(src)
  {
    if f.halted || f.line > |src| then f
    else
      var j := NextInstr(src, f.line);
      if j == |src| then f.(halted := true)
      else
        assert LineFine(src, j);
        Act(src, j, f)
  }

  function Runs(src: Source, f: Fort, n: nat): Fort
    requires ErrorFree(src)
    decreases n
  {
    hide *;
    if n == 0 then f else Runs(src, Next(src, f), n - 1)
  }

  ghost predicate SourceHalts(src: Source)
    requires ErrorFree(src)
  {
    exists n: nat :: Runs(src, START, n).halted
  }
}
