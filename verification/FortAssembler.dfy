/** The two-pass S-FORT assembler, from tokenised source lines to bytes. */
module FortAssembler {
  import opened Bits
  import opened Registers
  import opened FortLanguage

  /** What one instruction's bytes say. Branch offsets are in bits from the start of the code. */
  datatype Insn =
    | Halt
    | Load(rd: nat, imm: Half)
    | Arith(opc: nat, rd: nat, rs1: nat, rs2: nat)
    | Move(rd: nat, rs: nat)
    | Compare(rs1: nat, rs2: nat)
    | Branch(onEqual: bool, offset: Half)
    | Print(rs: nat)

  datatype Translation = Bad | Good(insn: Insn)

  /** An instruction collected by the first pass, with its byte position. */
  datatype Instruction = Instruction(op: string, ops: seq<Operand>, pos: nat)

  datatype Result = Failed(errors: nat) | Assembled(code: seq<Octet>)

  // ----- sizes and positions -----

  /** Bytes of an operation, zero for an unknown one. */
  function OpSize(op: string): nat {
    if op == "HALT" then 1
    else if op == "LOAD" then 4
    else if op == "ADD" || op == "SUB" || op == "MUL" then 4
    else if op == "MOV" then 3
    else if op == "CMP" then 3
    else if op == "BEQ" || op == "BNE" then 3
    else if op == "PRINT" then 2
    else 0
  }

  predicate Known(op: string) {
    OpSize(op) > 0
  }

  function LineSize(l: SourceLine): nat {
    if l.LabelLine? then 0 else OpSize(l.op)
  }

  /** Byte position of line i. */
  function Pos(src: seq<SourceLine>, i: nat): nat
    requires i <= |src|
  {
    if i == 0 then 0 else Pos(src, i - 1) + LineSize(src[i - 1])
  }

  // ----- one instruction -----

  /** Register number, or -1. */
  function ParseReg(text: string): int {
    if text == "R0" then 0 else if text == "R1" then 1 else if text == "R2" then 2 else if text == "R3" then 3 else -1
  }

  /** A label's operand: its position in bits, cut to 16 bits. */
  function BitOffset(pos: nat): Half {
    8 * pos % 0x1_0000
  }

  /** The operand is the label's position in bits exactly for positions below 8192. */
  lemma OffsetExact(pos: nat)
    ensures BitOffset(pos) == 8 * pos <==> pos < 8192
  {
  }

  /** What the second pass makes of an instruction; a branch goes to byte `target` (-1 when undefined). */
  function Translate(op: string, ops: seq<Operand>, target: int): Translation {
    if op == "HALT" then Good(Halt)
    else if op == "LOAD" then
      if |ops| < 2 || ParseReg(ops[0].text) < 0 || ops[1].value.NaN? then Bad
      else Good(Load(ParseReg(ops[0].text), ops[1].value.n % 0x1_0000))
    else if op == "ADD" || op == "SUB" || op == "MUL" then
      if |ops| < 3 || ParseReg(ops[0].text) < 0 || ParseReg(ops[1].text) < 0 || ParseReg(ops[2].text) < 0 then Bad
      else Good(Arith(if op == "ADD" then 2 else if op == "SUB" then 3 else 4,
                      ParseReg(ops[0].text), ParseReg(ops[1].text), ParseReg(ops[2].text)))
    else if op == "MOV" then
      if |ops| < 2 || ParseReg(ops[0].text) < 0 || ParseReg(ops[1].text) < 0 then Bad
      else Good(Move(ParseReg(ops[0].text), ParseReg(ops[1].text)))
    else if op == "CMP" then
      if |ops| < 2 || ParseReg(ops[0].text) < 0 || ParseReg(ops[1].text) < 0 then Bad
      else Good(Compare(ParseReg(ops[0].text), ParseReg(ops[1].text)))
    else if op == "BEQ" || op == "BNE" then
      if |ops| < 1 || target < 0 then Bad else Good(Branch(op == "BEQ", BitOffset(target)))
    else
      if |ops| < 1 || ParseReg(ops[0].text) < 0 then Bad else Good(Print(ParseReg(ops[0].text)))
  }

  /** The name a branch refers to. */
  function BranchName(ops: seq<Operand>): string {
    if |ops| < 1 then "" else ops[0].text
  }

  /** Byte position of a label of the program, or -1. */
  function LabelPos(src: seq<SourceLine>, name: string): int {
    var k := FindLabel(src, name, 0);
    if k < |src| then Pos(src, k) else -1
  }

  /** The translation of line i. */
  function Meaning(src: seq<SourceLine>, i: nat): Translation
    requires i < |src| && src[i].Instr?
  {
    Translate(src[i].op, src[i].ops, LabelPos(src, BranchName(src[i].ops)))
  }

  function Encode(n: Insn): seq<Octet> {
    match n
    case Halt => [0]
    case Load(rd, imm) => [1, rd % 256, imm / 256, imm % 256]
    case Arith(opc, rd, rs1, rs2) => [opc % 256, rd % 256, rs1 % 256, rs2 % 256]
    case Move(rd, rs) => [5, rd % 256, rs % 256]
    case Compare(rs1, rs2) => [6, rs1 % 256, rs2 % 256]
    case Branch(onEqual, offset) => [if onEqual then 7 else 8, offset / 256, offset % 256]
    case Print(rs) => [9, rs % 256]
  }

  predicate Sound(n: Insn) {
    match n
    case Halt => true
    case Load(rd, _) => rd < 4
    case Arith(opc, rd, rs1, rs2) => 2 <= opc <= 4 && rd < 4 && rs1 < 4 && rs2 < 4
    case Move(rd, rs) => rd < 4 && rs < 4
    case Compare(rs1, rs2) => rs1 < 4 && rs2 < 4
    case Branch(_, _) => true
    case Print(rs) => rs < 4
  }

  lemma TranslateSound(op: string, ops: seq<Operand>, target: int)
    requires Known(op) && Translate(op, ops, target).Good?
    ensures var n := Translate(op, ops, target).insn; Sound(n) && |Encode(n)| == OpSize(op)
  {
  }

  // ----- what the whole program means -----

  lemma RegParses(name: string)
    ensures IsReg(name) <==> ParseReg(name) >= 0
  {
  }

  lemma RegsParse(ops: seq<Operand>)
    ensures forall n: nat :: RegNames(ops, n) ==> n <= |ops|
    ensures |ops| >= 1 ==> (RegNames(ops, 1) <==> ParseReg(ops[0].text) >= 0)
    ensures |ops| >= 2 ==> (RegNames(ops, 2) <==> ParseReg(ops[0].text) >= 0 && ParseReg(ops[1].text) >= 0)
    ensures |ops| >= 3 ==>
      (RegNames(ops, 3) <==> ParseReg(ops[0].text) >= 0 && ParseReg(ops[1].text) >= 0 && ParseReg(ops[2].text) >= 0)
  {
    hide IsReg, ParseReg;
    forall k | 0 <= k < |ops|
      ensures IsReg(ops[k].text) <==> ParseReg(ops[k].text) >= 0
    {
      RegParses(ops[k].text);
    }
  }

  lemma KnownIs(op: string)
    ensures Known(op) <==> IsOperation(op)
  {
  }

  lemma Translates(op: string, ops: seq<Operand>, target: int)
    requires IsOperation(op)
    ensures Translate(op, ops, target).Good? <==> OperandsFine(op, ops) && (IsBranch(op) ==> target >= 0)
  {
    RegsParse(ops);
    hide IsReg, ParseReg, BitOffset, RegNames;
  }

  lemma MeaningIs(src: seq<SourceLine>, j: nat)
    requires j < |src| && src[j].Instr?
    ensures var name := BranchName(src[j].ops); var k := FindLabel(src, name, 0);
      Meaning(src, j) == Translate(src[j].op, src[j].ops, LabelPos(src, name))
      && LabelPos(src, name) == if k < |src| then Pos(src, k) else -1
  {
    hide Translate, FindLabel, BranchName, Pos;
  }

  /** The assembler finds the errors the language says there are. */
  lemma FineTranslates(src: seq<SourceLine>, i: nat)
    requires i < |src| && src[i].Instr?
    ensures LineFine(src, i) <==> Known(src[i].op) && Meaning(src, i).Good?
  {
    var op, ops := src[i].op, src[i].ops;
    KnownIs(op);
    MeaningIs(src, i);
    hide Meaning, LabelPos, Pos, Known, IsOperation, Translate, FindLabel;
    if IsOperation(op) {
      Translates(op, ops, LabelPos(src, BranchName(ops)));
    }
  }

  function LineBytes(src: seq<SourceLine>, i: nat): seq<Octet>
    requires i < |src|
  {
    if src[i].LabelLine? || Meaning(src, i).Bad? then [] else Encode(Meaning(src, i).insn)
  }

  /** The bytes of the first i lines. */
  function Bytes(src: seq<SourceLine>, i: nat): seq<Octet>
    requires i <= |src|
  {
    if i == 0 then [] else Bytes(src, i - 1) + LineBytes(src, i - 1)
  }

  // ----- the passes -----

  /** The labels of the first i lines; a later definition replaces an earlier one. */
  function Labels(src: seq<SourceLine>, i: nat): map<string, nat>
    requires i <= |src|
  {
    if i == 0 then map[]
    else if src[i - 1].LabelLine? then Labels(src, i - 1)[src[i - 1].name := Pos(src, i - 1)]
    else Labels(src, i - 1)
  }

  /** Duplicate labels and unknown operations in the first i lines. */
  function Errors1(src: seq<SourceLine>, i: nat): nat
    requires i <= |src|
  {
    if i == 0 then 0
    else
      match src[i - 1]
      case LabelLine(name) => Errors1(src, i - 1) + B(name in Labels(src, i - 1))
      case Instr(op, _) => Errors1(src, i - 1) + B(!Known(op))
  }

  function Listing(src: seq<SourceLine>, i: nat): seq<Instruction>
    requires i <= |src|
  {
    if i == 0 then []
    else if src[i - 1].LabelLine? then Listing(src, i - 1)
    else Listing(src, i - 1) + [Instruction(src[i - 1].op, src[i - 1].ops, Pos(src, i - 1))]
  }

  function Translated(labels: map<string, nat>, n: Instruction): Translation {
    var name := BranchName(n.ops);
    Translate(n.op, n.ops, if name in labels then labels[name] else -1)
  }

  function Emitted(labels: map<string, nat>, l: seq<Instruction>): seq<Octet> {
    if l == [] then []
    else
      var n := l[|l| - 1];
      Emitted(labels, l[..|l| - 1]) + (if Translated(labels, n).Good? then Encode(Translated(labels, n).insn) else [])
  }

  function Errors2(labels: map<string, nat>, l: seq<Instruction>): nat {
    if l == [] then 0
    else Errors2(labels, l[..|l| - 1]) + B(Translated(labels, l[|l| - 1]).Bad?)
  }

  // ----- the passes agree with the meaning -----

  /** Without duplicates the label table holds each label's one definition. */
  lemma {:induction false} LabelsHold(src: seq<SourceLine>, i: nat, name: string)
    requires i <= |src|
    ensures name in Labels(src, i) <==> FindLabel(src, name, 0) < i
    ensures Errors1(src, i) == 0 && name in Labels(src, i) ==> Labels(src, i)[name] == LabelPos(src, name)
  {
    if i > 0 {
      LabelsHold(src, i - 1, name);
      var k := FindLabel(src, name, 0);
      if src[i - 1] == LabelLine(name) {
        assert k <= i - 1;
      }
    }
  }

  lemma TablesAgree(src: seq<SourceLine>, i: nat)
    requires i < |src| && src[i].Instr? && Errors1(src, |src|) == 0
    ensures Translated(Labels(src, |src|), Instruction(src[i].op, src[i].ops, Pos(src, i))) == Meaning(src, i)
  {
    LabelsHold(src, |src|, BranchName(src[i].ops));
    hide Translate;
  }

  /** The first pass finds no error on line i: a new label, or a known operation. */
  predicate FirstFine(src: seq<SourceLine>, i: nat)
    requires i < |src|
  {
    match src[i]
    case LabelLine(name) => FindLabel(src, name, 0) == i
    case Instr(op, _) => Known(op)
  }

  /** The second pass finds no error on line i. */
  predicate SecondFine(src: seq<SourceLine>, i: nat)
    requires i < |src|
  {
    src[i].Instr? ==> Meaning(src, i).Good?
  }

  lemma FirstStep(src: seq<SourceLine>, i: nat)
    requires i < |src|
    ensures Errors1(src, i + 1) == Errors1(src, i) + B(!FirstFine(src, i))
  {
    if src[i].LabelLine? {
      LabelsHold(src, i, src[i].name);
    }
    hide Known;
  }

  lemma SecondStep(src: seq<SourceLine>, i: nat)
    requires i < |src| && Errors1(src, |src|) == 0
    ensures var labels := Labels(src, |src|);
      Errors2(labels, Listing(src, i + 1)) == Errors2(labels, Listing(src, i)) + if SecondFine(src, i) then 0 else 1
  {
    hide Meaning, Translated;
    if src[i].Instr? {
      TablesAgree(src, i);
      var l := Listing(src, i + 1);
      assert l[..|l| - 1] == Listing(src, i);
    }
  }

  lemma {:induction false} FirstPassFine(src: seq<SourceLine>, i: nat)
    requires i <= |src|
    ensures Errors1(src, i) == 0 <==> forall j :: 0 <= j < i ==> FirstFine(src, j)
  {
    hide FirstFine;
    if i > 0 {
      FirstPassFine(src, i - 1);
      FirstStep(src, i - 1);
    }
  }

  lemma NoInstructions(src: seq<SourceLine>, labels: map<string, nat>)
    ensures Errors2(labels, Listing(src, 0)) == 0
  {
  }

  lemma {:induction false} SecondPassFine(src: seq<SourceLine>, i: nat)
    requires i <= |src| && Errors1(src, |src|) == 0
    ensures Errors2(Labels(src, |src|), Listing(src, i)) == 0 <==> forall j :: 0 <= j < i ==> SecondFine(src, j)
  {
    hide *;
    if i == 0 {
      NoInstructions(src, Labels(src, |src|));
    } else {
      SecondPassFine(src, i - 1);
      SecondStep(src, i - 1);
    }
  }

  lemma BothFine(src: seq<SourceLine>, i: nat)
    requires i < |src|
    ensures LineFine(src, i) <==> FirstFine(src, i) && SecondFine(src, i)
  {
    if src[i].Instr? {
      FineTranslates(src, i);
    }
    hide Meaning, Known, FindLabel, OperandsFine, IsOperation;
  }

  /** The passes find no error exactly in the error-free programs. */
  lemma ErrorsExact(src: seq<SourceLine>)
    ensures ErrorFree(src)
      <==> Errors1(src, |src|) == 0 && Errors2(Labels(src, |src|), Listing(src, |src|)) == 0
  {
    hide LineFine, FirstFine, SecondFine, Labels, Listing, Errors1, Errors2;
    FirstPassFine(src, |src|);
    if Errors1(src, |src|) == 0 {
      SecondPassFine(src, |src|);
    }
    forall i | 0 <= i < |src|
      ensures LineFine(src, i) <==> FirstFine(src, i) && SecondFine(src, i)
    {
      BothFine(src, i);
    }
  }

  lemma {:induction false} EmittedBytes(src: seq<SourceLine>, i: nat)
    requires i <= |src| && Errors1(src, |src|) == 0
    ensures Emitted(Labels(src, |src|), Listing(src, i)) == Bytes(src, i)
  {
    hide Meaning, Translated, Encode;
    if i > 0 {
      EmittedBytes(src, i - 1);
      if src[i - 1].Instr? {
        TablesAgree(src, i - 1);
        var l := Listing(src, i);
        assert l[..|l| - 1] == Listing(src, i - 1);
      }
    }
  }

  /** The two passes agree: the bytes before line i end at its first-pass position. */
  lemma {:induction false} PassesAgree(src: seq<SourceLine>, i: nat)
    requires i <= |src| && ErrorFree(src)
    ensures |Bytes(src, i)| == Pos(src, i)
  {
    hide Meaning, Encode, OpSize;
    if i > 0 {
      PassesAgree(src, i - 1);
      assert LineFine(src, i - 1);
      hide LineFine;
      if src[i - 1].Instr? {
        FineTranslates(src, i - 1);
        MeaningSize(src, i - 1);
      }
    }
  }

  lemma MeaningSize(src: seq<SourceLine>, i: nat)
    requires i < |src| && LineFine(src, i) && src[i].Instr?
    ensures Meaning(src, i).Good? && Sound(Meaning(src, i).insn) && |Encode(Meaning(src, i).insn)| == OpSize(src[i].op)
  {
    FineTranslates(src, i);
    MeaningIs(src, i);
    hide LineFine, Meaning, Translate, Sound, Encode;
    TranslateSound(src[i].op, src[i].ops, LabelPos(src, BranchName(src[i].ops)));
  }

  lemma ListingStep(src: seq<SourceLine>, i: nat)
    requires i < |src|
    ensures Pos(src, i + 1) == Pos(src, i) + LineSize(src[i])
    ensures Labels(src, i + 1)
      == if src[i].LabelLine? then Labels(src, i)[src[i].name := Pos(src, i)] else Labels(src, i)
    ensures Listing(src, i + 1) == Listing(src, i)
      + if src[i].LabelLine? then [] else [Instruction(src[i].op, src[i].ops, Pos(src, i))]
    ensures Errors1(src, i + 1) == Errors1(src, i)
      + B(if src[i].LabelLine? then src[i].name in Labels(src, i) else !Known(src[i].op))
  {
    hide OpSize;
  }

  /** Pass 1: collects instructions and label positions. */
  method CollectLabels(src: seq<SourceLine>)
    returns (labels: map<string, nat>, instructions: seq<Instruction>, errors: nat)
    ensures labels == Labels(src, |src|) && instructions == Listing(src, |src|) && errors == Errors1(src, |src|)
  {
    hide Labels, Listing, Errors1, Pos, OpSize;
    labels, instructions, errors := map[], [], 0;
    var bytePos, i := 0, 0;
    EmptyTables(src);
    while i < |src|
      invariant 0 <= i <= |src| && bytePos == Pos(src, i)
      invariant labels == Labels(src, i) && instructions == Listing(src, i) && errors == Errors1(src, i)
    {
      ListingStep(src, i);
      match src[i] {
        case LabelLine(name) =>
          if name in labels {
            errors := errors + 1;
          }
          labels := labels[name := bytePos];
        case Instr(op, ops) =>
          instructions := instructions + [Instruction(op, ops, bytePos)];
          if !Known(op) {
            errors := errors + 1;
          }
          bytePos := bytePos + OpSize(op);
      }
      i := i + 1;
    }
  }

  lemma EmptyTables(src: seq<SourceLine>)
    ensures Labels(src, 0) == map[] && Listing(src, 0) == [] && Errors1(src, 0) == 0 && Pos(src, 0) == 0
  {
  }

  /** Pass 2: emits the bytes of the instructions. */
  method Emit(labels: map<string, nat>, instructions: seq<Instruction>) returns (code: seq<Octet>, errors: nat)
    ensures code == Emitted(labels, instructions) && errors == Errors2(labels, instructions)
  {
    hide Translated, Encode;
    code, errors := [], 0;
    var k := 0;
    while k < |instructions|
      invariant 0 <= k <= |instructions|
      invariant code == Emitted(labels, instructions[..k]) && errors == Errors2(labels, instructions[..k])
    {
      assert instructions[..k + 1][..k] == instructions[..k];
      var t := Translated(labels, instructions[k]);
      if t.Good? {
        code := code + Encode(t.insn);
      } else {
        errors := errors + 1;
      }
      k := k + 1;
    }
    assert instructions[..k] == instructions;
  }

  /** The assembler produces output exactly for error-free programs, and then the bytes of their instructions. */
  method Assemble(src: seq<SourceLine>) returns (r: Result)
    ensures r.Assembled? <==> ErrorFree(src)
    ensures r.Assembled? ==> r.code == Bytes(src, |src|)
    ensures r.Failed? ==> r.errors > 0
  {
    hide *;
    var labels, instructions, errors := CollectLabels(src);
    ErrorsExact(src);
    if errors > 0 {
      return Failed(errors);
    }
    EmittedBytes(src, |src|);
    var code, bad := Emit(labels, instructions);
    r := if bad > 0 then Failed(bad) else Assembled(code);
  }

  // ----- reading the bytes back -----

  /** The instruction at the front of the bytes, and how many bytes it takes; as the interpreter does, an opcode
      that is not one of the nine is a HALT. */
  function Decode(b: seq<Octet>): Insn
    requires |b| > 0
  {
    var at := (k: nat) => if k < |b| then b[k] else 0;
    match b[0]
    case 1 => Load(at(1), 256 * at(2) + at(3))
    case 2 => Arith(2, at(1), at(2), at(3))
    case 3 => Arith(3, at(1), at(2), at(3))
    case 4 => Arith(4, at(1), at(2), at(3))
    case 5 => Move(at(1), at(2))
    case 6 => Compare(at(1), at(2))
    case 7 => Branch(true, 256 * at(1) + at(2))
    case 8 => Branch(false, 256 * at(1) + at(2))
    case 9 => Print(at(1))
    case _ => Halt
  }

  /** Decoding gives back the instruction, whatever follows it. */
  lemma DecodeEncode(n: Insn, rest: seq<Octet>)
    requires Sound(n)
    ensures Decode(Encode(n) + rest) == n
  {
    var b := Encode(n) + rest;
    assert forall k :: 0 <= k < |Encode(n)| ==> b[k] == Encode(n)[k];
  }

  /** The instructions of the program in order. */
  function Insns(src: seq<SourceLine>, i: nat): seq<Insn>
    requires i <= |src|
    decreases |src| - i
  {
    if i == |src| then []
    else if src[i].LabelLine? || Meaning(src, i).Bad? then Insns(src, i + 1)
    else [Meaning(src, i).insn] + Insns(src, i + 1)
  }

  /** Reads bytes into instructions from the front. */
  function DecodeAll(b: seq<Octet>): seq<Insn>
    decreases |b|
  {
    if b == [] then []
    else
      var n := Decode(b);
      if |Encode(n)| > |b| then [n] else [n] + DecodeAll(b[|Encode(n)|..])
  }

  lemma DecodeFront(n: Insn, rest: seq<Octet>)
    requires Sound(n)
    ensures DecodeAll(Encode(n) + rest) == [n] + DecodeAll(rest)
  {
    DecodeEncode(n, rest);
    var b := Encode(n) + rest;
    assert |b| > 0 && b[|Encode(n)|..] == rest;
    hide Decode, Encode, Sound;
  }

  lemma {:induction false} BytesPrefix(src: seq<SourceLine>, i: nat, j: nat)
    requires i <= j <= |src|
    ensures |Bytes(src, i)| <= |Bytes(src, j)| && Bytes(src, j)[..|Bytes(src, i)|] == Bytes(src, i)
  {
    hide Bytes;
    if i < j {
      BytesPrefix(src, i, j - 1);
      BytesStep(src, j - 1);
    }
  }

  lemma BytesStep(src: seq<SourceLine>, i: nat)
    requires i < |src|
    ensures Bytes(src, i + 1) == Bytes(src, i) + LineBytes(src, i)
  {
    hide LineBytes;
  }

  /** The bytes from line i on. */
  function Tail(src: seq<SourceLine>, i: nat): seq<Octet>
    requires i <= |src|
  {
    BytesPrefix(src, i, |src|);
    Bytes(src, |src|)[|Bytes(src, i)|..]
  }

  lemma TailStep(src: seq<SourceLine>, i: nat)
    requires i < |src|
    ensures Tail(src, i) == LineBytes(src, i) + Tail(src, i + 1)
  {
    hide LineBytes, Bytes;
    BytesStep(src, i);
    BytesPrefix(src, i, |src|);
    BytesPrefix(src, i + 1, |src|);
    var all, a := Bytes(src, |src|), |Bytes(src, i)|;
    assert all[..|Bytes(src, i + 1)|][a..] == LineBytes(src, i);
  }

  lemma {:induction false} DecodesTail(src: seq<SourceLine>, i: nat)
    requires i <= |src| && ErrorFree(src)
    ensures DecodeAll(Tail(src, i)) == Insns(src, i)
    decreases |src| - i
  {
    hide *;
    if i == |src| {
      TailEnds(src);
    } else {
      DecodesTail(src, i + 1);
      TailStep(src, i);
      Lists(src, i);
      if src[i].Instr? {
        DecodeFront(Meaning(src, i).insn, Tail(src, i + 1));
      } else {
        assert [] + Tail(src, i + 1) == Tail(src, i + 1);
      }
    }
  }

  lemma Lists(src: seq<SourceLine>, i: nat)
    requires i < |src| && ErrorFree(src)
    ensures src[i].LabelLine? ==> Insns(src, i) == Insns(src, i + 1) && LineBytes(src, i) == []
    ensures src[i].Instr? ==>
      Meaning(src, i).Good? && Sound(Meaning(src, i).insn) && LineBytes(src, i) == Encode(Meaning(src, i).insn)
      && Insns(src, i) == [Meaning(src, i).insn] + Insns(src, i + 1)
  {
    hide Meaning, Encode, Sound, LineFine, Known;
    assert LineFine(src, i);
    if src[i].Instr? {
      FineTranslates(src, i);
      MeaningSize(src, i);
    }
  }

  lemma TailEnds(src: seq<SourceLine>)
    ensures DecodeAll(Tail(src, |src|)) == [] == Insns(src, |src|)
  {
  }

  /** Decoding the bytes of an error-free program gives back its instructions. */
  lemma DecodesProgram(src: seq<SourceLine>)
    requires ErrorFree(src)
    ensures DecodeAll(Bytes(src, |src|)) == Insns(src, 0)
  {
    DecodesTail(src, 0);
    assert Tail(src, 0) == Bytes(src, |src|);
  }
}
