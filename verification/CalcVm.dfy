/** The S-CALC machine: a stack of 24-bit values and byte code in memory; and where the interpreter keeps them. */
module CalcVm {
  import opened Bits
  import opened BitMemory
  import opened Registers
  import opened Mil
  import opened Footprint
  import opened SCode

  /** pc is the bit address of the next instruction. */
  datatype Calc = Calc(pc: Word, stack: seq<Word>, out: seq<Word>, halted: bool)

  function Word24(m: Mem, a: Word): Word { FieldValue(m, a, 24, false) }

  /** Values an opcode takes off the stack. */
  function Needs(op: nat): nat {
    if op == 2 || op == 3 || op == 4 || op == 7 then 2 else if op == 5 || op == 6 then 1 else 0
  }

  /** Room it needs above the values on the stack. */
  function Grows(op: nat): nat {
    if op == 1 || op == 6 then 1 else 0
  }

  /** One instruction: PUSH, ADD, SUB, MUL, PRINT, DUP, SWAP; anything else halts. A stack with too few values
      is not covered. */
  function CalcStep(m: Mem, v: Calc): Calc {
    var op := Octet8(m, v.pc);
    var a := Up(v.pc, 8);
    var n := |v.stack|;
    if v.halted || n < Needs(op) then v
    else if op == 1 then v.(stack := v.stack + [Word24(m, a)], pc := Up(a, 24))
    else if 2 <= op <= 4 then v.(stack := v.stack[..n - 2] + [Arith(op, v.stack[n - 2], v.stack[n - 1])], pc := a)
    else if op == 5 then v.(out := v.out + [v.stack[n - 1]], stack := v.stack[..n - 1], pc := a)
    else if op == 6 then v.(stack := v.stack + [v.stack[n - 1]], pc := a)
    else if op == 7 then v.(stack := v.stack[..n - 2] + [v.stack[n - 1], v.stack[n - 2]], pc := a)
    else v.(halted := true, pc := a)
  }

  function CalcRun(m: Mem, v: Calc, n: nat): Calc
    decreases n
  {
    hide *;
    if n == 0 then v else CalcRun(m, CalcStep(m, v), n - 1)
  }

  // ----- placement -----

  /** Code in `code` bits from `start`, data stack from `base` up to `limit`. */
  datatype Space = Space(start: Word, code: nat, base: Word, limit: Word)

  /** Code and stack are apart, and the stack lies in memory clear of the first `micro` bits. */
  predicate Laid(sp: Space, micro: nat, size: nat) {
    && micro <= sp.base && sp.limit <= size
    && (sp.start + sp.code <= sp.base || sp.limit <= sp.start)
  }

  predicate InStackSpace(sp: Space, a: int) { sp.base <= a < sp.limit }

  predicate InSpace(sp: Space, a: int) {
    InStackSpace(sp, a) || sp.start <= a < sp.start + sp.code
  }

  ghost function SpaceRegion(sp: Space, micro: nat): Region {
    Region(micro, iset a: int | InSpace(sp, a), iset a: int | InStackSpace(sp, a), true)
  }

  predicate InCode(sp: Space, a: nat, n: nat) {
    sp.start <= a && a + n <= sp.start + sp.code
  }

  /** The instruction at v.pc lies in the code and neither underflows nor overflows the stack. */
  predicate Within(m: Mem, sp: Space, v: Calc) {
    var op := Octet8(m, v.pc);
    && InCode(sp, v.pc, 8) && (op == 1 ==> InCode(sp, Up(v.pc, 8), 24))
    && Needs(op) <= |v.stack| && sp.base + 24 * (|v.stack| + Grows(op)) <= sp.limit
  }

  ghost predicate WithinRun(m: Mem, sp: Space, v: Calc, n: nat)
    decreases n
  {
    hide *;
    n == 0 || v.halted || (Within(m, sp, v) && WithinRun(m, sp, CalcStep(m, v), n - 1))
  }

  // ----- the stack in memory -----

  /** The values st lie in memory from bit address base. */
  ghost predicate StackIn(m: Mem, base: Word, st: seq<Word>) {
    && base + 24 * |st| < 0x100_0000
    && forall i {:trigger st[i]} :: 0 <= i < |st| ==> Word24(m, base + 24 * i) == st[i]
  }

  /** m differs from m0 in the stack space only. */
  ghost predicate SameOutside(m0: Mem, m: Mem, sp: Space) {
    |m| == |m0| && forall a: int :: !InStackSpace(sp, a) ==> BitAt(m, a) == BitAt(m0, a)
  }

  lemma CodeUnchanged(m0: Mem, m: Mem, sp: Space, micro: nat, a: Word, n: nat)
    requires SameOutside(m0, m, sp) && Laid(sp, micro, |m0|) && InCode(sp, a, n) && n <= 24
    ensures FieldValue(m, a, n, false) == FieldValue(m0, a, n, false)
  {
    forall i: nat | i < n
      ensures BitAt(m, FieldAddr(a, i, false)) == BitAt(m0, FieldAddr(a, i, false))
    {
      assert !InStackSpace(sp, a + i);
    }
    ReadFrame(m, m0, a, n, false);
  }

  lemma CodeReadable(sp: Space, micro: nat, a: Word, n: nat)
    requires InCode(sp, a, n)
    ensures FieldWithin(a, n, false, SpaceRegion(sp, micro).rd)
  {
  }

  lemma StackReadable(sp: Space, micro: nat, a: Word)
    requires sp.base <= a && a + 24 <= sp.limit
    ensures FieldWithin(a, 24, false, SpaceRegion(sp, micro).rd) && FieldWithin(a, 24, false, SpaceRegion(sp, micro).wr)
  {
  }

  lemma WriteAbove(m: Mem, base: Word, st: seq<Word>, v: Word)
    requires StackIn(m, base, st) && base + 24 * (|st| + 1) < 0x100_0000 && base + 24 * (|st| + 1) <= |m|
    ensures StackIn(WriteField(m, base + 24 * |st|, 24, v, false), base, st + [v])
  {
    hide ReadField, WriteField, BitAt, Pow2;
    var a := base + 24 * |st|;
    var m' := WriteField(m, a, 24, v, false);
    Pow2Values();
    ReadBack(m, a, 24, v, false);
    forall i | 0 <= i < |st|
      ensures Word24(m', base + 24 * i) == st[i]
    {
      assert Word24(m, base + 24 * i) == st[i];
      ReadDisjoint(m, a, 24, v, false, base + 24 * i, 24, false);
    }
  }

  lemma WriteOutside(m0: Mem, m: Mem, sp: Space, a: Word, v: Word)
    requires SameOutside(m0, m, sp) && sp.base <= a && a + 24 <= sp.limit
    ensures SameOutside(m0, WriteField(m, a, 24, v, false), sp)
  {
    var m' := WriteField(m, a, 24, v, false);
    forall i: int | !InStackSpace(sp, i)
      ensures BitAt(m', i) == BitAt(m0, i)
    {
      assert BitAt(m, i) == BitAt(m0, i);
      assert !InField(a, 24, false, i);
    }
  }
}
