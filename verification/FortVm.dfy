/** The S-FORT machine: four 24-bit registers, a compare flag and three-address code in memory. */
module FortVm {
  import opened BitMemory
  import opened Registers
  import opened SCode

  type RegBank = s: seq<Word> | |s| == 4 witness [0, 0, 0, 0]

  /** pc is the bit address of the next instruction. */
  datatype Vm = Vm(pc: Word, regs: RegBank, flag: Word, out: seq<Word>, halted: bool)

  /** Register numbers above 3 name R3. */
  function Sel(n: nat): (k: nat)
    ensures k < 4
  {
    if n < 3 then n else 3
  }

  /** The register that the octet at a names. */
  function Operand(m: Mem, v: Vm, a: Word): Word {
    v.regs[Sel(Octet8(m, a))]
  }

  function SetReg(m: Mem, v: Vm, a: Word, value: Word): Vm {
    v.(regs := v.regs[Sel(Octet8(m, a)) := value])
  }

  /** One instruction of the code at v.pc; branch targets are relative to `start`. */
  function VmStep(m: Mem, start: Word, v: Vm): Vm {
    if v.halted then v
    else
      var op := Octet8(m, v.pc);
      var a := Up(v.pc, 8);
      var b := Up(a, 8);
      var c := Up(b, 8);
      var next := Up(c, 8);
      match op
      case 1 => SetReg(m, v, a, Octets16(m, b)).(pc := Up(b, 16))
      case 2 => SetReg(m, v, a, Arith(op, Operand(m, v, b), Operand(m, v, c))).(pc := next)
      case 3 => SetReg(m, v, a, Arith(op, Operand(m, v, b), Operand(m, v, c))).(pc := next)
      case 4 => SetReg(m, v, a, Arith(op, Operand(m, v, b), Operand(m, v, c))).(pc := next)
      case 5 => SetReg(m, v, a, Operand(m, v, b)).(pc := c)
      case 6 => v.(flag := if Operand(m, v, a) == Operand(m, v, b) then 0 else 1, pc := c)
      case 7 => v.(pc := if v.flag == 0 then Up(Octets16(m, a), start) else Up(a, 16))
      case 8 => v.(pc := if v.flag == 0 then Up(a, 16) else Up(Octets16(m, a), start))
      case 9 => v.(out := v.out + [Operand(m, v, a)], pc := b)
      case _ => v.(halted := true, pc := a)
  }

  function VmRun(m: Mem, start: Word, v: Vm, n: nat): Vm
    decreases n
  {
    hide *;
    if n == 0 then v else VmRun(m, start, VmStep(m, start, v), n - 1)
  }

  /** The memory the instruction at v.pc reads lies in `where`. */
  ghost predicate Fetchable(m: Mem, v: Vm, where: iset<int>) {
    var op := Octet8(m, v.pc);
    var a := Up(v.pc, 8);
    var b := Up(a, 8);
    var c := Up(b, 8);
    && Readable(v.pc, 8, where)
    && (1 <= op <= 6 || op == 9 ==> Readable(a, 8, where))
    && (2 <= op <= 6 ==> Readable(b, 8, where))
    && (2 <= op <= 4 ==> Readable(c, 8, where))
    && (op == 1 ==> Readable(b, 16, where))
    && (op == 7 && v.flag == 0 ==> Readable(a, 16, where))
    && (op == 8 && v.flag != 0 ==> Readable(a, 16, where))
  }
}
