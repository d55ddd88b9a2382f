/** Octets of S-code, S-code addresses and the arithmetic of both S-machines. */
module SCode {
  import opened BitMemory
  import opened Registers
  import Footprint
  import Mil

  function Octet8(m: Mem, a: Word): Word { Mil.FieldValue(m, a, 8, false) }
  function Octets16(m: Mem, a: Word): Word { Mil.FieldValue(m, a, 16, false) }

  /** Bit addresses count modulo 2^24. */
  function Up(a: Word, n: nat): Word { (a + n) % 0x100_0000 }

  /** ADD, SUB and MUL by opcode, modulo 2^24. */
  function Arith(op: nat, x: Word, y: Word): Word {
    match op
    case 2 => (x + y) % 0x100_0000
    case 3 => (x - y) % 0x100_0000
    case _ => x * y % 0x100_0000
  }

  ghost predicate Readable(a: Word, n: nat, where: iset<int>) {
    Footprint.FieldWithin(a, n, false, where)
  }

  lemma ArithIs(x: Word, y: Word)
    ensures Arith(2, x, y) == (x + y) % 0x100_0000 && Arith(3, x, y) == (x - y) % 0x100_0000
    ensures Arith(4, x, y) == x * y % 0x100_0000
  {
  }
}
