/** MIL source lines, their meaning on the registers they name, and the words the cross-assembler
    lays out for them. */
module Mil {
  import opened Bits
  import opened BitMemory
  import opened Isa
  import opened Registers
  import opened Machine

  /** Registers and function box outputs by name. */
  datatype Name = X | Y | T | L | FA | FB | SUM | DIFF

  datatype Relation = Eql | Neq | Lss | Gtr | Leq | Geq

  /** Four-bit registers whose select fits the one-bit select field. */
  datatype NibName = TA | TB | TE | TF | FU | FT | FLE | FLF | LA | LB | LC | LD | LE | LF

  datatype Test =
    | XY(rel: Relation)                      // X rel Y
    | YX(rel: Relation)                      // Y rel X
    | FLZero(eq: bool)                       // FL EQL 0, FL NEQ 0
    | TBit(n: nat)                           // T(n)
    | NibIs(nib: NibName, v: Nib, eq: bool)  // nibble EQL v, nibble NEQ v

  /** A condition, possibly followed by FALSE. */
  datatype Cond = Cond(test: Test, isFalse: bool)

  /** INC, DEC or neither, for FA and for FL. */
  datatype Way = Inc | Dec | Stay
  datatype Counts = Counts(fa: Way, fl: Way)

  datatype Line =
    | Label(name: nat)
    | Lit(v: Word, dst: Name)                          // LIT, CLEAR
    | Move(src: Name, dst: Name)
    | LoadPad(pad: nat, right: bool, dst: Name)        // MOVE SnA TO reg
    | StorePad(src: Name, pad: nat, right: bool)       // MOVE reg TO SnA
    | StoreF(pad: nat)                                 // STORE F INTO Sn
    | ReadBits(n: nat, rev: bool, dst: Name, w: Counts)
    | WriteBits(n: nat, src: Name, w: Counts)
    | CountBy(w: Counts, n: nat)                       // COUNT FA UP BY n
    | Xch(fromPad: nat, toPad: nat)
    | MonitorX
    | HaltLine
    | NopLine
    | GoTo(target: nat)
    | CallTo(target: nat)
    | Exit
    | IfGoTo(cond: Cond, target: nat)
    | IfThen(cond: Cond)
    | SkipWhen(cond: Cond)
    | Begin
    | End

  type Program = seq<Line>

  // ----- source-level state -----

  /** What a MIL programmer sees: registers, scratchpad, memory, output, the line about to execute
      and the lines CALLs will return to. */
  datatype Mil = Mil(pc: nat, x: Word, y: Word, t: Word, l: Word, fa: Word, fb: Word, cp: Octet,
                     pads: Pads, rets: seq<nat>, m: Mem, out: seq<Word>, halted: bool)

  predicate IsRegister(n: Name) {
    n != SUM && n != DIFF
  }

  function Get(c: Mil, n: Name): Word {
    match n
    case X => c.x
    case Y => c.y
    case T => c.t
    case L => c.l
    case FA => c.fa
    case FB => c.fb
    case SUM => Sum(c.x, c.y, c.cp)
    case DIFF => Diff(c.x, c.y, c.cp)
  }

  function Set(c: Mil, n: Name, v: Word): Mil {
    match n
    case X => c.(x := v)
    case Y => c.(y := v)
    case T => c.(t := v)
    case L => c.(l := v)
    case FA => c.(fa := v)
    case FB => c.(fb := v)
    case _ => c
  }

  /** X, Y and L are loaded through T. */
  predicate ViaT(n: Name) {
    n == X || n == Y || n == L
  }

  function NibValue(n: NibName, t: Word, l: Word, fb: Word): Nib {
    match n
    case TA => GetNib(t, 0)
    case TB => GetNib(t, 1)
    case TE => GetNib(t, 4)
    case TF => GetNib(t, 5)
    case FU => GetNib(fb, 0)
    case FT => GetNib(fb, 1)
    case FLE => GetNib(fb, 4)
    case FLF => GetNib(fb, 5)
    case LA => GetNib(l, 0)
    case LB => GetNib(l, 1)
    case LC => GetNib(l, 2)
    case LD => GetNib(l, 3)
    case LE => GetNib(l, 4)
    case LF => GetNib(l, 5)
  }

  predicate Related(rel: Relation, a: nat, b: nat) {
    match rel
    case Eql => a == b
    case Neq => a != b
    case Lss => a < b
    case Gtr => a > b
    case Leq => a <= b
    case Geq => a >= b
  }

  /** Bit n of T, bit 0 the most significant. */
  predicate BitOfT(t: Word, n: nat) {
    n < 24 && Bit(t, 23 - n)
  }

  predicate TestHolds(t: Test, x: Word, y: Word, tr: Word, l: Word, fb: Word, cp: Octet) {
    match t
    case XY(rel) => Related(rel, Masked(x, cp), Masked(y, cp))
    case YX(rel) => Related(rel, Masked(y, cp), Masked(x, cp))
    case FLZero(eq) => (FL(fb) == 0) == eq
    case TBit(n) => BitOfT(tr, n)
    case NibIs(nib, v, eq) => (NibValue(nib, tr, l, fb) == v) == eq
  }

  predicate Holds(c: Cond, s: Mil) {
    TestHolds(c.test, s.x, s.y, s.t, s.l, s.fb, s.cp) != c.isFalse
  }

  // ----- control structure -----

  /** The first line at or after i that defines a label, or |p|. */
  function FindLabel(p: Program, name: nat, i: nat): (k: nat)
    requires i <= |p|
    ensures i <= k <= |p|
    ensures k < |p| ==> p[k] == Label(name)
    ensures forall j :: i <= j < k ==> p[j] != Label(name)
    decreases |p| - i
  {
    if i == |p| || p[i] == Label(name) then i else FindLabel(p, name, i + 1)
  }

  function Target(p: Program, name: nat): nat {
    FindLabel(p, name, 0)
  }

  /** The END that closes the block open at line i, d further blocks being open; |p| if there is none. */
  function FindEnd(p: Program, i: nat, d: nat): (k: nat)
    requires i <= |p|
    ensures i <= k <= |p|
    ensures k < |p| ==> p[k] == End
    decreases |p| - i
  {
    if i == |p| then i
    else if p[i].Begin? then FindEnd(p, i + 1, d + 1)
    else if p[i].End? then (if d == 0 then i else FindEnd(p, i + 1, d - 1))
    else FindEnd(p, i + 1, d)
  }

  predicate OpensBlock(p: Program, i: nat) {
    i + 1 < |p| && p[i + 1].Begin?
  }

  /** Where control continues when the condition of the IF...THEN at line i fails. */
  function AfterThen(p: Program, i: nat): nat
    requires i < |p|
  {
    if OpensBlock(p, i) then FindEnd(p, i + 2, 0) else i + 2
  }

  // ----- meaning of one line -----

  /** FA counts modulo 2^24. */
  function FaCounted(w: Way, fa: Word, n: nat): Word {
    match w
    case Inc => (fa + n) % 0x100_0000
    case Dec => (fa - n) % 0x100_0000
    case Stay => fa
  }

  /** FL, the low sixteen bits of FB, counts up modulo 2^16 and down to zero at most. */
  function FbCounted(w: Way, fb: Word, n: nat): Word {
    var rest, fl := fb / 0x1_0000 * 0x1_0000, fb % 0x1_0000;
    match w
    case Inc => rest + (fl + n) % 0x1_0000
    case Dec => rest + (if fl > n then fl - n else 0)
    case Stay => fb
  }

  function Counted(c: Mil, w: Counts, n: nat): Mil {
    c.(fa := FaCounted(w.fa, c.fa, n), fb := FbCounted(w.fl, c.fb, n))
  }

  function FieldValue(m: Mem, a: nat, n: nat, rev: bool): Word
    requires n <= 24
  {
    Pow2Monotone(n, 24);
    Pow2Values();
    ReadField(m, a, n, rev)
  }

  function Next(c: Mil): Mil {
    c.(pc := c.pc + 1)
  }

  /** Executes the line at c.pc. A halted or finished program, and a return without a call, stay put. */
  function Execute(p: Program, c: Mil): Mil {
    if c.halted || c.pc >= |p| then c
    else
      match p[c.pc]
      case Label(_) => Next(c)
      case Lit(v, dst) => Next(Set(if ViaT(dst) then c.(t := v) else c, dst, v))
      case Move(src, dst) => Next(Set(c, dst, Get(c, src)))
      case LoadPad(k, right, dst) =>
        if k < 16 then Next(Set(c, dst, if right then c.pads[k].right else c.pads[k].left)) else c
      case StorePad(src, k, right) =>
        if k < 16 then
          Next(c.(pads := c.pads[k := if right then c.pads[k].(right := Get(c, src)) else c.pads[k].(left := Get(c, src))]))
        else c
      case StoreF(k) => if k < 16 then Next(c.(pads := c.pads[k := Pad(c.fa, c.fb)])) else c
      case ReadBits(n, rev, dst, w) =>
        if n <= 24 then Next(Counted(Set(c, dst, FieldValue(c.m, c.fa, n, rev)), w, n)) else c
      case WriteBits(n, src, w) => Next(Counted(c.(m := WriteField(c.m, c.fa, n, Get(c, src), false)), w, n))
      case CountBy(w, n) => Next(Counted(c, w, n))
      case Xch(a, b) =>
        if a < 16 && b < 16 then
          Next(c.(fa := c.pads[a].left, fb := c.pads[a].right, pads := c.pads[b := Pad(c.fa, c.fb)]))
        else c
      case MonitorX => Next(c.(out := c.out + [c.x]))
      case HaltLine => Next(c.(halted := true))
      case NopLine => Next(c)
      case GoTo(l) => c.(pc := Target(p, l))
      case CallTo(l) => c.(pc := Target(p, l), rets := c.rets + [c.pc + 1])
      case Exit => if |c.rets| == 0 then c else c.(pc := c.rets[|c.rets| - 1], rets := c.rets[..|c.rets| - 1])
      case IfGoTo(cond, l) => c.(pc := if Holds(cond, c) then Target(p, l) else c.pc + 1)
      case IfThen(cond) =>
        c.(pc := if !Holds(cond, c) then AfterThen(p, c.pc) else if OpensBlock(p, c.pc) then c.pc + 2 else c.pc + 1)
      case SkipWhen(cond) => c.(pc := if Holds(cond, c) then c.pc + 2 else c.pc + 1)
      case Begin => c
      case End => Next(c)
  }

  // ----- lowering -----

  /** Group and select of a register or function box output. */
  function RegAddr(n: Name): (nat, nat) {
    match n
    case X => (2, 0)
    case Y => (2, 1)
    case T => (2, 2)
    case L => (2, 3)
    case FA => (8, 2)
    case FB => (9, 2)
    case SUM => (3, 0)
    case DIFF => (8, 3)
  }

  function NibAddr(n: NibName): (nat, nat) {
    match n
    case TA => (0, 0)
    case TB => (0, 1)
    case TE => (4, 0)
    case TF => (5, 0)
    case FU => (1, 0)
    case FT => (1, 1)
    case FLE => (4, 1)
    case FLF => (5, 1)
    case LA => (8, 0)
    case LB => (9, 0)
    case LC => (10, 0)
    case LD => (11, 0)
    case LE => (12, 0)
    case LF => (13, 0)
  }

  function DataId(n: Name): nat {
    match n
    case X => 0
    case Y => 1
    case T => 2
    case _ => 3
  }

  /** The count variant; there is none that counts both registers up, and FL alone is counted then. */
  function CountCode(w: Counts): (v: nat)
    ensures v < 8
  {
    match w
    case Counts(Inc, Dec) => 3
    case Counts(Dec, Inc) => 4
    case Counts(Inc, Inc) => 2
    case Counts(Dec, Dec) => 7
    case Counts(Inc, Stay) => 1
    case Counts(Dec, Stay) => 5
    case Counts(Stay, Inc) => 2
    case Counts(Stay, Dec) => 6
    case Counts(Stay, Stay) => 0
  }

  function MoveOp(src: Name, dst: Name): Op {
    var (sg, ss), (dg, ds) := RegAddr(src), RegAddr(dst);
    Isa.Move(sg, ss, dg, ds)
  }

  /** emit_literal: one or two words into select 2 of the group, then a move when that is not the target. */
  function LitWords(v: Word, dst: Name): seq<nat> {
    var (g, s) := RegAddr(dst);
    var literal := if v <= 0xFF then [Encode(Lit8(g, v))] else [Encode(Lit24(g, v / K16)), v % K16];
    if s == 2 then literal else literal + [Encode(MoveOp(T, dst))]
  }

  /** The parsed form of a condition: a single-bit test or a whole-nibble test, with its sense. */
  datatype Parsed =
    | BitTest(g: nat, s: nat, bit: nat, negate: bool)
    | MultiBit(g: nat, s: nat, mask: nat, negate: bool)

  /** A relation tests its XYCN bit, whichever of X and Y stands on the left. */
  function ParseRelation(rel: Relation, isFalse: bool): Parsed {
    match rel
    case Eql => BitTest(12, 1, 2, isFalse)
    case Neq => BitTest(12, 1, 2, !isFalse)
    case Lss => BitTest(12, 1, 1, isFalse)
    case Gtr => BitTest(12, 1, 0, isFalse)
    case Leq => BitTest(12, 1, 0, !isFalse)
    case Geq => BitTest(12, 1, 1, !isFalse)
  }

  function ParseCondition(c: Cond): Parsed {
    match c.test
    case XY(rel) => ParseRelation(rel, c.isFalse)
    case YX(rel) => ParseRelation(rel, c.isFalse)
    case FLZero(eq) => BitTest(7, 1, 0, c.isFalse == eq)
    case TBit(n) =>
      if n < 16 then BitTest(0, n / 4, n % 4, c.isFalse)
      else if n < 20 then BitTest(4, 0, n % 4, c.isFalse)
      else BitTest(5, 0, n % 4, c.isFalse)
    case NibIs(nib, v, eq) =>
      if nib == FT && v == 0 && !eq then MultiBit(1, 1, 15, c.isFalse)
      else var (g, s) := NibAddr(nib); MultiBit(g, s, v, c.isFalse == eq)
  }

  /** The skip emitted for an IF: it skips the next word when the condition fails. The encoders keep
      one bit of the select. */
  function IfOp(c: Cond): Op {
    match ParseCondition(c)
    case BitTest(g, s, bit, negate) => BitBranch(g, s % 2, bit, false, 1, negate)
    case MultiBit(g, s, mask, negate) =>
      if mask != 0 then Skip(g, s % 2, if negate then 0 else 4, mask)
      else Skip(g, s % 2, if negate then 1 else 5, mask)
  }

  /** The skip emitted for SKIP WHEN: nibbles are compared exactly. A bit of T is no condition of SKIP WHEN. */
  function SkipOp(c: Cond): Op {
    match c.test
    case NibIs(nib, v, eq) => var (g, s) := NibAddr(nib); Skip(g, s % 2, if eq != c.isFalse then 1 else 5, v)
    case _ => Invert(IfOp(c))
  }

  /** What BEGIN does to the skip before it. */
  function Invert(op: Op): Op {
    match op
    case BitBranch(g, s, bit, neg, d, t) => BitBranch(g, s, bit, neg, d, !t)
    case Skip(g, s, fn, mask) => Skip(g, s, (fn + 4) % 8, mask)
    case _ => op
  }

  function Size(l: Line): (n: nat)
    ensures n <= 3
  {
    match l
    case Label(_) => 0
    case End => 0
    case Lit(v, dst) => (if v <= 0xFF then 1 else 2) + (if RegAddr(dst).1 == 2 then 0 else 1)
    case StoreF(_) => 2
    case IfGoTo(_, _) => 2
    case _ => 1
  }

  /** Word address of line i. */
  function AddrOf(p: Program, i: nat): (a: nat)
    requires i <= |p|
    ensures a <= 3 * i
  {
    if i == 0 then 0 else AddrOf(p, i - 1) + Size(p[i - 1])
  }

  function Abs(d: int): nat { if d < 0 then -d else d }

  /** A branch or call at word a to word t; the displacement field keeps twelve bits. */
  function BranchTo(a: nat, t: nat, call: bool): Op {
    var d := t - (a + 1);
    if call then Call(d < 0, Abs(d) % 0x1000) else Branch(d < 0, Abs(d) % 0x1000)
  }

  function LabelAddr(p: Program, name: nat): nat {
    AddrOf(p, Target(p, name))
  }

  /** The operators of a one-word line. */
  function LineOp(p: Program, i: nat): Op
    requires i < |p|
  {
    match p[i]
    case Move(src, dst) => MoveOp(src, dst)
    case LoadPad(k, right, dst) => var (g, s) := RegAddr(dst); PadMove(k, right, true, s, g)
    case StorePad(src, k, right) => var (g, s) := RegAddr(src); PadMove(k, right, false, s, g)
    case ReadBits(n, rev, dst, w) => Field(false, DataId(dst), rev, n, CountCode(w))
    case WriteBits(n, src, w) => Field(true, DataId(src), false, n, CountCode(w))
    case CountBy(w, n) => Isa.Count(CountCode(w), n)
    case Xch(a, b) => Exchange(a, b)
    case MonitorX => Monitor
    case HaltLine => Halt
    case GoTo(l) => BranchTo(AddrOf(p, i), LabelAddr(p, l), false)
    case CallTo(l) => BranchTo(AddrOf(p, i), LabelAddr(p, l), true)
    case Exit => Isa.Move(11, 2, 4, 2)
    case IfThen(c) => if OpensBlock(p, i) then Invert(IfOp(c)) else IfOp(c)
    case SkipWhen(c) => SkipOp(c)
    case Begin => BranchTo(AddrOf(p, i), AddrOf(p, FindEnd(p, i + 1, 0)), false)
    case _ => Nop
  }

  /** The words of line i in the finished program. */
  function LineWords(p: Program, i: nat): (w: seq<nat>)
    requires i < |p|
    ensures |w| == Size(p[i])
  {
    match p[i]
    case Label(_) => []
    case End => []
    case Lit(v, dst) => LitWords(v, dst)
    case StoreF(k) => [Encode(PadMove(k, false, false, 2, 8)), Encode(PadMove(k, true, false, 2, 9))]
    case IfGoTo(c, l) => [Encode(IfOp(c)), Encode(BranchTo(AddrOf(p, i) + 1, LabelAddr(p, l), false))]
    case _ => [Encode(LineOp(p, i))]
  }

  /** The words of the first i lines. */
  function Layout(p: Program, i: nat): (w: seq<nat>)
    requires i <= |p|
    ensures |w| == AddrOf(p, i)
  {
    if i == 0 then [] else Layout(p, i - 1) + LineWords(p, i - 1)
  }

  function Code(p: Program): seq<nat> {
    Layout(p, |p|)
  }

  lemma {:induction false} LayoutPrefix(p: Program, i: nat, j: nat)
    requires i <= j <= |p|
    ensures AddrOf(p, i) <= AddrOf(p, j)
    ensures Layout(p, j)[..AddrOf(p, i)] == Layout(p, i)
  {
    hide LineWords, Size;
    if i < j {
      LayoutPrefix(p, i, j - 1);
      assert Layout(p, j)[..AddrOf(p, i)] == Layout(p, j - 1)[..AddrOf(p, i)];
    }
  }

  /** Line i occupies its words from its address on. */
  lemma CodeAt(p: Program, i: nat)
    requires i < |p|
    ensures AddrOf(p, i) + Size(p[i]) == AddrOf(p, i + 1) <= |Code(p)|
    ensures Code(p)[AddrOf(p, i)..AddrOf(p, i + 1)] == LineWords(p, i)
  {
    LayoutPrefix(p, i + 1, |p|);
    var a, b := AddrOf(p, i), AddrOf(p, i + 1);
    assert Code(p)[a..b] == Code(p)[..b][a..];
    assert Layout(p, i + 1)[a..] == LineWords(p, i);
  }
}
