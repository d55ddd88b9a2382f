/** The assembled program simulates its source: running the words of a line on the machine does what the
    line means and arrives at the words of the next one. */
module Simulation {
  import opened Bits
  import opened BitMemory
  import opened IoBus
  import opened Isa
  import opened Registers
  import opened Machine
  import opened Mil
  import opened AStack
  import opened Footprint
  import opened Lowering

  /** The finished words of p lie in memory from address zero. */
  ghost predicate Loaded(p: Program, m: Mem) {
    && 16 * |Code(p)| <= |m|
    && forall a: nat :: a < |Code(p)| ==> FetchMicro(m, 16 * a) == Code(p)[a]
  }

  /** The program is short enough for its branch displacements. */
  predicate Fits(p: Program) {
    |Code(p)| < 0x1000
  }

  predicate LinesOf(p: Program, rets: seq<nat>) {
    forall k :: 0 <= k < |rets| ==> rets[k] <= |p|
  }

  /** Micro-addresses of return lines. */
  function ReturnAddrs(p: Program, rets: seq<nat>): seq<Word>
    requires Fits(p) && LinesOf(p, rets)
  {
    seq(|rets|, k requires 0 <= k < |rets| => LineAddr(p, rets[k]))
  }

  /** Bit address of line i. */
  function LineAddr(p: Program, i: nat): (a: Addr)
    requires Fits(p) && i <= |p|
    ensures a == 16 * AddrOf(p, i)
  {
    LayoutPrefix(p, i, |p|);
    16 * AddrOf(p, i)
  }

  /** Machine state s holds the source-level values of c, wherever its program counter is. */
  ghost predicate Carries(p: Program, s: State, c: Mil) {
    && Fits(p) && c.pc <= |p| && LinesOf(p, c.rets)
    && Quiet(s) && Same(s.r, c) && s.m == c.m && s.out == c.out
    && Loaded(p, s.m)
    && RingHolds(s.r, ReturnAddrs(p, c.rets))
  }

  /** Machine state s is at line c.pc with the source-level values of c. */
  ghost predicate Sim(p: Program, s: State, c: Mil) {
    Carries(p, s, c) && s.r.mar == LineAddr(p, c.pc)
  }

  predicate IsData(n: Name) {
    n == X || n == Y || n == T || n == L
  }

  /** What the line at c.pc needs in order to assemble and execute as it reads. */
  predicate LineOk(p: Program, c: Mil, depth: nat) {
    c.pc < |p| &&
    match p[c.pc]
    case Lit(_, dst) => IsRegister(dst)
    case Move(_, dst) => IsRegister(dst)
    case LoadPad(k, _, dst) => k < 16 && IsRegister(dst)
    case StorePad(_, k, _) => k < 16
    case StoreF(k) => k < 16
    case ReadBits(n, _, dst, w) => 1 <= n <= 24 && IsData(dst) && Countable(w)
    case WriteBits(n, src, w) => 1 <= n <= 24 && IsData(src) && Countable(w)
    case CountBy(w, n) => w != Counts(Stay, Stay) && Countable(w) && 1 <= n < 32
    case Xch(a, b) => a < 16 && b < 16
    case GoTo(l) => Target(p, l) < |p|
    case CallTo(l) => Target(p, l) < |p| && |c.rets| < depth
    case Exit => |c.rets| > 0
    case IfGoTo(cond, l) => CondOk(cond) && Target(p, l) < |p|
    case SkipWhen(cond) => SkipOk(cond) && c.pc + 1 < |p| && Size(p[c.pc + 1]) == 1
    case IfThen(cond) =>
      CondOk(cond) &&
      (if OpensBlock(p, c.pc) then FindEnd(p, c.pc + 2, 0) < |p| else c.pc + 1 < |p| && Size(p[c.pc + 1]) == 1)
    case Begin => false
    case _ => true
  }

  /** The memory the line at c.pc accesses lies in the region. */
  ghost predicate LineWithin(p: Program, c: Mil, g: Region)
    requires c.pc < |p|
  {
    match p[c.pc]
    case ReadBits(n, rev, _, _) => FieldWithin(c.fa, n, rev, g.rd)
    case WriteBits(n, _, _) => FieldWithin(c.fa, n, false, g.wr)
    case _ => true
  }

  /** The region covers the program's words and lets nothing write to them. */
  ghost predicate Guards(g: Region, p: Program) {
    16 * |Code(p)| <= g.code && forall a :: a in g.wr ==> a >= 16 * |Code(p)|
  }

  /** The line at c.pc may run. */
  ghost predicate Ready(p: Program, c: Mil, depth: nat, g: Region) {
    !c.halted && LineOk(p, c, depth) && LineWithin(p, c, g) && Guards(g, p)
  }

  /** Machine steps taken by the line at c.pc. */
  function MicroSteps(p: Program, c: Mil): (n: nat)
    requires c.pc < |p|
    ensures n <= 3
  {
    match p[c.pc]
    case Label(_) => 0
    case End => 0
    case Lit(_, dst) => if ViaT(dst) then 2 else 1
    case StoreF(_) => 2
    case IfGoTo(cond, _) => if Holds(cond, c) then 2 else 1
    case IfThen(cond) => if Holds(cond, c) || !OpensBlock(p, c.pc) then 1 else 2
    case _ => 1
  }

  // ----- fetching the words of a line -----

  /** Word k of line i as the machine finds it. */
  lemma WordAt(p: Program, m: Mem, i: nat, k: nat)
    requires Fits(p) && Loaded(p, m) && i < |p| && k < Size(p[i])
    ensures FetchMicro(m, LineAddr(p, i) + 16 * k) == LineWords(p, i)[k]
    ensures AddrOf(p, i) + k < |Code(p)|
    ensures LineAddr(p, i + 1) == LineAddr(p, i) + 16 * Size(p[i])
  {
    hide *;
    CodeAt(p, i);
    var a := AddrOf(p, i);
    SliceAt(Code(p), a, AddrOf(p, i + 1), k);
    LoadedAt(p, m, a + k);
  }

  lemma SliceAt(w: seq<nat>, a: nat, b: nat, k: nat)
    requires a <= b <= |w| && k < b - a
    ensures w[a..b][k] == w[a + k]
  {
  }

  lemma LoadedAt(p: Program, m: Mem, a: nat)
    requires Loaded(p, m) && a < |Code(p)|
    ensures FetchMicro(m, 16 * a) == Code(p)[a]
  {
    hide FetchMicro, Code;
  }

  lemma NextAddr(a: nat, code: nat)
    requires a < code <= 0x1000
    ensures Forward(16 * a, 1) == 16 * a + 16
    ensures FetchWithin(16 * a, 16 * code)
  {
    SmallMod(16 * a + 16);
  }

  /** The state after fetching the word of operator op at word address a. */
  ghost predicate AtOp(p: Program, s: State, a: nat, op: Op) {
    && Fits(p) && Quiet(s) && !s.r.halted && Loaded(p, s.m)
    && a < |Code(p)| && s.r.mar == 16 * a
    && Packable(op) && Code(p)[a] == Encode(op)
  }

  /** The machine executes op with its address already advanced. */
  lemma Executes(p: Program, s: State, a: nat, op: Op) returns (f: State)
    requires AtOp(p, s, a, op)
    ensures f.r.mar == 16 * a + 16 && f.r.lat.bicn == 0 && !f.r.lat.pending
    ensures f == s.(r := s.r.(m := f.r.m, mar := f.r.mar, lat := f.r.lat))
    ensures Step(s) == Exec(op, f).(cycles := s.cycles + Clocks(op, f.r))
    ensures forall g: Region :: 16 * |Code(p)| <= g.code && OpConfined(op, s, g) ==> Confined(s, g)
  {
    assert FetchMicro(s.m, 16 * a) == Encode(op);
    NextAddr(a, |Code(p)|);
    hide FetchMicro, Encode, Decode, Exec, Clocks, Step, Packable, Code, OpConfined, Quiet, Forward;
    StepOp(s, op);
    f := FetchedState(s, op);
    forall g: Region | 16 * |Code(p)| <= g.code && OpConfined(op, s, g)
      ensures Confined(s, g)
    {
    }
  }

  lemma FetchedState(s: State, op: Op) returns (f: State)
    requires Encode(op) < 0x1_0000
    ensures f == Fetched(s, Encode(op))
    ensures f.r.mar == Forward(s.r.mar, 1) && f.r.lat.bicn == 0 && !f.r.lat.pending
    ensures f == s.(r := s.r.(m := f.r.m, mar := f.r.mar, lat := f.r.lat))
  {
    f := Fetched(s, Encode(op));
  }
}
