/** A confined step depends only on the registers a process switch saves and on the memory of its region, and
    changes nothing else. */
module Locality {
  import opened Bits
  import opened BitMemory
  import opened IoBus
  import opened Isa
  import opened Registers
  import opened Machine
  import opened Invariants
  import opened Footprint

  // ----- registers -----

  /** r with the unsaved registers l. */
  function With(r: Regs, l: Latches): Regs { r.(lat := l) }

  /** q is r but for the unsaved registers, of which the pending flag is kept. */
  predicate Twin(r: Regs, q: Regs) {
    q == With(r, q.lat) && q.lat.pending == r.lat.pending
  }

  lemma ReadsPrivate(r: Regs, l: Latches, g: nat, s: nat)
    requires PrivateReg(g, s)
    ensures ReadReg(With(r, l), g, s) == ReadReg(r, g, s)
  {
    hide GetNib, FLCN, XYCN, XYST, FL, Sum, Diff, Masked, AllOnes, Xor24, BitAnd;
  }

  /** No value of the unsaved registers shows in the register read at group g, select s. */
  ghost predicate ReadsOnlySaved(g: nat, s: nat) {
    forall r: Regs, l: Latches :: ReadReg(With(r, l), g, s) == ReadReg(r, g, s)
  }

  const ALL_ONES: Latches :=
    Latches(15, 15, 15, 15, 15, 0xFF_FFFF, 0xFF_FFFF, 0xFF_FFFF, 0xFF_FFFF, 0x7_FFFF, true, 0xFFFF)

  /** The private registers are exactly those; reading any other tells a process what the last one left behind. */
  lemma PrivateExact(g: nat, s: nat)
    requires g < 16 && s < 4
    ensures ReadsOnlySaved(g, s) <==> PrivateReg(g, s)
  {
    if PrivateReg(g, s) {
      hide ReadReg, With, PrivateReg;
      forall r: Regs, l: Latches
        ensures ReadReg(With(r, l), g, s) == ReadReg(r, g, s)
      {
        ReadsPrivate(r, l, g, s);
      }
    } else {
      UnsavedShow(g, s);
      hide ReadReg, With, PrivateReg;
    }
  }

  lemma UnsavedShow(g: nat, s: nat)
    requires g < 16 && s < 4 && !PrivateReg(g, s)
    ensures ReadReg(With(Fresh(), ALL_ONES), g, s) != ReadReg(Fresh(), g, s)
  {
    hide FunctionBox, GetNib, FLCN, XYCN, FL, Zeros, BlankPads;
  }

  lemma WritesPrivate(r: Regs, l: Latches, g: nat, s: nat, v: nat)
    requires PrivateDst(g, s)
    ensures WriteReg(With(r, l), g, s, v) == With(WriteReg(r, g, s, v), l) && WriteReg(r, g, s, v).lat == r.lat
  {
    hide SetNib, SetFL, SetCPU;
  }

  /** op does the same to both, leaving the unsaved registers alone. */
  predicate Commutes(op: Op, r: Regs, l: Latches) {
    ExecRegs(op, With(r, l)) == With(ExecRegs(op, r), l) && ExecRegs(op, r).lat == r.lat
  }

  lemma MoveCommutes(r: Regs, l: Latches, sg: nat, ss: nat, dg: nat, ds: nat)
    requires PrivateReg(sg, ss) && PrivateDst(dg, ds)
    ensures ExecMove(With(r, l), sg, ss, dg, ds) == With(ExecMove(r, sg, ss, dg, ds), l)
    ensures ExecMove(r, sg, ss, dg, ds).lat == r.lat
  {
    hide ReadReg, WriteReg, PrivateReg, PrivateDst;
    if sg == 11 && ss == 2 {
      WritesPrivate(Pop(r), l, dg, ds, Top(r));
    } else {
      ReadsPrivate(r, l, sg, ss);
      WritesPrivate(r, l, dg, ds, ReadReg(r, sg, ss));
    }
  }

  lemma PadMoveCommutes(r: Regs, l: Latches, pad: nat, right: bool, from: bool, rs: nat, rg: nat)
    requires if from then PrivateDst(rg, rs) else PrivateReg(rg, rs)
    ensures ExecPadMove(With(r, l), pad, right, from, rs, rg) == With(ExecPadMove(r, pad, right, from, rs, rg), l)
    ensures ExecPadMove(r, pad, right, from, rs, rg).lat == r.lat
  {
    hide ReadReg, WriteReg, PrivateReg, PrivateDst;
    var p := if pad >= 16 then 0 else pad;
    if from {
      WritesPrivate(r, l, rg, rs, if right then r.pads[p].right else r.pads[p].left);
    } else {
      ReadsPrivate(r, l, rg, rs);
    }
  }

  lemma NibbleCommutes(r: Regs, l: Latches, g: nat, s: nat, fn: nat, lit: nat)
    requires PrivateReg(g, s) && PrivateDst(g, s)
    ensures ExecNibble(With(r, l), g, s, fn, lit) == With(ExecNibble(r, g, s, fn, lit), l)
    ensures ExecSkip(With(r, l), g, s, fn, lit) == With(ExecSkip(r, g, s, fn, lit), l)
    ensures ExecNibble(r, g, s, fn, lit).lat == r.lat && ExecSkip(r, g, s, fn, lit).lat == r.lat
  {
    hide ReadReg, WriteReg, PrivateReg, PrivateDst, NibbleResult, NibbleSkips, SkipTest;
    var cur := ReadReg(r, g, s) % 16;
    ReadsPrivate(r, l, g, s);
    WritesPrivate(r, l, g, s, NibbleResult(fn, cur, lit));
    WritesPrivate(r, l, g, s, BitAnd(cur, 15 - lit % 16));
  }

  lemma MovesCommute(op: Op, r: Regs, l: Latches)
    requires Private(op) && (op.Move? || op.PadMove? || op.Nibble? || op.Skip? || op.BitBranch?)
    ensures Commutes(op, r, l)
  {
    hide ExecMove, ExecPadMove, ExecNibble, ExecSkip, PrivateReg, PrivateDst, ReadReg, NibbleBit, Jump;
    match op
    case Move(sg, ss, dg, ds) => MoveCommutes(r, l, sg, ss, dg, ds);
    case PadMove(p, right, from, rs, rg) => PadMoveCommutes(r, l, p, right, from, rs, rg);
    case Nibble(g, s, fn, lit) => NibbleCommutes(r, l, g, s, fn, lit);
    case Skip(g, s, fn, mask) => NibbleCommutes(r, l, g, s, fn, mask);
    case BitBranch(g, s, _, _, _, _) => ReadsPrivate(r, l, g, s);
  }

  lemma WritesCommute(op: Op, r: Regs, l: Latches)
    requires Private(op) && (op.Lit8? || op.ShiftT? || op.Extract?)
    ensures Commutes(op, r, l)
  {
    hide WriteReg, RotateLeft, ShiftLeft, FieldLength, LowBits, RotateRight;
    match op
    case Lit8(g, v) => WritesPrivate(r, l, g, 2, v);
    case ShiftT(dg, ds, rot, n) => WritesPrivate(r, l, dg, ds, ShiftTResult(r, rot, n));
    case Extract(rotate, d, w) => WritesPrivate(r, l, 2, d, ExtractResult(r, rotate, w));
  }

  lemma OthersCommute(op: Op, r: Regs, l: Latches)
    requires !(op.Move? || op.PadMove? || op.Nibble? || op.Skip? || op.BitBranch?)
    requires !(op.Lit8? || op.ShiftT? || op.Extract?)
    ensures Commutes(op, r, l)
  {
    hide ReadReg, NibbleBit, ShiftsNeeded, CountFa, CountFb, Masked, Jump, ShiftLeft, ShiftRight, RotateLeft,
      RotateRight, SetFL, SetCPL, SetCPU, SetCYF, GetNib, AllOnes;
  }

  lemma RegsCommute(op: Op, r: Regs, l: Latches)
    requires Private(op)
    ensures Commutes(op, r, l)
  {
    if op.Move? || op.PadMove? || op.Nibble? || op.Skip? || op.BitBranch? {
      MovesCommute(op, r, l);
    } else if op.Lit8? || op.ShiftT? || op.Extract? {
      WritesCommute(op, r, l);
    } else {
      OthersCommute(op, r, l);
    }
    hide Commutes, Private;
  }

  lemma ClocksAlike(op: Op, r: Regs, l: Latches)
    requires Private(op)
    ensures Clocks(op, With(r, l)) == Clocks(op, r)
  {
    if op.Skip? {
      ReadsPrivate(r, l, op.g, op.s);
    }
    hide ReadReg, SkipTest, ShiftsNeeded;
  }

  // ----- memory -----

  /** The two memories agree on the micro-code below g.code and on what the region may read. */
  ghost predicate Agree(m: Mem, m': Mem, g: Region) {
    |m| == |m'| && forall a: int :: 0 <= a < g.code || a in g.rd ==> BitAt(m, a) == BitAt(m', a)
  }

  /** m and m' differ only where the region may write. */
  ghost predicate OnlyWrites(m: Mem, m': Mem, g: Region) {
    |m| == |m'| && forall a: int :: a !in g.wr ==> BitAt(m, a) == BitAt(m', a)
  }

  lemma FetchAgrees(m: Mem, m': Mem, g: Region, a: nat)
    requires Agree(m, m', g) && FetchWithin(a, g.code)
    ensures FetchMicro(m, a) == FetchMicro(m', a)
  {
    var b := a / 16 * 16;
    forall i: nat | i < 16
      ensures BitAt(m, FieldAddr(b, i, false)) == BitAt(m', FieldAddr(b, i, false))
    {
    }
    ReadFrame(m, m', b, 16, false);
  }

  lemma ReadAgrees(m: Mem, m': Mem, g: Region, a: nat, n: nat, rev: bool)
    requires Agree(m, m', g) && FieldWithin(a, n, rev, g.rd)
    ensures ReadField(m, a, n, rev) == ReadField(m', a, n, rev)
  {
    forall i: nat | i < n
      ensures BitAt(m, FieldAddr(a, i, rev)) == BitAt(m', FieldAddr(a, i, rev))
    {
      assert FieldAddr(a, i, rev) in g.rd;
    }
    ReadFrame(m, m', a, n, rev);
  }

  lemma WriteAgrees(m: Mem, m': Mem, g: Region, a: nat, n: nat, v: nat, rev: bool)
    requires Agree(m, m', g)
    ensures Agree(WriteField(m, a, n, v, rev), WriteField(m', a, n, v, rev), g)
  {
    var w, w' := WriteField(m, a, n, v, rev), WriteField(m', a, n, v, rev);
    forall i: int | 0 <= i < g.code || i in g.rd
      ensures BitAt(w, i) == BitAt(w', i)
    {
      assert BitAt(m, i) == BitAt(m', i);
    }
  }

  lemma InFieldWithin(a: nat, n: nat, rev: bool, i: int, where: iset<int>)
    requires FieldWithin(a, n, rev, where) && InField(a, n, rev, i)
    ensures i in where
  {
    var k := FieldIndex(a, rev, i);
    assert FieldAddr(a, k, rev) in where;
  }

  lemma WriteStaysIn(m: Mem, g: Region, a: nat, n: nat, v: nat, rev: bool)
    requires FieldWithin(a, n, rev, g.wr)
    ensures OnlyWrites(m, WriteField(m, a, n, v, rev), g)
  {
    var w := WriteField(m, a, n, v, rev);
    forall i: int | i !in g.wr
      ensures BitAt(m, i) == BitAt(w, i)
    {
      if InField(a, n, rev, i) {
        InFieldWithin(a, n, rev, i, g.wr);
        assert false;
      }
    }
  }

  // ----- one operator -----

  /** The same computation on different unsaved registers and different memory elsewhere. */
  ghost predicate Alike(s: State, t: State, g: Region) {
    Quiet(s) && Quiet(t) && Twin(s.r, t.r) && Agree(s.m, t.m, g)
  }

  /** After a step from s to s' and from t to t': alike, at the same cost, with the same output, and each memory
      changed only where the region may write. */
  ghost predicate Parallel(s: State, s': State, t: State, t': State, g: Region) {
    && Alike(s', t', g)
    && OnlyWrites(s.m, s'.m, g) && OnlyWrites(t.m, t'.m, g)
    && (exists o: seq<Word> :: s'.out == s.out + o && t'.out == t.out + o)
  }

  lemma ParallelBy(s: State, s': State, t: State, t': State, g: Region, o: seq<Word>)
    requires Alike(s', t', g) && OnlyWrites(s.m, s'.m, g) && OnlyWrites(t.m, t'.m, g)
    requires s'.out == s.out + o && t'.out == t.out + o
    ensures Parallel(s, s', t, t', g)
  {
    hide Alike, OnlyWrites;
  }

  lemma SameMemory(m: Mem, g: Region)
    ensures OnlyWrites(m, m, g)
  {
  }

  lemma ExecFieldParallel(op: Op, s: State, t: State, g: Region)
    requires Alike(s, t, g) && op.Field?
    requires FieldWithin(s.r.fa, FieldLength(op.len, s.r.cp), op.rev, if op.write then g.wr else g.rd)
    ensures Parallel(s, Exec(op, s), t, Exec(op, t), g)
  {
    hide ReadField, WriteField, CountFa, CountFb, FieldLength, FieldWithin, Agree, OnlyWrites, Parallel;
    var n := FieldLength(op.len, s.r.cp);
    if op.write {
      WriteAgrees(s.m, t.m, g, s.r.fa, n, DataReg(s.r, op.reg), op.rev);
      WriteStaysIn(s.m, g, s.r.fa, n, DataReg(s.r, op.reg), op.rev);
      WriteStaysIn(t.m, g, s.r.fa, n, DataReg(s.r, op.reg), op.rev);
    } else {
      ReadAgrees(s.m, t.m, g, s.r.fa, n, op.rev);
      SameMemory(s.m, g);
      SameMemory(t.m, g);
    }
    ParallelBy(s, Exec(op, s), t, Exec(op, t), g, []);
  }

  lemma ExecLit24Parallel(op: Op, s: State, t: State, g: Region)
    requires Alike(s, t, g) && op.Lit24? && Private(op) && FetchWithin(s.r.mar, g.code)
    ensures Parallel(s, Exec(op, s), t, Exec(op, t), g)
  {
    hide FetchMicro, WriteReg, Agree, OnlyWrites, Parallel, PrivateDst, FetchWithin;
    FetchAgrees(s.m, t.m, g, s.r.mar);
    var r := s.r.(mar := Forward(s.r.mar, 1));
    WritesPrivate(r, t.r.lat, op.g, 2, op.hi * K16 + FetchMicro(s.m, s.r.mar));
    SameMemory(s.m, g);
    SameMemory(t.m, g);
    ParallelBy(s, Exec(op, s), t, Exec(op, t), g, []);
  }

  lemma ExecRegsParallel(op: Op, s: State, t: State, g: Region)
    requires Alike(s, t, g) && Private(op) && !op.Field? && !op.Lit24?
    ensures Parallel(s, Exec(op, s), t, Exec(op, t), g)
  {
    hide ExecRegs, Agree, OnlyWrites, Parallel, Private;
    SameMemory(s.m, g);
    SameMemory(t.m, g);
    if op.Monitor? {
      ParallelBy(s, Exec(op, s), t, Exec(op, t), g, [s.r.x]);
    } else {
      RegsCommute(op, s.r, t.r.lat);
      NotDispatch(op);
      ParallelBy(s, Exec(op, s), t, Exec(op, t), g, []);
    }
  }

  lemma NotDispatch(op: Op)
    requires Private(op)
    ensures !op.Dispatch?
  {
  }

  lemma ExecParallel(op: Op, s: State, t: State, g: Region)
    requires Alike(s, t, g) && Private(op)
    requires op.Field? ==> FieldWithin(s.r.fa, FieldLength(op.len, s.r.cp), op.rev, if op.write then g.wr else g.rd)
    requires op.Lit24? ==> FetchWithin(s.r.mar, g.code)
    ensures Parallel(s, Exec(op, s), t, Exec(op, t), g)
  {
    hide *;
    if op.Field? {
      ExecFieldParallel(op, s, t, g);
    } else if op.Lit24? {
      ExecLit24Parallel(op, s, t, g);
    } else {
      ExecRegsParallel(op, s, t, g);
    }
  }

  // ----- one step -----

  lemma AlikeMeans(s: State, t: State, g: Region)
    requires Alike(s, t, g)
    ensures Quiet(s) && Quiet(t) && Agree(s.m, t.m, g) && s.r.mar == t.r.mar && s.r.halted == t.r.halted
    ensures t.r == With(s.r, t.r.lat)
  {
    hide Agree;
  }

  lemma FetchedAlike(s: State, t: State, g: Region, w: Half)
    requires Alike(s, t, g)
    ensures Alike(Fetched(s, w), Fetched(t, w), g)
    ensures Fetched(t, w).r == With(Fetched(s, w).r, Fetched(t, w).r.lat)
    ensures Fetched(s, w).m == s.m && Fetched(t, w).m == t.m && Fetched(s, w).out == s.out && Fetched(t, w).out == t.out
    ensures Fetched(s, w).r.fa == s.r.fa && Fetched(s, w).r.cp == s.r.cp && Fetched(s, w).r.mar == Forward(s.r.mar, 1)
  {
    hide Agree;
  }

  lemma ConfinedMeans(s: State, g: Region)
    requires Confined(s, g)
    ensures !s.r.halted && Quiet(s) && FetchWithin(s.r.mar, g.code)
    ensures var op := Decode(FetchMicro(s.m, s.r.mar));
      Private(op)
      && (op.Lit24? ==> FetchWithin(Forward(s.r.mar, 1), g.code))
      && (op.Field? ==> FieldWithin(s.r.fa, FieldLength(op.len, s.r.cp), op.rev, if op.write then g.wr else g.rd))
      && (g.brief ==> !op.Normalize?)
  {
    hide Private, Decode, FetchMicro, FetchWithin, FieldWithin, FieldLength, Quiet;
  }

  lemma Retimed(s: State, s': State, t: State, t': State, g: Region, n: nat, k: nat)
    requires Parallel(s, s', t, t', g)
    ensures Parallel(s, s'.(cycles := n), t, t'.(cycles := k), g)
  {
    hide Agree, OnlyWrites, Twin;
    var o :| s'.out == s.out + o && t'.out == t.out + o;
    ParallelBy(s, s'.(cycles := n), t, t'.(cycles := k), g, o);
  }

  lemma Rebased(s: State, f: State, s': State, t: State, h: State, t': State, g: Region)
    requires Parallel(f, s', h, t', g) && f.m == s.m && h.m == t.m && f.out == s.out && h.out == t.out
    ensures Parallel(s, s', t, t', g)
  {
    hide Alike, OnlyWrites;
  }

  /** Locality: alike machines, one of them confined, step alike and at the same cost. */
  lemma StepLocal(s: State, t: State, g: Region)
    requires Alike(s, t, g) && Confined(s, g)
    ensures Parallel(s, Step(s), t, Step(t), g)
    ensures s.cycles <= Step(s).cycles && t.cycles <= Step(t).cycles
    ensures Step(s).cycles - s.cycles == Step(t).cycles - t.cycles
    ensures g.brief ==> Step(s).cycles <= s.cycles + 8
  {
    hide *;
    AlikeMeans(s, t, g);
    ConfinedMeans(s, g);
    FetchAgrees(s.m, t.m, g, s.r.mar);
    var w := Micro(s);
    var op := Decode(w);
    StepQuiet(s, w);
    StepQuiet(t, w);
    var f, h := Fetched(s, w), Fetched(t, w);
    FetchedAlike(s, t, g, w);
    ExecParallel(op, f, h, g);
    ClocksAlike(op, f.r, h.r.lat);
    Rebased(s, f, Exec(op, f), t, h, Exec(op, h), g);
    var n := Clocks(op, f.r);
    Retimed(s, Exec(op, f), t, Exec(op, h), g, s.cycles + n, t.cycles + n);
  }

  function Micro(s: State): (w: Half)
    ensures w == FetchMicro(s.m, s.r.mar)
  {
    FetchMicro(s.m, s.r.mar)
  }
}
