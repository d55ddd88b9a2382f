/** Which memory and registers a micro-step touches. */
module Footprint {
  import opened Bits
  import opened BitMemory
  import opened IoBus
  import opened Isa
  import opened Registers
  import opened Machine

  /** Group/select addresses backed by registers a process switch saves. */
  predicate PrivateReg(g: nat, s: nat) {
    match g
    case 6 => s >= 2
    case 7 => s >= 1
    case 9 => s != 3
    case 10 => s != 3
    case 13 => s == 0 || s == 2
    case 14 => s != 0
    case 15 => s != 0
    case _ => true
  }

  /** As destinations M, which modifies the next micro, and the command register are not private either. */
  predicate PrivateDst(g: nat, s: nat) {
    PrivateReg(g, s) && !(g == 5 && s == 2) && !(g == 14 && s == 3)
  }

  /** The operator touches no latch that outlives it and no device. */
  predicate Private(op: Op) {
    match op
    case Dispatch(_) => false
    case Move(sg, ss, dg, ds) => PrivateReg(sg, ss) && PrivateDst(dg, ds)
    case PadMove(_, _, from, rs, rg) => if from then PrivateDst(rg, rs) else PrivateReg(rg, rs)
    case Nibble(g, s, _, _) => PrivateReg(g, s) && PrivateDst(g, s)
    case BitBranch(g, s, _, _, _, _) => PrivateReg(g, s)
    case Skip(g, s, _, _) => PrivateReg(g, s) && PrivateDst(g, s)
    case Lit8(g, _) => PrivateDst(g, 2)
    case Lit24(g, _) => PrivateDst(g, 2)
    case ShiftT(dg, ds, _, _) => PrivateDst(dg, ds)
    case _ => true
  }

  /** No device is installed and no modification of the next micro is pending. */
  predicate Quiet(s: State) {
    s.bus.slots == NO_DEVICES && !s.r.lat.pending
  }

  /** Where a process may fetch micro-code (below bit address `code`), read and write, and whether it keeps
      to operators of at most eight clocks. */
  datatype Region = Region(code: nat, rd: iset<int>, wr: iset<int>, brief: bool)

  ghost predicate FieldWithin(a: nat, n: nat, rev: bool, where: iset<int>) {
    forall i: nat :: i < n ==> FieldAddr(a, i, rev) in where
  }

  predicate FetchWithin(mar: nat, code: nat) {
    mar / 16 * 16 + 16 <= code
  }

  /** Executing op in state s is private and keeps to the region. */
  ghost predicate OpConfined(op: Op, s: State, g: Region) {
    && Private(op) && (g.brief ==> !op.Normalize?)
    && (op.Lit24? ==> FetchWithin(Forward(s.r.mar, 1), g.code))
    && (op.Field? && !op.write ==> FieldWithin(s.r.fa, FieldLength(op.len, s.r.cp), op.rev, g.rd))
    && (op.Field? && op.write ==> FieldWithin(s.r.fa, FieldLength(op.len, s.r.cp), op.rev, g.wr))
  }

  /** The next step of s is private and keeps to the region. */
  ghost predicate Confined(s: State, g: Region) {
    && !s.r.halted && Quiet(s)
    && FetchWithin(s.r.mar, g.code)
    && OpConfined(Decode(FetchMicro(s.m, s.r.mar)), s, g)
  }

  ghost predicate ConfinedRun(s: State, n: nat, g: Region)
    decreases n
  {
    hide *;
    n == 0 || (Confined(s, g) && ConfinedRun(Step(s), n - 1, g))
  }

  lemma NoSteps(s: State, g: Region)
    ensures ConfinedRun(s, 0, g) && Run(s, 0) == s
  {
  }

  /** A quiet machine about to execute word w. */
  function Fetched(s: State, w: Half): State {
    s.(r := s.r.(m := w, mar := Forward(s.r.mar, 1),
                 lat := s.r.lat.(bicn := 0, pending := false, pendingValue := 0)))
  }

  lemma NoRequests()
    ensures !AnyRequest(NO_DEVICES) && BusStatus(NO_DEVICES) == 0
  {
    assert RequestingPort(NO_DEVICES, 0) == 14;
  }

  lemma StepQuiet(s: State, w: Half)
    requires Quiet(s) && !s.r.halted && FetchMicro(s.m, s.r.mar) == w
    ensures Step(s) == Exec(Decode(w), Fetched(s, w)).(cycles := s.cycles + Clocks(Decode(w), Fetched(s, w).r))
  {
    TickNoDevices(s.cycles, s.m, 14);
    NoRequests();
    var p := Poll(s);
    assert p == s.(r := s.r.(lat := s.r.lat.(bicn := 0)));
    assert NextWord(p) == w;
    assert Advance(p, w) == Fetched(s, w);
    hide Exec, Decode, Clocks, Poll, Advance, NextWord, Fetched;
  }

  /** A step on the word of a packable operator executes that operator. */
  lemma StepOp(s: State, op: Op)
    requires Quiet(s) && !s.r.halted && Packable(op) && FetchMicro(s.m, s.r.mar) == Encode(op)
    ensures Encode(op) < K16 && Decode(Encode(op)) == op
    ensures Step(s) == Exec(op, Fetched(s, Encode(op))).(cycles := s.cycles + Clocks(op, Fetched(s, Encode(op)).r))
  {
    hide *;
    DecodeEncode(op);
    StepQuiet(s, Encode(op));
  }
}
