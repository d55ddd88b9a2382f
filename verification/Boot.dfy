/** From a machine with an assembled program in its micro-store to runs of source lines, and halting. */
module Boot {
  import opened BitMemory
  import opened Isa
  import opened Registers
  import opened Machine
  import opened Invariants
  import opened Mil
  import opened AStack
  import opened Footprint
  import opened Lowering
  import opened Simulation
  import opened MilRun
  import opened MilSteps

  /** The source-level state of a machine at line pc, outside every subroutine. */
  function Source(s: State, pc: nat): Mil {
    Mil(pc, s.r.x, s.r.y, s.r.t, s.r.l, s.r.fa, s.r.fb, s.r.cp, s.r.pads, [], s.m, s.out, s.r.halted)
  }

  lemma SourceIs(p: Program, s: State, c: Mil)
    requires Sim(p, s, c) && c.rets == []
    ensures c == Source(s, c.pc) && s.m == c.m && s.out == c.out && s.r.halted == c.halted && s.r.pads == c.pads
  {
    hide Loaded, Fits, Quiet, RingHolds, ReturnAddrs, LineAddr, LinesOf;
  }

  lemma SimSame(p: Program, s: State, c: Mil)
    requires Sim(p, s, c)
    ensures s.m == c.m && s.out == c.out && s.r.halted == c.halted && s.r.pads == c.pads
  {
    hide Loaded, Fits, Quiet, RingHolds, ReturnAddrs, LineAddr, LinesOf;
  }

  lemma LeadsFirst(p: Program, c: Mil, d: Mil, e: nat, g: Region)
    requires Leads(p, c, d, e, g) && e > 0
    ensures Leads(p, Execute(p, c), d, e - 1, g) && c.pc < |p|
    ensures MicroTotal(p, c, e) == MicroSteps(p, c) + MicroTotal(p, Execute(p, c), e - 1)
  {
    hide *;
    LeadsStart(p, c, d, e, g);
  }

  lemma LeadsNone(p: Program, c: Mil, d: Mil, g: Region)
    requires Leads(p, c, d, 0, g)
    ensures c == d
  {
  }

  lemma {:induction false} HaltedRun(s: State, n: nat)
    requires s.r.halted
    ensures Run(s, n) == s
    decreases n
  {
    hide Decode, Exec, Poll, Advance, Clocks;
    if n > 0 {
      HaltedRun(s, n - 1);
    }
  }

  ghost predicate Halts(s: State) {
    exists k: nat :: Run(s, k).r.halted
  }

  lemma HaltsBy(s: State, k: nat)
    requires Run(s, k).r.halted
    ensures Halts(s)
  {
  }

  lemma HaltingTime(s: State) returns (k: nat)
    requires Halts(s)
    ensures Run(s, k).r.halted
  {
    k :| Run(s, k).r.halted;
  }

  lemma HaltedAlike(s: State, j: nat, k: nat)
    requires Run(s, j).r.halted && Run(s, k).r.halted
    ensures Run(s, k) == Run(s, j)
  {
    hide *;
    if j <= k {
      RunAdd(s, j, k - j);
      HaltedRun(Run(s, j), k - j);
    } else {
      RunAdd(s, k, j - k);
      HaltedRun(Run(s, k), j - k);
    }
  }

  lemma OutKept(s: State, t: State)
    requires Kept(s, t)
    ensures s.out <= t.out
  {
  }

  lemma DepthIs()
    ensures DEPTH == 16
  {
  }

  lemma AddrOfZero(p: Program)
    ensures AddrOf(p, 0) == 0
  {
  }

  lemma EmptyRing(s: State)
    requires s.r.sp < s.r.depth
    ensures RingHolds(s.r, [])
  {
  }

  lemma NoReturns(p: Program)
    requires Fits(p)
    ensures LinesOf(p, []) && ReturnAddrs(p, []) == []
  {
  }

  lemma MakeSim(p: Program, s: State, c: Mil)
    requires Fits(p) && c.pc <= |p| && c.rets == [] && LinesOf(p, []) && ReturnAddrs(p, []) == [] && RingHolds(s.r, [])
    requires Quiet(s) && Same(s.r, c) && s.m == c.m && s.out == c.out && Loaded(p, s.m) && s.r.mar == LineAddr(p, c.pc)
    ensures Sim(p, s, c)
  {
    hide Fits, LinesOf, RingHolds, Quiet, Same, Loaded, LineAddr, Code;
  }

  lemma RunningMeans(p: Program, c0: Mil, c: Mil, n: nat, g: Region)
    requires Running(p, c0, c, n, g)
    ensures Leads(p, c0, c, n, g)
  {
  }

  lemma SourceMeans(s: State)
    ensures var c := Source(s, 0);
      c.pc == 0 && c.halted == s.r.halted && c.cp == s.r.cp && c.m == s.m
      && Source(s, 3).(fa := 0, fb := 0) == c.(pc := 3, fa := 0, fb := 0)
  {
  }

  /** The program is in the micro-store and the machine about to execute its first word. */
  ghost predicate Booted(p: Program, s: State) {
    && Loaded(p, s.m) && Quiet(s) && !s.r.halted
    && s.r.mar == 0 && s.r.cp == 0 && s.r.depth == 16 && s.r.sp < 16
  }

  lemma BootedSim(p: Program, s: State)
    requires Booted(p, s) && Fits(p)
    ensures Sim(p, s, Source(s, 0)) && s.r.depth == 16 && !s.r.halted && s.r.cp == 0
  {
    hide *;
    AddrOfZero(p);
    var a := LineAddr(p, 0);
    BootedMeans(p, s);
    EmptyRing(s);
    NoReturns(p);
    MakeSim(p, s, Source(s, 0));
  }

  lemma BootedMeans(p: Program, s: State)
    requires Booted(p, s)
    ensures Loaded(p, s.m) && Quiet(s) && Same(s.r, Source(s, 0)) && s.r.mar == 0 && s.r.depth == 16 && s.r.sp < 16
    ensures Source(s, 0).m == s.m && Source(s, 0).out == s.out && Source(s, 0).pc == 0 && Source(s, 0).rets == []
    ensures !s.r.halted && s.r.cp == 0
  {
    hide Loaded, Quiet;
  }
}
