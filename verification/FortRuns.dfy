/** Whole runs of the S-FORT interpreter on the machine. */
module FortRuns {
  import opened BitMemory
  import opened Registers
  import opened Machine
  import opened Invariants
  import opened Mil
  import opened Footprint
  import opened Simulation
  import opened MilRun
  import opened Boot
  import opened MilSteps
  import opened FortMicrocode
  import opened FortLines
  import opened FortVm
  import opened SCode
  import opened FortRefinement
  import opened FortSteps

  /** The machine stands for the S-FORT state v: it is at FETCH with v in its registers, or both have halted. */
  ghost predicate Stands(start: Word, s: State, v: Vm) {
    && s.out == v.out && s.r.halted == v.halted && RegsIn(s.r.pads, v) && s.r.depth == 16
    && (!v.halted ==> Sim(FortSource(start), s, Source(s, 3)) && Rep(Source(s, 3), v))
  }

  /** The first n instructions from v read their code in `where`. */
  ghost predicate FetchableRun(m: Mem, start: Word, v: Vm, n: nat, where: iset<int>)
    decreases n
  {
    hide *;
    n == 0 || v.halted || (Fetchable(m, v, where) && FetchableRun(m, start, VmStep(m, start, v), n - 1, where))
  }

  lemma FetchBegins(p: Program, c: Mil)
    requires c.pc == 3 && |p| == 190 && p[3] == Label(3) && p[4] == ReadBits(8, false, X, Counts(Inc, Stay)) && !c.halted
    ensures Execute(p, c) == c.(pc := 4) && MicroSteps(p, c) == 0
    ensures MicroSteps(p, c.(pc := 4)) == 1
  {
  }

  /** A trip round FETCH takes at least one machine step. */
  lemma TakesTime(start: Word, c: Mil, d: Mil, e: nat, g: Region)
    requires Leads(FortSource(start), c, d, e, g) && e > 0 && c.pc == 3 && !c.halted && (d.halted || d.pc == 3)
    ensures MicroTotal(FortSource(start), c, e) > 0
  {
    hide *;
    var p := FortSource(start);
    FetchLines(start, 0);
    FetchBegins(p, c);
    LeadsFirst(p, c, d, e, g);
    if e == 1 {
      LeadsNone(p, c.(pc := 4), d, g);
      assert false;
    } else {
      LeadsFirst(p, c.(pc := 4), d, e - 1, g);
    }
  }

  lemma StandsAt(start: Word, s: State, v: Vm)
    requires Stands(start, s, v) && !v.halted
    ensures Sim(FortSource(start), s, Source(s, 3)) && Rep(Source(s, 3), v) && s.r.depth == 16
    ensures Source(s, 3).pc == 3 && !Source(s, 3).halted && Source(s, 3).m == s.m
  {
    hide Sim, RegsIn, FortSource;
  }

  lemma PerformsMeans(start: Word, c: Mil, d: Mil, e: nat, g: Region, v: Vm)
    requires Performs(start, c, d, e, g, v) && c.pc == 3 && !c.halted
    ensures Leads(FortSource(start), c, d, e, g) && e > 0 && d.m == c.m && (d.halted || d.pc == 3)
  {
    hide Leads, FortSource, RegsIn;
  }

  lemma StandsThen(start: Word, c: Mil, d: Mil, e: nat, g: Region, v: Vm, t: State)
    requires Performs(start, c, d, e, g, v) && Sim(FortSource(start), t, d) && t.r.depth == 16
    ensures t.m == c.m && Stands(start, t, v)
  {
    hide *;
    SimSame(FortSource(start), t, d);
    if v.halted {
      HaltedStands(start, c, d, e, g, v, t);
    } else {
      LiveRep(start, c, d, e, g, v);
      SourceIs(FortSource(start), t, d);
      LiveStands(start, t, v);
    }
  }

  lemma HaltedStands(start: Word, c: Mil, d: Mil, e: nat, g: Region, v: Vm, t: State)
    requires Performs(start, c, d, e, g, v) && v.halted && t.r.depth == 16
    requires t.m == d.m && t.out == d.out && t.r.halted == d.halted && t.r.pads == d.pads
    ensures t.m == c.m && Stands(start, t, v)
  {
    hide Leads, FortSource, RegsIn, Sim;
  }

  lemma LiveRep(start: Word, c: Mil, d: Mil, e: nat, g: Region, v: Vm)
    requires Performs(start, c, d, e, g, v) && !v.halted
    ensures Rep(d, v) && d.m == c.m && d.pc == 3 && d.rets == []
  {
    hide Leads, FortSource, RegsIn, Sim;
  }

  lemma LiveStands(start: Word, t: State, v: Vm)
    requires Sim(FortSource(start), t, Source(t, 3)) && Rep(Source(t, 3), v) && t.r.depth == 16
    ensures Stands(start, t, v)
  {
    hide FortSource, RegsIn, Sim;
  }

  /** The machine performs one S-FORT instruction in at least one step. */
  lemma MachineStep(start: Word, s: State, v: Vm, g: Region) returns (k: nat)
    requires Stands(start, s, v) && !v.halted && Guards(g, FortSource(start)) && Fetchable(s.m, v, g.rd)
    ensures k > 0 && ConfinedRun(s, k, g) && Run(s, k).m == s.m && Stands(start, Run(s, k), VmStep(s.m, start, v))
  {
    hide *;
    StandsAt(start, s, v);
    var p, c := FortSource(start), Source(s, 3);
    var d, e := FortStep(start, c, g, v);
    PerformsMeans(start, c, d, e, g, VmStep(s.m, start, v));
    TakesTime(start, c, d, e, g);
    k := MicroTotal(p, c, e);
    DepthIs();
    SimRun(p, s, c, d, e, g);
    StandsThen(start, c, d, e, g, VmStep(s.m, start, v), Run(s, k));
  }

  lemma {:induction false} HaltedVmRun(m: Mem, start: Word, v: Vm, n: nat)
    requires v.halted
    ensures VmRun(m, start, v, n) == v
    decreases n
  {
    if n > 0 {
      HaltedVmRun(m, start, v, n - 1);
    }
  }

  lemma VmRunStep(m: Mem, start: Word, v: Vm, n: nat, where: iset<int>)
    requires n > 0 && !v.halted && FetchableRun(m, start, v, n, where)
    ensures VmRun(m, start, v, n) == VmRun(m, start, VmStep(m, start, v), n - 1)
    ensures Fetchable(m, v, where) && FetchableRun(m, start, VmStep(m, start, v), n - 1, where)
  {
    hide VmStep, Fetchable;
  }

  lemma VmRunZero(m: Mem, start: Word, v: Vm)
    ensures VmRun(m, start, v, 0) == v
  {
  }

  /** Any number of S-FORT instructions, at least one machine step each, keeping to the region throughout. */
  lemma {:induction false} MachineRun(start: Word, s: State, v: Vm, n: nat, g: Region) returns (k: nat)
    requires Stands(start, s, v) && Guards(g, FortSource(start)) && FetchableRun(s.m, start, v, n, g.rd)
    ensures ConfinedRun(s, k, g) && Run(s, k).m == s.m
    ensures Stands(start, Run(s, k), VmRun(s.m, start, v, n))
    ensures !VmRun(s.m, start, v, n).halted ==> k >= n
    decreases n
  {
    hide *;
    k := 0;
    NoSteps(s, g);
    if v.halted {
      HaltedVmRun(s.m, start, v, n);
    } else if n == 0 {
      VmRunZero(s.m, start, v);
    } else {
      VmRunStep(s.m, start, v, n, g.rd);
      var a := MachineStep(start, s, v, g);
      var b := MachineRun(start, Run(s, a), VmStep(s.m, start, v), n - 1, g);
      ConfinedRunAdd(s, a, b, g);
      RunAdd(s, a, b);
      k := a + b;
    }
  }

  // ----- from reset -----

  /** The S-FORT machine that the registers of a booted machine hold. */
  function InitialVm(start: Word, s: State): Vm {
    Vm(start, [s.r.pads[4].left, s.r.pads[5].left, s.r.pads[6].left, s.r.pads[7].left], s.r.pads[1].left, s.out, false)
  }

  lemma InitLines(start: Word)
    ensures var p := FortSource(start); |p| == 190 && p[0] == Label(0) && p[1] == Lit(start, FA) && p[2] == Lit(0, FB)
  {
  }

  lemma InitialRep(start: Word, s: State, d: Mil)
    requires d == Source(s, 3).(fa := start, fb := 0) && !s.r.halted && s.r.cp == 0
    ensures Rep(d, InitialVm(start, s))
  {
  }

  lemma InitialMatches(start: Word, s: State, d: Mil, e: nat, g: Region)
    requires Leads(FortSource(start), Source(s, 0), d, e, g) && e > 0 && d.m == s.m && Rep(d, InitialVm(start, s))
    ensures Performs(start, Source(s, 0), d, e, g, InitialVm(start, s))
  {
    hide Leads, Rep, FortSource;
  }

  /** INIT points FA at the code. */
  lemma Initialises(start: Word, s: State, g: Region) returns (k: nat)
    requires Booted(FortSource(start), s) && Guards(g, FortSource(start))
    ensures ConfinedRun(s, k, g) && Run(s, k).m == s.m && Stands(start, Run(s, k), InitialVm(start, s))
  {
    hide *;
    var p, c := FortSource(start), Source(s, 0);
    InitLines(start);
    SourceMeans(s);
    ProgramFits(start);
    BootedSim(p, s);
    StartRun(p, c, g);
    var c1 := ThenLabel(p, c, c, 0, g);
    var c2 := ThenLitFA(p, c, c1, 1, g, start);
    var d := ThenLitFB(p, c, c2, 2, g, 0);
    InitialRep(start, s, d);
    RunningMeans(p, c, d, 3, g);
    InitialMatches(start, s, d, 3, g);
    DepthIs();
    SimRun(p, s, c, d, 3, g);
    k := MicroTotal(p, c, 3);
    StandsThen(start, c, d, 3, g, InitialVm(start, s), Run(s, k));
  }

  /** A booted interpreter carries out any number of S-FORT instructions inside its region. */
  lemma InterpretsWithin(start: Word, s: State, n: nat, g: Region) returns (k: nat)
    requires Booted(FortSource(start), s) && Guards(g, FortSource(start))
    requires FetchableRun(s.m, start, InitialVm(start, s), n, g.rd)
    ensures ConfinedRun(s, k, g) && Run(s, k).m == s.m
    ensures Stands(start, Run(s, k), VmRun(s.m, start, InitialVm(start, s), n))
    ensures !VmRun(s.m, start, InitialVm(start, s), n).halted ==> k >= n
  {
    hide *;
    var a := Initialises(start, s, g);
    var b := MachineRun(start, Run(s, a), InitialVm(start, s), n, g);
    ConfinedRunAdd(s, a, b, g);
    RunAdd(s, a, b);
    k := a + b;
  }

  // ----- a machine of its own -----

  /** What a field of up to 24 bits at a 24-bit address can reach. */
  predicate Addressable(a: int) {
    0 <= a < 0x100_0018
  }

  /** The region of a process that has the machine to itself. */
  ghost function Everywhere(start: Word): Region {
    Region(16 * |Code(FortSource(start))|, iset a: int | Addressable(a), iset{}, true)
  }

  lemma EverywhereReads(m: Mem, start: Word, v: Vm)
    ensures Guards(Everywhere(start), FortSource(start)) && Fetchable(m, v, Everywhere(start).rd)
  {
    hide Code, Octet8, Up;
  }

  lemma {:induction false} EverywhereRuns(m: Mem, start: Word, v: Vm, n: nat)
    ensures FetchableRun(m, start, v, n, Everywhere(start).rd)
    decreases n
  {
    hide VmStep, Fetchable, Guards, Everywhere;
    if n > 0 {
      EverywhereReads(m, start, v);
      EverywhereRuns(m, start, VmStep(m, start, v), n - 1);
    }
  }

  lemma StandsMeans(start: Word, s: State, v: Vm)
    requires Stands(start, s, v)
    ensures s.out == v.out && s.r.halted == v.halted && RegsIn(s.r.pads, v)
  {
    hide Sim, RegsIn, FortSource;
  }

  /** After some number of steps, at least n while the S-FORT program goes on, the machine has printed what n
      S-FORT instructions print and has halted if they have. */
  lemma Interprets(start: Word, s: State, n: nat) returns (k: nat)
    requires Booted(FortSource(start), s)
    ensures var v := VmRun(s.m, start, InitialVm(start, s), n); var t := Run(s, k);
      t.m == s.m && t.out == v.out && t.r.halted == v.halted && RegsIn(t.r.pads, v) && (!v.halted ==> k >= n)
  {
    hide *;
    var v := InitialVm(start, s);
    EverywhereReads(s.m, start, v);
    EverywhereRuns(s.m, start, v, n);
    k := InterpretsWithin(start, s, n, Everywhere(start));
    StandsMeans(start, Run(s, k), VmRun(s.m, start, v, n));
  }

  /** Whatever the machine has printed by some step, the S-FORT program prints; and once the machine has halted
      the S-FORT program has halted having printed the same. */
  lemma Faithful(start: Word, s: State, k: nat) returns (n: nat)
    requires Booted(FortSource(start), s)
    ensures var v := VmRun(s.m, start, InitialVm(start, s), n);
      Run(s, k).out <= v.out && (Run(s, k).r.halted ==> v.halted && v.out == Run(s, k).out)
  {
    hide *;
    n := k;
    var j := Interprets(start, s, n);
    if j >= k {
      RunAdd(s, k, j - k);
      RunKeeps(Run(s, k), j - k);
      OutKept(Run(s, k), Run(s, j));
      if Run(s, k).r.halted {
        HaltedRun(Run(s, k), j - k);
      }
    } else {
      RunAdd(s, j, k - j);
      HaltedRun(Run(s, j), k - j);
    }
  }

  ghost predicate VmHalts(m: Mem, start: Word, v: Vm) {
    exists n: nat :: VmRun(m, start, v, n).halted
  }

  lemma VmHaltsBy(m: Mem, start: Word, v: Vm, n: nat)
    requires VmRun(m, start, v, n).halted
    ensures VmHalts(m, start, v)
  {
  }

  lemma VmHaltingTime(m: Mem, start: Word, v: Vm) returns (n: nat)
    requires VmHalts(m, start, v)
    ensures VmRun(m, start, v, n).halted
  {
    n :| VmRun(m, start, v, n).halted;
  }

  /** The machine halts exactly when the S-FORT program does. */
  lemma HaltsExactly(start: Word, s: State)
    requires Booted(FortSource(start), s)
    ensures Halts(s) <==> VmHalts(s.m, start, InitialVm(start, s))
  {
    hide *;
    var v := InitialVm(start, s);
    if Halts(s) {
      var k := HaltingTime(s);
      var n := Faithful(start, s, k);
      VmHaltsBy(s.m, start, v, n);
    }
    if VmHalts(s.m, start, v) {
      var n := VmHaltingTime(s.m, start, v);
      var j := Interprets(start, s, n);
      HaltsBy(s, j);
    }
  }

  /** Once both have halted, both have printed the same. */
  lemma SameOutput(start: Word, s: State, k: nat, n: nat)
    requires Booted(FortSource(start), s)
    requires Run(s, k).r.halted && VmRun(s.m, start, InitialVm(start, s), n).halted
    ensures Run(s, k).out == VmRun(s.m, start, InitialVm(start, s), n).out
  {
    hide *;
    var j := Interprets(start, s, n);
    HaltedAlike(s, j, k);
  }

}
