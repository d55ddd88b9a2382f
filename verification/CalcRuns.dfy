/** Whole runs of the S-CALC interpreter on the machine. */
module CalcRuns {
  import opened BitMemory
  import opened Registers
  import opened Machine
  import opened Invariants
  import opened Mil
  import opened Footprint
  import opened Simulation
  import opened MilRun
  import opened Boot
  import opened MilSteps
  import opened CalcMicrocode
  import opened CalcLines
  import opened CalcVm
  import opened CalcRefinement

  /** The machine stands for the S-CALC state v, and memory outside the stack space is still m0. */
  ghost predicate Stands(sp: Space, m0: Mem, s: State, v: Calc) {
    && s.out == v.out && s.r.halted == v.halted && s.r.depth == 16 && SameOutside(m0, s.m, sp)
    && (!v.halted ==> Sim(Prog(sp), s, Source(s, 8)) && Rep(sp, m0, Source(s, 8), v))
  }

  lemma FetchBegins(p: Program, c: Mil)
    requires c.pc == 8 && |p| == 108 && p[8] == Label(8) && p[9] == ReadBits(8, false, X, Counts(Inc, Stay)) && !c.halted
    ensures Execute(p, c) == c.(pc := 9) && MicroSteps(p, c) == 0
    ensures MicroSteps(p, c.(pc := 9)) == 1
  {
  }

  lemma TakesTime(sp: Space, c: Mil, d: Mil, e: nat, g: Region)
    requires Leads(Prog(sp), c, d, e, g) && e > 0 && c.pc == 8 && !c.halted && (d.halted || d.pc == 8)
    ensures MicroTotal(Prog(sp), c, e) > 0
  {
    hide *;
    var p := Prog(sp);
    FetchLines(sp, 0);
    FetchBegins(p, c);
    LeadsFirst(p, c, d, e, g);
    if e == 1 {
      LeadsNone(p, c.(pc := 9), d, g);
      assert false;
    } else {
      LeadsFirst(p, c.(pc := 9), d, e - 1, g);
    }
  }

  lemma StandsAt(sp: Space, m0: Mem, s: State, v: Calc)
    requires Stands(sp, m0, s, v) && !v.halted
    ensures Sim(Prog(sp), s, Source(s, 8)) && Rep(sp, m0, Source(s, 8), v) && s.r.depth == 16
    ensures Source(s, 8).pc == 8 && !Source(s, 8).halted && Source(s, 8).m == s.m
  {
    hide Sim, Prog, StackIn, SameOutside;
  }

  lemma PerformsMeans(sp: Space, m0: Mem, c: Mil, d: Mil, e: nat, g: Region, v: Calc)
    requires Performs(sp, m0, c, d, e, g, v) && c.pc == 8 && !c.halted
    ensures Leads(Prog(sp), c, d, e, g) && e > 0 && (d.halted || d.pc == 8) && d.rets == []
  {
    hide Leads, Prog, StackIn, SameOutside;
  }

  lemma StandsThen(sp: Space, m0: Mem, c: Mil, d: Mil, e: nat, g: Region, v: Calc, t: State)
    requires Performs(sp, m0, c, d, e, g, v) && Sim(Prog(sp), t, d) && t.r.depth == 16 && d.rets == []
    ensures Stands(sp, m0, t, v)
  {
    SourceIs(Prog(sp), t, d);
    hide Leads, Prog, StackIn, SameOutside, Sim;
  }

  /** The machine performs one S-CALC instruction in at least one step. */
  lemma MachineStep(sp: Space, m0: Mem, s: State, v: Calc, micro: nat) returns (k: nat)
    requires Stands(sp, m0, s, v) && !v.halted && Guards(SpaceRegion(sp, micro), Prog(sp))
    requires Within(m0, sp, v) && Laid(sp, micro, |m0|)
    ensures k > 0 && ConfinedRun(s, k, SpaceRegion(sp, micro)) && Stands(sp, m0, Run(s, k), CalcStep(m0, v))
  {
    hide *;
    StandsAt(sp, m0, s, v);
    var p, c, g := Prog(sp), Source(s, 8), SpaceRegion(sp, micro);
    var d, e := PerformsStep(sp, m0, c, micro, v);
    PerformsMeans(sp, m0, c, d, e, g, CalcStep(m0, v));
    TakesTime(sp, c, d, e, g);
    k := MicroTotal(p, c, e);
    DepthIs();
    SimRun(p, s, c, d, e, g);
    StandsThen(sp, m0, c, d, e, g, CalcStep(m0, v), Run(s, k));
  }

  lemma {:induction false} HaltedCalcRun(m: Mem, v: Calc, n: nat)
    requires v.halted
    ensures CalcRun(m, v, n) == v
    decreases n
  {
    if n > 0 {
      HaltedCalcRun(m, v, n - 1);
    }
  }

  lemma CalcRunStep(m: Mem, sp: Space, v: Calc, n: nat)
    requires n > 0 && !v.halted && WithinRun(m, sp, v, n)
    ensures CalcRun(m, v, n) == CalcRun(m, CalcStep(m, v), n - 1)
    ensures Within(m, sp, v) && WithinRun(m, sp, CalcStep(m, v), n - 1)
  {
    hide CalcStep, Within;
  }

  lemma CalcRunZero(m: Mem, v: Calc)
    ensures CalcRun(m, v, 0) == v
  {
  }

  /** Any number of S-CALC instructions, at least one machine step each, keeping to code and stack throughout. */
  lemma {:induction false} MachineRun(sp: Space, m0: Mem, s: State, v: Calc, n: nat, micro: nat) returns (k: nat)
    requires Stands(sp, m0, s, v) && Guards(SpaceRegion(sp, micro), Prog(sp))
    requires WithinRun(m0, sp, v, n) && Laid(sp, micro, |m0|)
    ensures ConfinedRun(s, k, SpaceRegion(sp, micro)) && Stands(sp, m0, Run(s, k), CalcRun(m0, v, n))
    ensures !CalcRun(m0, v, n).halted ==> k >= n
    decreases n
  {
    hide *;
    k := 0;
    var g := SpaceRegion(sp, micro);
    NoSteps(s, g);
    if v.halted {
      HaltedCalcRun(m0, v, n);
    } else if n == 0 {
      CalcRunZero(m0, v);
    } else {
      CalcRunStep(m0, sp, v, n);
      var a := MachineStep(sp, m0, s, v, micro);
      var b := MachineRun(sp, m0, Run(s, a), CalcStep(m0, v), n - 1, micro);
      ConfinedRunAdd(s, a, b, g);
      RunAdd(s, a, b);
      k := a + b;
    }
  }

  // ----- from reset -----

  function InitialCalc(sp: Space, s: State): Calc {
    Calc(sp.start, [], s.out, false)
  }

  lemma InitialRep(sp: Space, s: State, d: Mil)
    requires d.pc == 8 && d.fa == sp.start && d.cp == 0 && d.rets == [] && d.out == s.out && !d.halted && d.m == s.m
    requires d.pads[1].left == sp.base <= sp.limit
    ensures Rep(sp, s.m, d, InitialCalc(sp, s))
  {
  }

  lemma InitialMatches(sp: Space, s: State, d: Mil, e: nat, g: Region)
    requires Leads(Prog(sp), Source(s, 0), d, e, g) && e > 0 && Rep(sp, s.m, d, InitialCalc(sp, s))
    ensures Performs(sp, s.m, Source(s, 0), d, e, g, InitialCalc(sp, s)) && d.rets == []
  {
    hide Leads, Prog, StackIn, SameOutside;
  }

  lemma PadsSet(pads: Pads, a: Word, b: Word)
    ensures var q := pads[0 := Pad(a, 0)][1 := Pad(b, 0)]; q[0] == Pad(a, 0) && q[1 := Pad(b, 0)][1].left == b
  {
  }

  /** INIT points FA at the code and scratchpad word 1 at the empty stack. */
  lemma Initialises(sp: Space, s: State, micro: nat) returns (k: nat)
    requires Booted(Prog(sp), s) && Guards(SpaceRegion(sp, micro), Prog(sp)) && sp.base <= sp.limit
    ensures ConfinedRun(s, k, SpaceRegion(sp, micro)) && Stands(sp, s.m, Run(s, k), InitialCalc(sp, s))
  {
    hide *;
    var p, c, g := Prog(sp), Source(s, 0), SpaceRegion(sp, micro);
    ProgIs(sp);
    InitLines(sp.start, sp.base);
    SourceMeans(s);
    ProgramFits(sp.start, sp.base);
    BootedSim(p, s);
    StartRun(p, c, g);
    var c1 := ThenLabel(p, c, c, 0, g);
    var c2 := ThenLitFA(p, c, c1, 1, g, sp.start);
    var c3 := ThenLitFB(p, c, c2, 2, g, 0);
    var c4 := ThenStoreF(p, c, c3, 3, g, 0);
    var c5 := ThenLitFA(p, c, c4, 4, g, sp.base);
    var c6 := ThenLitFB(p, c, c5, 5, g, 0);
    var c7 := ThenStoreF(p, c, c6, 6, g, 1);
    var d := ThenXch(p, c, c7, 7, g, 0, 1);
    PadsSet(c.pads, sp.start, sp.base);
    SourceHas(s);
    InitialRep(sp, s, d);
    RunningMeans(p, c, d, 8, g);
    InitialMatches(sp, s, d, 8, g);
    DepthIs();
    SimRun(p, s, c, d, 8, g);
    k := MicroTotal(p, c, 8);
    StandsThen(sp, s.m, c, d, 8, g, InitialCalc(sp, s), Run(s, k));
  }

  lemma SourceHas(s: State)
    ensures Source(s, 0).rets == [] && Source(s, 0).out == s.out
  {
  }

  /** A booted interpreter carries out any number of S-CALC instructions inside its code and stack. */
  lemma InterpretsWithin(sp: Space, s: State, n: nat, micro: nat) returns (k: nat)
    requires Booted(Prog(sp), s) && Guards(SpaceRegion(sp, micro), Prog(sp)) && Laid(sp, micro, |s.m|)
    requires sp.base <= sp.limit && WithinRun(s.m, sp, InitialCalc(sp, s), n)
    ensures ConfinedRun(s, k, SpaceRegion(sp, micro))
    ensures Stands(sp, s.m, Run(s, k), CalcRun(s.m, InitialCalc(sp, s), n))
    ensures !CalcRun(s.m, InitialCalc(sp, s), n).halted ==> k >= n
  {
    hide *;
    var a := Initialises(sp, s, micro);
    var b := MachineRun(sp, s.m, Run(s, a), InitialCalc(sp, s), n, micro);
    ConfinedRunAdd(s, a, b, SpaceRegion(sp, micro));
    RunAdd(s, a, b);
    k := a + b;
  }

  lemma StandsMeans(sp: Space, m0: Mem, s: State, v: Calc)
    requires Stands(sp, m0, s, v)
    ensures s.out == v.out && s.r.halted == v.halted && SameOutside(m0, s.m, sp)
  {
    hide Sim, Rep, SameOutside, Prog;
  }

  /** Bits of micro-code of the interpreter. */
  function MicroBits(sp: Space): nat { 16 * |Code(Prog(sp))| }

  lemma Guarded(sp: Space)
    requires MicroBits(sp) <= sp.base
    ensures Guards(SpaceRegion(sp, MicroBits(sp)), Prog(sp))
  {
    hide Code, Prog;
  }

  /** The program and its stack have room, and it neither underflows nor overflows for n instructions. */
  ghost predicate Sound(sp: Space, s: State, n: nat) {
    && Booted(Prog(sp), s) && Laid(sp, MicroBits(sp), |s.m|) && sp.base <= sp.limit
    && WithinRun(s.m, sp, InitialCalc(sp, s), n)
  }

  lemma SoundMeans(sp: Space, s: State, n: nat)
    requires Sound(sp, s, n)
    ensures Booted(Prog(sp), s) && Laid(sp, MicroBits(sp), |s.m|) && sp.base <= sp.limit && MicroBits(sp) <= sp.base
    ensures WithinRun(s.m, sp, InitialCalc(sp, s), n)
  {
    hide Booted, Prog, MicroBits, WithinRun;
  }

  /** After some number of steps, at least n while the program goes on, the machine has printed what n S-CALC
      instructions print, has halted if they have, and has changed memory only in the stack space. */
  lemma Interprets(sp: Space, s: State, n: nat) returns (k: nat)
    requires Sound(sp, s, n)
    ensures var v := CalcRun(s.m, InitialCalc(sp, s), n); var t := Run(s, k);
      t.out == v.out && t.r.halted == v.halted && SameOutside(s.m, t.m, sp) && (!v.halted ==> k >= n)
  {
    hide *;
    SoundMeans(sp, s, n);
    Guarded(sp);
    k := InterpretsWithin(sp, s, n, MicroBits(sp));
    StandsMeans(sp, s.m, Run(s, k), CalcRun(s.m, InitialCalc(sp, s), n));
  }

  /** Whatever the machine has printed after k steps, k S-CALC instructions print; and once the machine has halted
      the S-CALC program has halted having printed the same. */
  lemma Faithful(sp: Space, s: State, k: nat)
    requires Sound(sp, s, k)
    ensures var v := CalcRun(s.m, InitialCalc(sp, s), k);
      Run(s, k).out <= v.out && (Run(s, k).r.halted ==> v.halted && v.out == Run(s, k).out)
  {
    hide *;
    var j := Interprets(sp, s, k);
    if j >= k {
      RunAdd(s, k, j - k);
      RunKeeps(Run(s, k), j - k);
      OutKept(Run(s, k), Run(s, j));
      if Run(s, k).r.halted {
        HaltedRun(Run(s, k), j - k);
      }
    } else {
      RunAdd(s, j, k - j);
      HaltedRun(Run(s, j), k - j);
    }
  }

  ghost predicate CalcHalts(m: Mem, v: Calc) {
    exists n: nat :: CalcRun(m, v, n).halted
  }

  lemma CalcHaltsBy(m: Mem, v: Calc, n: nat)
    requires CalcRun(m, v, n).halted
    ensures CalcHalts(m, v)
  {
  }

  lemma CalcHaltingTime(m: Mem, v: Calc) returns (n: nat)
    requires CalcHalts(m, v)
    ensures CalcRun(m, v, n).halted
  {
    n :| CalcRun(m, v, n).halted;
  }

  /** The machine halts exactly when the S-CALC program does. */
  lemma HaltsExactly(sp: Space, s: State)
    requires forall n: nat :: Sound(sp, s, n)
    ensures Halts(s) <==> CalcHalts(s.m, InitialCalc(sp, s))
  {
    hide *;
    var v := InitialCalc(sp, s);
    if Halts(s) {
      var k := HaltingTime(s);
      assert Sound(sp, s, k);
      Faithful(sp, s, k);
      CalcHaltsBy(s.m, v, k);
    }
    if CalcHalts(s.m, v) {
      var n := CalcHaltingTime(s.m, v);
      assert Sound(sp, s, n);
      var j := Interprets(sp, s, n);
      HaltsBy(s, j);
    }
  }
}
