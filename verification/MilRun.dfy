/** Runs of several source lines and the machine runs that carry them out. */
module MilRun {
  import opened Mil
  import opened Registers
  import opened Machine
  import opened Footprint
  import opened Invariants
  import opened Simulation
  import opened SimulationControl

  /** From c, n lines that may all run lead to d. */
  ghost predicate Leads(p: Program, c: Mil, d: Mil, n: nat, g: Region)
    decreases n
  {
    hide *;
    if n == 0 then c == d
    else Ready(p, c, DEPTH, g) && Leads(p, Execute(p, c), d, n - 1, g)
  }

  /** A-stack depth of the B1710. */
  const DEPTH: nat := 16

  lemma {:induction false} LeadsOn(p: Program, c: Mil, d: Mil, e: Mil, n: nat, k: nat, g: Region)
    requires Leads(p, c, d, n, g) && Leads(p, d, e, k, g)
    ensures Leads(p, c, e, n + k, g)
    decreases n
  {
    hide Ready, Execute;
    if n > 0 {
      LeadsOn(p, Execute(p, c), d, e, n - 1, k, g);
      assert n + k - 1 == (n - 1) + k;
    }
  }

  lemma LeadsOne(p: Program, c: Mil, g: Region)
    requires Ready(p, c, DEPTH, g)
    ensures Leads(p, c, Execute(p, c), 1, g)
  {
    hide Ready, Execute;
    assert Leads(p, Execute(p, c), Execute(p, c), 0, g);
  }

  /** Machine steps of n lines. */
  function MicroTotal(p: Program, c: Mil, n: nat): nat
    decreases n
  {
    hide *;
    if n == 0 || c.pc >= |p| then 0 else MicroSteps(p, c) + MicroTotal(p, Execute(p, c), n - 1)
  }

  lemma {:induction false} ConfinedRunAdd(s: State, a: nat, b: nat, g: Region)
    requires ConfinedRun(s, a, g) && ConfinedRun(Run(s, a), b, g)
    ensures ConfinedRun(s, a + b, g)
    decreases a
  {
    hide Step, Confined;
    if a > 0 {
      ConfinedRunAdd(Step(s), a - 1, b, g);
      assert a + b - 1 == (a - 1) + b;
    }
  }

  /** Whole runs: the machine carries out any run of source lines, keeping to the region throughout. */
  lemma {:induction false} SimRun(p: Program, s: State, c: Mil, d: Mil, n: nat, g: Region)
    requires Sim(p, s, c) && Leads(p, c, d, n, g) && s.r.depth == DEPTH
    ensures var k := MicroTotal(p, c, n);
      ConfinedRun(s, k, g) && Sim(p, Run(s, k), d) && Run(s, k).r.depth == DEPTH
    decreases n
  {
    if n == 0 {
      hide Ready, Execute, Sim, Step, Confined;
    } else {
      hide *;
      LeadsStart(p, c, d, n, g);
      SimLine(p, s, c, g, DEPTH);
      var k := MicroSteps(p, c);
      RunKeepsDepth(s, k);
      SimRun(p, Run(s, k), Execute(p, c), d, n - 1, g);
      var j := MicroTotal(p, Execute(p, c), n - 1);
      ConfinedRunAdd(s, k, j, g);
      RunAdd(s, k, j);
    }
  }

  lemma RunKeepsDepth(s: State, k: nat)
    ensures Run(s, k).r.depth == s.r.depth
  {
    hide Run;
    RunKeeps(s, k);
  }

  lemma LeadsStart(p: Program, c: Mil, d: Mil, n: nat, g: Region)
    requires Leads(p, c, d, n, g) && n > 0
    ensures Ready(p, c, DEPTH, g) && c.pc < |p| && Leads(p, Execute(p, c), d, n - 1, g)
    ensures MicroTotal(p, c, n) == MicroSteps(p, c) + MicroTotal(p, Execute(p, c), n - 1)
  {
    hide Execute, MicroSteps, LineWithin, Guards;
  }
}
