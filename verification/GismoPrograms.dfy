/** Gismo with its two interpreters: an S-CALC and an S-FORT program sharing the machine. */
module GismoPrograms {
  import opened Bits
  import opened BitMemory
  import opened Registers
  import opened Machine
  import opened Footprint
  import opened MilRun
  import opened Boot
  import opened SCode
  import opened Gismo
  import Simulation
  import Mil
  import MicroImage
  import CalcMicrocode
  import CalcVm
  import CalcRefinement
  import CalcRuns
  import FortMicrocode
  import FortVm
  import FortRuns
  import FortAssembler
  import FortLanguage
  import FortPrograms

  type Source = FortLanguage.Source

  // ----- an interpreter alone in the micro-store -----

  lemma ImageLoaded(m: Mem, p: Mil.Program)
    requires MicroImage.AllPlain(p) && 16 * |Mil.Code(p)| <= |m|
    ensures Simulation.Loaded(p, LoadInterp(m, MicroImage.Image(Mil.Code(p))))
  {
    hide Mil.Code, MicroImage.AllPlain, MicroImage.Image, Simulation.Loaded;
    MicroImage.ImageLoads(p, LoadInterp(m, MicroImage.Image(Mil.Code(p))));
  }

  lemma SoloBooted(m: Mem, p: Mil.Program)
    requires Simulation.Loaded(p, LoadInterp(m, MicroImage.Image(Mil.Code(p))))
    ensures Booted(p, Solo(m, MicroImage.Image(Mil.Code(p))))
  {
    hide Simulation.Loaded, MicroImage.Image, Mil.Code, LoadInterp;
  }

  lemma {:induction false} ConfinedAt(s: State, k: nat, g: Region, n: nat)
    requires ConfinedRun(s, k, g) && n < k
    ensures Confined(Run(s, n), g)
    decreases n
  {
    hide Step, Confined;
    if n > 0 {
      ConfinedAt(Step(s), k - 1, g, n - 1);
    }
  }

  /** A run confined for k steps that then goes on past n or has halted is confined or halted at n. */
  lemma ConfinedOrHalted(s: State, k: nat, g: Region, n: nat)
    requires ConfinedRun(s, k, g) && (k > n || Run(s, k).r.halted)
    ensures Run(s, n).r.halted || Confined(Run(s, n), g)
  {
    hide *;
    if n < k {
      ConfinedAt(s, k, g, n);
    } else {
      RunAdd(s, k, n - k);
      HaltedRun(Run(s, k), n - k);
    }
  }

  // ----- S-CALC -----

  /** The S-CALC program of l: its code and stack as sp says, never underflowing or overflowing. */
  ghost predicate CalcLoad(l: Load, sp: CalcVm.Space) {
    && l.imgA == MicroImage.Image(Mil.Code(CalcRefinement.Prog(sp)))
    && l.gA == CalcVm.SpaceRegion(sp, CalcRuns.MicroBits(sp))
    && 0x2000 <= sp.start && 0x2000 <= sp.base <= sp.limit <= |l.m|
    && (sp.start + sp.code <= sp.base || sp.limit <= sp.start)
    && forall n: nat :: CalcVm.WithinRun(SoloA(l).m, sp, CalcVm.Calc(sp.start, [], [], false), n)
  }

  lemma CalcMicroSize(sp: CalcVm.Space)
    ensures CalcRuns.MicroBits(sp) <= 0x2000
  {
    CalcMicrocode.ProgramFits(sp.start, sp.base);
    hide Mil.Code;
  }

  lemma CalcSound(l: Load, sp: CalcVm.Space, n: nat)
    requires CalcLoad(l, sp)
    ensures CalcRuns.Sound(sp, SoloA(l), n)
    ensures CalcRuns.InitialCalc(sp, SoloA(l)) == CalcVm.Calc(sp.start, [], [], false)
  {
    hide Mil.Code, MicroImage.Image, Booted, LoadInterp, CalcVm.WithinRun, CalcMicrocode.CalcSource;
    CalcMicroSize(sp);
    CalcMicrocode.ProgramFits(sp.start, sp.base);
    MicroImage.CalcPlain(sp.start, sp.base);
    hide MicroImage.AllPlain;
    ImageLoaded(l.m, CalcRefinement.Prog(sp));
    SoloBooted(l.m, CalcRefinement.Prog(sp));
  }

  lemma CalcRegionIs(l: Load, sp: CalcVm.Space)
    requires CalcLoad(l, sp)
    ensures l.gA == CalcVm.SpaceRegion(sp, CalcRuns.MicroBits(sp))
  {
    hide CalcVm.SpaceRegion, CalcRuns.MicroBits, CalcVm.WithinRun;
  }

  lemma CalcStays(l: Load, sp: CalcVm.Space)
    requires CalcLoad(l, sp)
    ensures Stays(SoloA(l), l.gA)
  {
    hide *;
    var s := SoloA(l);
    CalcRegionIs(l, sp);
    forall n: nat
      ensures Run(s, n).r.halted || Confined(Run(s, n), l.gA)
    {
      CalcSound(l, sp, n + 1);
      CalcRuns.SoundMeans(sp, s, n + 1);
      CalcRuns.Guarded(sp);
      var k := CalcRuns.InterpretsWithin(sp, s, n + 1, CalcRuns.MicroBits(sp));
      CalcRuns.StandsMeans(sp, s.m, Run(s, k), CalcVm.CalcRun(s.m, CalcRuns.InitialCalc(sp, s), n + 1));
      ConfinedOrHalted(s, k, l.gA, n);
    }
    MakeStays(s, l.gA);
  }

  lemma MakeStays(s: State, g: Region)
    requires forall n: nat :: Run(s, n).r.halted || Confined(Run(s, n), g)
    ensures Stays(s, g)
  {
    hide Run, Confined;
  }

  // ----- S-FORT -----

  predicate InProgram(start: Word, end: nat, a: int) {
    start <= a < end
  }

  /** The region of the assembled program and the zero byte after it. */
  ghost function FortRegion(start: Word, b: seq<Octet>): Region {
    var end := start + 8 * |b| + 8;
    Region(16 * |Mil.Code(FortMicrocode.FortSource(start))|, iset a: int | InProgram(start, end, a), iset{}, true)
  }

  /** The S-FORT program of l: the assembled bytes of src at `start`. */
  ghost predicate FortLoad(l: Load, start: Word, src: Source) {
    && FortLanguage.ErrorFree(src)
    && var b := FortAssembler.Bytes(src, |src|);
    && l.imgB == MicroImage.Image(Mil.Code(FortMicrocode.FortSource(start)))
    && l.gB == FortRegion(start, b)
    && 0x2000 <= start && 0x2000 <= |l.m| && |b| < 8192 && FortPrograms.CodeIn(SoloB(l).m, start, b)
  }

  lemma ReadableIn(start: Word, b: seq<Octet>, a: Word, n: nat)
    requires start <= a && a + n <= start + 8 * |b| + 8
    ensures Readable(a, n, FortRegion(start, b).rd)
  {
  }

  /** The instruction at a line reads only the program's bytes. */
  lemma LineFetchable(src: Source, m: Mem, start: Word, v: FortVm.Vm, j: nat)
    requires FortLanguage.ErrorFree(src) && FortPrograms.CodeIn(m, start, FortAssembler.Bytes(src, |src|))
    requires j < |src| && src[j].Instr? && start + 8 * FortAssembler.Pos(src, j) == v.pc
    ensures FortVm.Fetchable(m, v, FortRegion(start, FortAssembler.Bytes(src, |src|)).rd)
  {
    hide *;
    var b := FortAssembler.Bytes(src, |src|);
    FortPrograms.CodeAtLine(src, m, start, j);
    FortPrograms.SoundLine(src, j);
    FortPrograms.InRange(src, m, start, j);
    InsnFetchable(m, start, v, FortAssembler.Meaning(src, j).insn, b);
  }

  lemma InsnFetchable(m: Mem, start: Word, v: FortVm.Vm, n: FortAssembler.Insn, b: seq<Octet>)
    requires FortAssembler.Sound(n) && FortPrograms.BytesAt(m, v.pc, FortAssembler.Encode(n))
    requires start <= v.pc && v.pc + 8 * |FortAssembler.Encode(n)| <= start + 8 * |b|
    ensures FortVm.Fetchable(m, v, FortRegion(start, b).rd)
  {
    hide Octet8, FortRegion, Readable, Up;
    ReadableIn(start, b, v.pc, 8);
    FortPrograms.UpWithin(v.pc, 8);
    if !n.Halt? {
      ReadableIn(start, b, v.pc + 8, 8);
      FortPrograms.UpWithin(v.pc + 8, 8);
      match n
      case Load(_, _) => ReadableIn(start, b, v.pc + 16, 16);
      case Arith(_, _, _, _) =>
        ReadableIn(start, b, v.pc + 16, 8);
        FortPrograms.UpWithin(v.pc + 16, 8);
        ReadableIn(start, b, v.pc + 24, 8);
      case Move(_, _) => ReadableIn(start, b, v.pc + 16, 8);
      case Compare(_, _) => ReadableIn(start, b, v.pc + 16, 8);
      case Branch(_, _) => ReadableIn(start, b, v.pc + 8, 16);
      case Print(_) =>
    }
  }

  lemma EndFetchable(m: Mem, start: Word, v: FortVm.Vm, b: seq<Octet>)
    requires start + 8 * |b| + 8 <= 0x100_0000 && v.pc == start + 8 * |b| && Octet8(m, v.pc) == 0
    ensures FortVm.Fetchable(m, v, FortRegion(start, b).rd)
  {
    hide Octet8, FortRegion, Readable, Up;
    ReadableIn(start, b, v.pc, 8);
  }

  lemma EndIs(src: Source, m: Mem, start: Word)
    requires FortLanguage.ErrorFree(src) && FortPrograms.CodeIn(m, start, FortAssembler.Bytes(src, |src|))
    ensures FortAssembler.Pos(src, |src|) == |FortAssembler.Bytes(src, |src|)|
    ensures start + 8 * |FortAssembler.Bytes(src, |src|)| + 8 <= 0x100_0000
    ensures Octet8(m, start + 8 * |FortAssembler.Bytes(src, |src|)|) == 0
  {
    hide FortLanguage.ErrorFree, FortAssembler.Pos, FortAssembler.Bytes, Octet8;
    FortAssembler.PassesAgree(src, |src|);
  }

  lemma FollowsFetchable(src: Source, m: Mem, start: Word, v: FortVm.Vm, f: FortLanguage.Fort)
    requires FortLanguage.ErrorFree(src) && FortPrograms.CodeIn(m, start, FortAssembler.Bytes(src, |src|))
    requires FortPrograms.Follows(src, start, v, f) && !f.halted
    ensures FortVm.Fetchable(m, v, FortRegion(start, FortAssembler.Bytes(src, |src|)).rd)
  {
    hide *;
    FortPrograms.FollowsAt(src, start, v, f);
    FortPrograms.SkipsLabels(src, f.line);
    var j := FortLanguage.NextInstr(src, f.line);
    if j < |src| {
      LineFetchable(src, m, start, v, j);
    } else {
      EndIs(src, m, start);
      EndFetchable(m, start, v, FortAssembler.Bytes(src, |src|));
    }
  }

  lemma {:induction false} FollowsFetchableRun(src: Source, m: Mem, start: Word, v: FortVm.Vm, f: FortLanguage.Fort,
                                               n: nat)
    requires FortLanguage.ErrorFree(src) && FortPrograms.CodeIn(m, start, FortAssembler.Bytes(src, |src|))
    requires |FortAssembler.Bytes(src, |src|)| < 8192 && FortPrograms.Follows(src, start, v, f)
    ensures FortRuns.FetchableRun(m, start, v, n, FortRegion(start, FortAssembler.Bytes(src, |src|)).rd)
    decreases n
  {
    hide FortVm.Fetchable, FortVm.VmStep, FortRegion, FortLanguage.ErrorFree, FortAssembler.Bytes, FortPrograms.CodeIn,
      FortLanguage.Next, FortAssembler.Pos;
    if n > 0 && !v.halted {
      FollowsFetchable(src, m, start, v, f);
      FortPrograms.FollowsStep(src, m, start, v, f);
      FollowsFetchableRun(src, m, start, FortVm.VmStep(m, start, v), FortLanguage.Next(src, f), n - 1);
    }
  }

  lemma FortGuarded(start: Word, b: seq<Octet>)
    ensures Simulation.Guards(FortRegion(start, b), FortMicrocode.FortSource(start))
  {
    hide Mil.Code, FortMicrocode.FortSource;
  }

  lemma FortPrepared(l: Load, start: Word, src: Source)
    requires FortLoad(l, start, src)
    ensures FortPrograms.Prepared(src, start, SoloB(l)) && FortLanguage.ErrorFree(src)
    ensures l.gB == FortRegion(start, FortAssembler.Bytes(src, |src|))
  {
    hide Mil.Code, MicroImage.Image, Booted, LoadInterp, FortLanguage.ErrorFree, FortAssembler.Bytes,
      FortPrograms.CodeIn,
      FortMicrocode.FortSource, FortRegion;
    FortMicrocode.WithinMicroStore(start);
    MicroImage.FortPlain(start);
    hide MicroImage.AllPlain;
    ImageLoaded(l.m, FortMicrocode.FortSource(start));
    SoloBooted(l.m, FortMicrocode.FortSource(start));
  }

  lemma FortStays(l: Load, start: Word, src: Source)
    requires FortLoad(l, start, src)
    ensures Stays(SoloB(l), l.gB)
  {
    hide *;
    var s, b := SoloB(l), FortAssembler.Bytes(src, |src|);
    FortPrepared(l, start, src);
    FortPrograms.Starts(src, start, s);
    FortGuarded(start, b);
    var v := FortRuns.InitialVm(start, s);
    forall n: nat
      ensures Run(s, n).r.halted || Confined(Run(s, n), l.gB)
    {
      FollowsFetchableRun(src, s.m, start, v, FortLanguage.START, n + 1);
      var k := FortRuns.InterpretsWithin(start, s, n + 1, l.gB);
      FortRuns.StandsMeans(start, Run(s, k), FortVm.VmRun(s.m, start, v, n + 1));
      ConfinedOrHalted(s, k, l.gB, n);
    }
    MakeStays(s, l.gB);
  }

  // ----- both -----

  /** Both programs are loaded and keep out of each other's way. */
  ghost predicate Shared(l: Load, sp: CalcVm.Space, start: Word, src: Source) {
    && CalcLoad(l, sp) && FortLoad(l, start, src)
    && var end := start + 8 * |FortAssembler.Bytes(src, |src|)| + 8;
    && (end <= sp.base || sp.limit <= start)
  }

  lemma SharedProper(l: Load, sp: CalcVm.Space, start: Word, src: Source)
    requires Shared(l, sp, start, src)
    ensures Proper(l)
  {
    hide CalcLoad, FortLoad, Stays, Solo, FortAssembler.Bytes, FortLanguage.ErrorFree;
    CalcStays(l, sp);
    FortStays(l, start, src);
    CalcFit(l, sp);
    FortFit(l, start, src);
    LoadsApart(l, sp, start, src);
  }

  lemma CalcFit(l: Load, sp: CalcVm.Space)
    requires CalcLoad(l, sp) && Stays(SoloA(l), l.gA)
    ensures Fit(l.m, l.imgA, l.gA)
  {
    hide Stays, Solo, Mil.Code, CalcRefinement.Prog, CalcVm.WithinRun, MicroImage.Image;
    CalcMicroSize(sp);
    ImageSize(CalcRefinement.Prog(sp));
  }

  lemma ImageSize(p: Mil.Program)
    ensures |MicroImage.Image(Mil.Code(p))| == 16 * |Mil.Code(p)|
  {
    hide Mil.Code;
  }

  lemma FortFit(l: Load, start: Word, src: Source)
    requires FortLoad(l, start, src) && Stays(SoloB(l), l.gB)
    ensures Fit(l.m, l.imgB, l.gB)
  {
    hide Stays, Solo, Mil.Code, FortMicrocode.FortSource, FortAssembler.Bytes, FortLanguage.ErrorFree,
      FortPrograms.CodeIn,
      MicroImage.Image;
    FortMicrocode.WithinMicroStore(start);
    ImageSize(FortMicrocode.FortSource(start));
  }

  lemma LoadsApart(l: Load, sp: CalcVm.Space, start: Word, src: Source)
    requires Shared(l, sp, start, src)
    ensures Apart(l.gA, l.gB)
  {
    hide Stays, Solo, Mil.Code, FortMicrocode.FortSource, FortAssembler.Bytes, FortLanguage.ErrorFree,
      FortPrograms.CodeIn,
      CalcVm.WithinRun, CalcRuns.MicroBits, MicroImage.Image;
  }

  lemma SharedMeans(l: Load, sp: CalcVm.Space, start: Word, src: Source)
    requires Shared(l, sp, start, src)
    ensures CalcLoad(l, sp) && FortLoad(l, start, src) && FortLanguage.ErrorFree(src)
  {
    hide CalcLoad, FortAssembler.Bytes, FortLanguage.ErrorFree, FortPrograms.CodeIn, Solo, MicroImage.Image, Mil.Code,
      FortRegion;
  }

  /** For every quantum and after any number of turns, what the first process has printed is what the abstract stack
      machine prints, and what the second has printed is what the S-FORT source prints, as far as each has got; a
      process that has halted has printed everything its program prints. */
  lemma GismoPrints(l: Load, sp: CalcVm.Space, start: Word, src: Source, quantum: nat, n: nat)
    returns (v: CalcVm.Calc, f: FortLanguage.Fort, j: nat, h: nat)
    requires Shared(l, sp, start, src)
    ensures FortLanguage.ErrorFree(src)
    ensures v == CalcVm.CalcRun(SoloA(l).m, CalcVm.Calc(sp.start, [], [], false), j)
    ensures f == FortLanguage.Runs(src, FortLanguage.START, h)
    ensures var s := After(l, quantum, n);
      && OutputOf(true, s.printed) <= v.out && (s.a.r.halted ==> v.halted && OutputOf(true, s.printed) == v.out)
      && OutputOf(false, s.printed) <= f.out && (s.b.r.halted ==> f.halted && OutputOf(false, s.printed) == f.out)
  {
    hide *;
    SharedProper(l, sp, start, src);
    SharedMeans(l, sp, start, src);
    var i, k := NonInterference(l, quantum, n);
    CalcSound(l, sp, i);
    CalcRuns.Faithful(sp, SoloA(l), i);
    j, v := i, CalcVm.CalcRun(SoloA(l).m, CalcRuns.InitialCalc(sp, SoloA(l)), i);
    FortPrepared(l, start, src);
    h := FortPrograms.PrintsOnlySource(src, start, SoloB(l), k);
    f := FortLanguage.Runs(src, FortLanguage.START, h);
  }

  /** The round-robin loop terminates exactly when the quantum is at least one and both programs halt. */
  lemma GismoEnds(l: Load, sp: CalcVm.Space, start: Word, src: Source, quantum: nat)
    requires Shared(l, sp, start, src)
    ensures FortLanguage.ErrorFree(src)
    ensures Terminates(l, quantum)
      <==> (quantum > 0 && CalcRuns.CalcHalts(SoloA(l).m, CalcVm.Calc(sp.start, [], [], false))
            && FortLanguage.SourceHalts(src))
  {
    hide *;
    SharedProper(l, sp, start, src);
    SharedMeans(l, sp, start, src);
    FortPrepared(l, start, src);
    FortPrograms.HaltsLikeSource(src, start, SoloB(l));
    forall n: nat
      ensures CalcRuns.Sound(sp, SoloA(l), n)
    {
      CalcSound(l, sp, n);
    }
    CalcSound(l, sp, 0);
    CalcRuns.HaltsExactly(sp, SoloA(l));
    TerminatesExactly(l, quantum);
  }
}
