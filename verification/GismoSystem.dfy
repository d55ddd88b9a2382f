/** The whole of Gismo: both interpreters assembled and written to files, the files overlaid in turn on one processor,
    and the output that of the abstract machines. */
module GismoSystem {
  import opened Registers
  import opened CentralProcessor
  import opened Gismo
  import opened GismoPrograms
  import opened GismoScheduler
  import opened MilAssembler
  import Boot
  import CalcMicrocode
  import CalcRefinement
  import CalcRuns
  import CalcVm
  import FortAssembler
  import FortLanguage
  import FortMicrocode
  import FortPrograms
  import Machine
  import MicroImage
  import Mil
  import Storage

  /** The file the cross-assembler writes for a program. */
  method Build(p: Mil.Program) returns (file: seq<Octet>)
    requires Accepted(p)
    ensures file == Octets(Mil.Code(p))
  {
    hide *;
    var assembler := new Assembler();
    assembler.Assemble(p);
    file := assembler.WriteBinary();
  }

  /** A file of a plain program is an image of its words. */
  lemma FileIs(p: Mil.Program)
    requires MicroImage.AllPlain(p)
    ensures Storage.BitsOf(Octets(Mil.Code(p))) == MicroImage.Image(Mil.Code(p))
  {
    hide *;
    MicroImage.WordsFit(p);
    MicroImage.OctetsAreImage(Mil.Code(p));
  }

  lemma CalcFile(sp: CalcVm.Space)
    ensures Accepted(CalcRefinement.Prog(sp)) && MicroImage.AllPlain(CalcRefinement.Prog(sp))
  {
    hide Accepted, MicroImage.AllPlain;
    MicroImage.CalcAccepted(sp.start, sp.base);
    MicroImage.CalcPlain(sp.start, sp.base);
  }

  lemma LoadMeans(l: Load, sp: CalcVm.Space, start: Word, src: Source)
    requires Shared(l, sp, start, src)
    ensures l.imgA == MicroImage.Image(Mil.Code(CalcRefinement.Prog(sp)))
    ensures l.imgB == MicroImage.Image(Mil.Code(FortMicrocode.FortSource(start)))
    ensures |l.imgA| <= 0x2000 && |l.imgB| <= 0x2000 <= |l.m|
  {
    SharedMeans(l, sp, start, src);
    SharedProper(l, sp, start, src);
    ProperMeans(l);
    hide Shared, Proper, MicroImage.Image, Mil.Code, FortLanguage.ErrorFree, FortPrograms.CodeIn, CalcVm.WithinRun, Fit;
  }

  lemma MemorySize(cpu: Processor, m: seq<bool>)
    requires cpu.Valid() && cpu.State() == Ready(m).cpu
    ensures 8 * cpu.mem.data.Length == |m|
  {
    hide cpu.regs.Value, cpu.io.Slots;
  }

  /** Runs an S-CALC and an S-FORT program that both halt, from the sources of their interpreters to their output: what
      is printed is, process by process, exactly what the abstract stack machine and the S-FORT source print. */
  method RunBoth(cpu: Processor, sp: CalcVm.Space, start: Word, quantum: nat, ghost l: Load, ghost src: Source)
    returns (printed: seq<Print>, ghost v: CalcVm.Calc, ghost f: FortLanguage.Fort, ghost j: nat, ghost h: nat)
    requires cpu.Valid() && cpu.State() == Ready(l.m).cpu && Shared(l, sp, start, src)
    requires quantum > 0 && CalcRuns.CalcHalts(SoloA(l).m, CalcVm.Calc(sp.start, [], [], false))
    requires FortLanguage.ErrorFree(src) && FortLanguage.SourceHalts(src)
    modifies cpu, cpu.regs, cpu.regs.stack, cpu.regs.pads, cpu.mem.data, cpu.io`locked, cpu.io.controls[..]
    ensures v == CalcVm.CalcRun(SoloA(l).m, CalcVm.Calc(sp.start, [], [], false), j) && v.halted
    ensures f == FortLanguage.Runs(src, FortLanguage.START, h) && f.halted
    ensures OutputOf(true, printed) == v.out && OutputOf(false, printed) == f.out
  {
    hide *;
    CalcFile(sp);
    MicroImage.FortAccepted(start);
    MicroImage.FortPlain(start);
    var imgA := Build(CalcRefinement.Prog(sp));
    var imgB := Build(FortMicrocode.FortSource(start));
    FileIs(CalcRefinement.Prog(sp));
    FileIs(FortMicrocode.FortSource(start));
    LoadMeans(l, sp, start, src);
    MemorySize(cpu, l.m);
    SharedProper(l, sp, start, src);
    ghost var ta, tb := HaltingTimes(l, sp, start, src, quantum);
    ghost var n;
    var a, b;
    a, b, printed, n := RunGismo(cpu, imgA, imgB, quantum, l, ta, tb);
    CurrentMeans(cpu, a, b, printed);
    v, f, j, h := GismoPrints(l, sp, start, src, quantum, n);
  }

  lemma CurrentMeans(cpu: Processor, a: Proc, b: Proc, printed: seq<Print>)
    requires cpu.Valid()
    ensures var s := Current(cpu, a, b, printed); s.a == a && s.b == b && s.printed == printed
  {
  }

  lemma HaltingTimes(l: Load, sp: CalcVm.Space, start: Word, src: Source, quantum: nat) returns (ta: nat, tb: nat)
    requires Shared(l, sp, start, src) && quantum > 0 && FortLanguage.ErrorFree(src)
    requires CalcRuns.CalcHalts(SoloA(l).m, CalcVm.Calc(sp.start, [], [], false)) && FortLanguage.SourceHalts(src)
    ensures Machine.Run(SoloA(l), ta).r.halted && Machine.Run(SoloB(l), tb).r.halted
  {
    hide *;
    GismoEnds(l, sp, start, src, quantum);
    SharedProper(l, sp, start, src);
    TerminatesExactly(l, quantum);
    ta, tb := TwoHaltingTimes(SoloA(l), SoloB(l));
  }
}
