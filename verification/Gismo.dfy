/** Gismo: two processes share the machine in slices of a quantum, the micro-store being overlaid with the
    interpreter of the process at each switch. */
module Gismo {
  import opened Bits
  import opened BitMemory
  import opened IoBus
  import opened Registers
  import opened Machine
  import opened Invariants
  import opened Footprint
  import opened Locality
  import opened Boot
  import MilRun

  // ----- the scheduler -----

  /** What is saved of a process: its registers (the unsaved ones in r mean nothing) and the cycles it has used. */
  datatype Proc = Proc(r: Regs, total: nat)

  /** A value reported by MONITOR, and whether process A was running. */
  datatype Print = Print(byA: bool, value: Word)

  datatype System = System(cpu: State, a: Proc, b: Proc, printed: seq<Print>)

  /** load_interp: clears the first 0x400 bytes, then loads the image from address zero. */
  function LoadInterp(m: Mem, img: seq<bool>): (m': Mem)
    ensures |m'| == |m|
  {
    seq(|m|, i requires 0 <= i < |m| => if i < |img| then img[i] else i >= 0x2000 && m[i])
  }

  /** restore_state, with a new list for the output of the slice. */
  function Restore(cpu: State, p: Proc): State {
    cpu.(r := p.r.(lat := cpu.r.lat, depth := cpu.r.depth), cycles := 0, out := [])
  }

  function Loaded(cpu: State, img: seq<bool>): State {
    cpu.(m := LoadInterp(cpu.m, img))
  }

  /** One slice of a process: overlay, restore, run. */
  function Slice(cpu: State, img: seq<bool>, p: Proc, quantum: nat): State {
    RunFor(Restore(Loaded(cpu, img), p), 0, quantum)
  }

  /** save_state. */
  function Save(cpu: State, p: Proc): Proc {
    Proc(cpu.r, p.total + cpu.cycles)
  }

  function Tagged(byA: bool, out: seq<Word>): (t: seq<Print>)
    ensures |t| == |out|
  {
    seq(|out|, i requires 0 <= i < |out| => Print(byA, out[i]))
  }

  function SliceA(s: System, img: seq<bool>, quantum: nat): System {
    var cpu := Slice(s.cpu, img, s.a, quantum);
    s.(cpu := cpu, a := Save(cpu, s.a), printed := s.printed + Tagged(true, cpu.out))
  }

  function SliceB(s: System, img: seq<bool>, quantum: nat): System {
    var cpu := Slice(s.cpu, img, s.b, quantum);
    s.(cpu := cpu, b := Save(cpu, s.b), printed := s.printed + Tagged(false, cpu.out))
  }

  function Reset(s: System): System { s.(cpu := s.cpu.(r := Fresh())) }

  /** Both processes loaded, nothing run yet. */
  function Ready(m: Mem): System {
    System(State(Fresh(), m, Bus(NO_DEVICES, false), 0, []), Proc(Fresh(), 0), Proc(Fresh(), 0), [])
  }

  /** Phases 1 and 2: each process gets a first slice from a fresh register file. */
  function Start(m: Mem, imgA: seq<bool>, imgB: seq<bool>, quantum: nat): System {
    SliceB(Reset(SliceA(Reset(Ready(m)), imgA, quantum)), imgB, quantum)
  }

  /** One turn of the round-robin loop. */
  function Round(s: System, imgA: seq<bool>, imgB: seq<bool>, quantum: nat): System {
    var s1 := if s.a.r.halted then s else SliceA(s, imgA, quantum);
    if s1.b.r.halted then s1 else SliceB(s1, imgB, quantum)
  }

  function Rounds(s: System, imgA: seq<bool>, imgB: seq<bool>, quantum: nat, n: nat): System {
    if n == 0 then s else Round(Rounds(s, imgA, imgB, quantum, n - 1), imgA, imgB, quantum)
  }

  /** The loop is over. */
  predicate Done(s: System) { s.a.r.halted && s.b.r.halted }

  /** What one process has printed, in order. */
  function OutputOf(byA: bool, printed: seq<Print>): seq<Word> {
    if printed == [] then []
    else
      var last := printed[|printed| - 1];
      OutputOf(byA, printed[..|printed| - 1]) + if last.byA == byA then [last.value] else []
  }

  // ----- a process on its own -----

  /** The machine given to one process alone. */
  function Solo(m: Mem, img: seq<bool>): State {
    State(Fresh(), LoadInterp(m, img), Bus(NO_DEVICES, false), 0, [])
  }

  /** The whole solo run keeps to the region. */
  ghost predicate Stays(s: State, g: Region) {
    forall n: nat :: Run(s, n).r.halted || Confined(Run(s, n), g)
  }

  /** Micro-code below 0x400 bytes, everything else of the region above it, and the solo run keeps to it. */
  ghost predicate Fit(m: Mem, img: seq<bool>, g: Region) {
    && |img| <= 0x2000 <= |m| && g.code <= 0x2000
    && (forall a: int :: a in g.wr ==> a in g.rd) && (forall a: int :: a in g.rd ==> a >= 0x2000)
    && Stays(Solo(m, img), g)
  }

  /** Neither process writes what the other reads or writes. */
  ghost predicate Apart(g: Region, h: Region) {
    forall a: int :: (a in g.wr ==> a !in h.rd) && (a in h.wr ==> a !in g.rd)
  }

  // ----- a slice is a stretch of the solo run -----

  ghost predicate AgreeOn(m: Mem, m': Mem, where: iset<int>) {
    |m| == |m'| && forall a: int :: a in where ==> BitAt(m, a) == BitAt(m', a)
  }

  ghost predicate HasImage(m: Mem, img: seq<bool>) {
    forall a: int :: 0 <= a < 0x2000 ==> BitAt(m, a) == (a < |m| && a < |img| && img[a])
  }

  /** The saved process p, with memory m of the shared machine, is where its solo run was in state t. */
  ghost predicate Tracks(m: Mem, p: Proc, out: seq<Word>, t: State, img: seq<bool>, g: Region) {
    && p.r == t.r.(lat := p.r.lat, depth := p.r.depth) && p.total == t.cycles && out == t.out
    && AgreeOn(t.m, m, g.rd) && HasImage(t.m, img) && Quiet(t) && t.r.depth == 16
  }

  lemma LoadHasImage(m: Mem, img: seq<bool>)
    requires |img| <= 0x2000 <= |m|
    ensures HasImage(LoadInterp(m, img), img)
  {
  }

  lemma LoadKeeps(m: Mem, img: seq<bool>, where: iset<int>)
    requires |img| <= 0x2000 && forall a: int :: a in where ==> a >= 0x2000
    ensures AgreeOn(m, LoadInterp(m, img), where)
  {
  }

  lemma AgreeTrans(m: Mem, m1: Mem, m2: Mem, where: iset<int>)
    requires AgreeOn(m, m1, where) && AgreeOn(m1, m2, where)
    ensures AgreeOn(m, m2, where)
  {
    hide BitAt;
  }

  lemma RestoredAgrees(t: Mem, m: Mem, img: seq<bool>, g: Region)
    requires AgreeOn(t, m, g.rd) && HasImage(t, img) && HasImage(m, img) && g.code <= 0x2000
    ensures Agree(t, m, g)
  {
    forall a: int | 0 <= a < g.code || a in g.rd
      ensures BitAt(t, a) == BitAt(m, a)
    {
    }
    hide BitAt;
  }

  /** Overlay and restore make the shared machine alike the solo one. */
  lemma RestoreAlike(cpu: State, p: Proc, out: seq<Word>, t: State, m0: Mem, img: seq<bool>, g: Region)
    requires Tracks(cpu.m, p, out, t, img, g) && Fit(m0, img, g) && |cpu.m| == |m0|
    requires Quiet(cpu) && cpu.r.depth == 16
    ensures Alike(t, Restore(Loaded(cpu, img), p), g)
  {
    hide LoadInterp, AgreeOn, HasImage, Agree, Stays;
    LoadKeeps(cpu.m, img, g.rd);
    LoadHasImage(cpu.m, img);
    AgreeTrans(t.m, cpu.m, LoadInterp(cpu.m, img), g.rd);
    RestoredAgrees(t.m, LoadInterp(cpu.m, img), img, g);
  }

  lemma ParallelTrans(s: State, s1: State, s2: State, t: State, t1: State, t2: State, g: Region)
    requires Parallel(s, s1, t, t1, g) && Parallel(s1, s2, t1, t2, g)
    ensures Parallel(s, s2, t, t2, g)
  {
    OnlyTrans(s.m, s1.m, s2.m, g);
    OnlyTrans(t.m, t1.m, t2.m, g);
    var o1 :| s1.out == s.out + o1 && t1.out == t.out + o1;
    var o2 :| s2.out == s1.out + o2 && t2.out == t1.out + o2;
    assert s2.out == s.out + (o1 + o2) && t2.out == t.out + (o1 + o2);
    hide Alike, OnlyWrites;
    ParallelBy(s, s2, t, t2, g, o1 + o2);
  }

  lemma OnlyTrans(m: Mem, m1: Mem, m2: Mem, g: Region)
    requires OnlyWrites(m, m1, g) && OnlyWrites(m1, m2, g)
    ensures OnlyWrites(m, m2, g)
  {
    hide BitAt;
  }

  lemma ParallelSelf(s: State, t: State, g: Region)
    requires Alike(s, t, g)
    ensures Parallel(s, s, t, t, g)
  {
    SameMemory(s.m, g);
    SameMemory(t.m, g);
    hide Alike, OnlyWrites;
    ParallelBy(s, s, t, t, g, []);
  }

  lemma StaysOn(s: State, g: Region)
    requires Stays(s, g) && !s.r.halted
    ensures Confined(s, g) && Stays(Step(s), g)
  {
    assert Run(s, 0) == s;
    forall n: nat
      ensures Run(Step(s), n).r.halted || Confined(Run(Step(s), n), g)
    {
      assert Run(s, n + 1) == Run(Step(s), n);
    }
    hide Step, Confined;
  }

  lemma StaysLater(s: State, n: nat, g: Region)
    requires Stays(s, g)
    ensures Stays(Run(s, n), g)
  {
    hide Run, Confined;
    forall k: nat
      ensures Run(Run(s, n), k).r.halted || Confined(Run(Run(s, n), k), g)
    {
      RunAdd(s, n, k);
      assert Run(s, n + k).r.halted || Confined(Run(s, n + k), g);
    }
  }

  lemma RunForStep(t: State, start: nat, max: nat)
    ensures t.r.halted || t.cycles >= start + max ==> RunFor(t, start, max) == t && StepsFor(t, start, max) == 0
    ensures !t.r.halted && t.cycles < start + max ==>
      RunFor(t, start, max) == RunFor(Step(t), start, max)
      && StepsFor(t, start, max) == 1 + StepsFor(Step(t), start, max)
  {
    hide Step;
  }

  lemma AlikeHalted(s: State, t: State, g: Region)
    requires Parallel(s, s, t, t, g) || Alike(s, t, g)
    ensures s.r.halted == t.r.halted
  {
    hide Agree, OnlyWrites;
  }

  lemma ParallelMeans(s: State, s': State, t: State, t': State, g: Region)
    requires Parallel(s, s', t, t', g)
    ensures Alike(s', t', g) && OnlyWrites(s.m, s'.m, g) && OnlyWrites(t.m, t'.m, g)
  {
    hide Alike, OnlyWrites;
  }

  /** Steps of the shared machine mirror as many steps of the solo run, at the same cost. */
  lemma {:induction false} SliceLocal(s: State, t: State, g: Region, start: nat, max: nat)
    requires Alike(s, t, g) && Stays(s, g)
    ensures var n := StepsFor(t, start, max);
      Parallel(s, Run(s, n), t, RunFor(t, start, max), g)
      && Run(s, n).cycles - s.cycles == RunFor(t, start, max).cycles - t.cycles
    ensures g.brief && t.cycles < start + max + 8 ==> RunFor(t, start, max).cycles < start + max + 8
    decreases start + max - t.cycles
  {
    hide *;
    RunForStep(t, start, max);
    AlikeHalted(s, t, g);
    ParallelSelf(s, t, g);
    RunZero(s);
    StepKeeps(t);
    if !t.r.halted && t.cycles < start + max {
      StaysOn(s, g);
      StepLocal(s, t, g);
      ParallelMeans(s, Step(s), t, Step(t), g);
      SliceLocal(Step(s), Step(t), g, start, max);
      var n := StepsFor(Step(t), start, max);
      RunFirst(s, n);
      ParallelTrans(s, Step(s), Run(Step(s), n), t, Step(t), RunFor(Step(t), start, max), g);
    }
  }

  lemma RunZero(s: State)
    ensures Run(s, 0) == s
  {
  }

  lemma RunFirst(s: State, n: nat)
    ensures Run(s, n + 1) == Run(Step(s), n)
  {
    hide Step;
  }

  lemma SliceStart(cpu: State, img: seq<bool>, p: Proc, quantum: nat)
    ensures var t := Restore(Loaded(cpu, img), p);
      Slice(cpu, img, p, quantum) == RunFor(t, 0, quantum) && t.cycles == 0 && t.out == []
      && t.m == LoadInterp(cpu.m, img)
      && t.r.halted == p.r.halted
  {
    hide RunFor, LoadInterp;
  }

  /** A slice takes the process n steps further along its solo run, charges it what those steps cost, and changes
      shared memory only in the micro-store and where the process may write. */
  lemma SliceTracks(cpu: State, p: Proc, out: seq<Word>, t: State, m0: Mem, img: seq<bool>, g: Region, quantum: nat)
    returns (n: nat)
    requires Tracks(cpu.m, p, out, t, img, g) && Fit(m0, img, g) && Stays(t, g) && |cpu.m| == |m0|
    requires Quiet(cpu) && cpu.r.depth == 16
    ensures var cpu' := Slice(cpu, img, p, quantum);
      Tracks(cpu'.m, Save(cpu', p), out + cpu'.out, Run(t, n), img, g) && Quiet(cpu') && cpu'.r.depth == 16
      && |cpu'.m| == |m0| && OnlyWrites(LoadInterp(cpu.m, img), cpu'.m, g)
      && (g.brief ==> cpu'.cycles < quantum + 8) && (cpu'.r.halted || cpu'.cycles >= quantum)
    ensures if p.r.halted || quantum == 0 then n == 0 else n > 0
  {
    hide *;
    var r, cpu' := Restore(Loaded(cpu, img), p), Slice(cpu, img, p, quantum);
    RestoreAlike(cpu, p, out, t, m0, img, g);
    SliceStart(cpu, img, p, quantum);
    SliceLocal(t, r, g, 0, quantum);
    n := StepsFor(r, 0, quantum);
    RunForStep(r, 0, quantum);
    RunForStops(r, 0, quantum, 0);
    TracksDepth(cpu.m, p, out, t, img, g);
    MilRun.RunKeepsDepth(t, n);
    KeepsTracking(t, r, Run(t, n), cpu', p, out, cpu.m, m0, img, g);
  }

  lemma TracksDepth(m: Mem, p: Proc, out: seq<Word>, t: State, img: seq<bool>, g: Region)
    requires Tracks(m, p, out, t, img, g)
    ensures t.r.depth == 16
  {
    hide AgreeOn, HasImage;
  }

  lemma OutFollows(t: State, t': State, r: State, cpu': State, g: Region)
    requires Parallel(t, t', r, cpu', g) && r.out == []
    ensures t'.out == t.out + cpu'.out
  {
    hide Alike, OnlyWrites;
    var o :| t'.out == t.out + o && cpu'.out == r.out + o;
    assert cpu'.out == o;
  }

  lemma KeepsTracking(t: State, r: State, t': State, cpu': State, p: Proc, out: seq<Word>, m: Mem, m0: Mem,
                      img: seq<bool>, g: Region)
    requires Tracks(m, p, out, t, img, g) && Fit(m0, img, g) && Parallel(t, t', r, cpu', g)
    requires r.cycles == 0 && r.out == [] && r.m == LoadInterp(m, img) && |m| == |m0|
    requires t'.cycles - t.cycles == cpu'.cycles && t'.r.depth == 16
    ensures Tracks(cpu'.m, Save(cpu', p), out + cpu'.out, t', img, g) && Quiet(cpu') && cpu'.r.depth == 16
    ensures |cpu'.m| == |m0| && OnlyWrites(LoadInterp(m, img), cpu'.m, g)
  {
    hide LoadInterp, OnlyWrites, AgreeOn, HasImage, Agree, Stays;
    StillImage(t.m, t'.m, img, g);
    AgreesOn(t'.m, cpu'.m, g);
    SizeKept(r.m, cpu'.m, g);
    ParallelDepth(t, t', r, cpu', g);
    OutFollows(t, t', r, cpu', g);
    ParallelMeans(t, t', r, cpu', g);
    hide Parallel;
  }

  lemma ParallelDepth(t: State, t': State, r: State, cpu': State, g: Region)
    requires Parallel(t, t', r, cpu', g)
    ensures cpu'.r == t'.r.(lat := cpu'.r.lat) && Quiet(t') && Quiet(cpu')
  {
    hide Agree, OnlyWrites;
  }

  lemma StillImage(m: Mem, m': Mem, img: seq<bool>, g: Region)
    requires HasImage(m, img) && OnlyWrites(m, m', g)
    requires (forall a: int :: a in g.wr ==> a in g.rd) && (forall a: int :: a in g.rd ==> a >= 0x2000)
    ensures HasImage(m', img)
  {
    hide BitAt;
  }

  lemma AgreesOn(m: Mem, m': Mem, g: Region)
    requires Agree(m, m', g)
    ensures AgreeOn(m, m', g.rd)
  {
    hide BitAt;
  }

  lemma SizeKept(m: Mem, m': Mem, g: Region)
    requires OnlyWrites(m, m', g)
    ensures |m'| == |m|
  {
  }

  // ----- non-interference -----

  /** Two processes and the memory they start from. */
  datatype Load = Load(m: Mem, imgA: seq<bool>, imgB: seq<bool>, gA: Region, gB: Region)

  ghost predicate Proper(l: Load) {
    Fit(l.m, l.imgA, l.gA) && Fit(l.m, l.imgB, l.gB) && Apart(l.gA, l.gB)
  }

  function SoloA(l: Load): State { Solo(l.m, l.imgA) }
  function SoloB(l: Load): State { Solo(l.m, l.imgB) }

  /** Each process is where its solo run was, A after i steps and B after k. */
  ghost predicate Separate(s: System, l: Load, i: nat, k: nat) {
    && Tracks(s.cpu.m, s.a, OutputOf(true, s.printed), Run(SoloA(l), i), l.imgA, l.gA)
    && Tracks(s.cpu.m, s.b, OutputOf(false, s.printed), Run(SoloB(l), k), l.imgB, l.gB)
    && Quiet(s.cpu) && s.cpu.r.depth == 16 && |s.cpu.m| == |l.m|
  }

  lemma {:induction false} OutputsAppend(printed: seq<Print>, byA: bool, out: seq<Word>)
    ensures OutputOf(byA, printed + Tagged(byA, out)) == OutputOf(byA, printed) + out
    ensures OutputOf(!byA, printed + Tagged(byA, out)) == OutputOf(!byA, printed)
    decreases |out|
  {
    if out == [] {
      assert printed + Tagged(byA, out) == printed;
    } else {
      var n := |out| - 1;
      OutputsAppend(printed, byA, out[..n]);
      var all := printed + Tagged(byA, out);
      assert all[..|all| - 1] == printed + Tagged(byA, out[..n]);
      assert all[|all| - 1] == Print(byA, out[n]);
      assert out[..n] + [out[n]] == out;
    }
  }

  /** The other process does not notice. */
  lemma OtherTracks(m: Mem, m': Mem, p: Proc, out: seq<Word>, t: State, img: seq<bool>, h: Region,
                    other: seq<bool>, g: Region)
    requires Tracks(m, p, out, t, img, h) && OnlyWrites(LoadInterp(m, other), m', g) && |other| <= 0x2000
    requires (forall a: int :: a in g.wr ==> a !in h.rd) && (forall a: int :: a in h.rd ==> a >= 0x2000)
    ensures Tracks(m', p, out, t, img, h)
  {
    LoadKeeps(m, other, h.rd);
    Unwritten(LoadInterp(m, other), m', g, h.rd);
    AgreeTrans(m, LoadInterp(m, other), m', h.rd);
    AgreeTrans(t.m, m, m', h.rd);
    hide LoadInterp, AgreeOn, HasImage, OnlyWrites;
  }

  lemma Unwritten(m: Mem, m': Mem, g: Region, where: iset<int>)
    requires OnlyWrites(m, m', g) && forall a: int :: a in g.wr ==> a !in where
    ensures AgreeOn(m, m', where)
  {
    hide BitAt;
  }

  lemma ProperMeans(l: Load)
    requires Proper(l)
    ensures Fit(l.m, l.imgA, l.gA) && Fit(l.m, l.imgB, l.gB) && |l.imgA| <= 0x2000 && |l.imgB| <= 0x2000 <= |l.m|
    ensures Stays(SoloA(l), l.gA) && Stays(SoloB(l), l.gB)
    ensures forall a: int :: a in l.gA.wr ==> a !in l.gB.rd
    ensures forall a: int :: a in l.gB.wr ==> a !in l.gA.rd
    ensures forall a: int :: a in l.gA.rd || a in l.gB.rd ==> a >= 0x2000
  {
    hide Stays, Solo;
  }

  lemma SeparateMeans(s: System, l: Load, i: nat, k: nat)
    requires Separate(s, l, i, k)
    ensures Tracks(s.cpu.m, s.a, OutputOf(true, s.printed), Run(SoloA(l), i), l.imgA, l.gA)
    ensures Tracks(s.cpu.m, s.b, OutputOf(false, s.printed), Run(SoloB(l), k), l.imgB, l.gB)
    ensures Quiet(s.cpu) && s.cpu.r.depth == 16 && |s.cpu.m| == |l.m|
  {
    hide Tracks, OutputOf, Run, Quiet, Solo;
  }

  lemma MakeSeparate(s: System, l: Load, i: nat, k: nat)
    requires Tracks(s.cpu.m, s.a, OutputOf(true, s.printed), Run(SoloA(l), i), l.imgA, l.gA)
    requires Tracks(s.cpu.m, s.b, OutputOf(false, s.printed), Run(SoloB(l), k), l.imgB, l.gB)
    requires Quiet(s.cpu) && s.cpu.r.depth == 16 && |s.cpu.m| == |l.m|
    ensures Separate(s, l, i, k)
  {
    hide Tracks, OutputOf, Run, Quiet, Solo;
  }

  /** A saved process p in memory m is its solo run in state t: every saved register, the cycles, and the memory
      it reads. */
  ghost predicate SavedAs(m: Mem, p: Proc, t: State, g: Region) {
    p.r == t.r.(lat := p.r.lat, depth := p.r.depth) && p.total == t.cycles && AgreeOn(t.m, m, g.rd)
  }

  lemma TracksMeans(m: Mem, p: Proc, out: seq<Word>, t: State, img: seq<bool>, g: Region)
    requires Tracks(m, p, out, t, img, g)
    ensures p.r.halted == t.r.halted && p.total == t.cycles && out == t.out && SavedAs(m, p, t, g)
  {
    hide AgreeOn, HasImage;
  }

  lemma SliceAIs(s: System, img: seq<bool>, quantum: nat)
    ensures var cpu := Slice(s.cpu, img, s.a, quantum); var s' := SliceA(s, img, quantum);
      s'.cpu == cpu && s'.a == Save(cpu, s.a) && s'.b == s.b && s'.printed == s.printed + Tagged(true, cpu.out)
      && s'.a.total == s.a.total + cpu.cycles
  {
    hide Slice, Tagged;
  }

  lemma SliceBIs(s: System, img: seq<bool>, quantum: nat)
    ensures var cpu := Slice(s.cpu, img, s.b, quantum); var s' := SliceB(s, img, quantum);
      s'.cpu == cpu && s'.b == Save(cpu, s.b) && s'.a == s.a && s'.printed == s.printed + Tagged(false, cpu.out)
      && s'.b.total == s.b.total + cpu.cycles
  {
    hide Slice, Tagged;
  }

  /** A slice of A takes A along its solo run, charges it the cycles of the slice, at least the quantum unless it halts,
      fewer than quantum + 8 when its operators are brief, and leaves B where it was. */
  lemma SliceAKeeps(s: System, l: Load, i: nat, k: nat, quantum: nat) returns (i': nat)
    requires Proper(l) && Separate(s, l, i, k)
    ensures var s' := SliceA(s, l.imgA, quantum);
      Separate(s', l, i', k) && s'.b == s.b && s'.a.total == s.a.total + s'.cpu.cycles
      && (l.gA.brief ==> s'.cpu.cycles < quantum + 8) && (s'.cpu.r.halted || s'.cpu.cycles >= quantum)
    ensures i' >= i && (i' == i <==> s.a.r.halted || quantum == 0)
  {
    hide *;
    ProperMeans(l);
    SeparateMeans(s, l, i, k);
    StaysLater(SoloA(l), i, l.gA);
    var out := OutputOf(true, s.printed);
    var n := SliceTracks(s.cpu, s.a, out, Run(SoloA(l), i), l.m, l.imgA, l.gA, quantum);
    i' := i + n;
    RunAdd(SoloA(l), i, n);
    SliceAIs(s, l.imgA, quantum);
    var s' := SliceA(s, l.imgA, quantum);
    OutputsAppend(s.printed, true, s'.cpu.out);
    OtherTracks(s.cpu.m, s'.cpu.m, s.b, OutputOf(false, s.printed), Run(SoloB(l), k), l.imgB, l.gB, l.imgA, l.gA);
    MakeSeparate(s', l, i', k);
  }

  lemma SliceBKeeps(s: System, l: Load, i: nat, k: nat, quantum: nat) returns (k': nat)
    requires Proper(l) && Separate(s, l, i, k)
    ensures var s' := SliceB(s, l.imgB, quantum);
      Separate(s', l, i, k') && s'.a == s.a && s'.b.total == s.b.total + s'.cpu.cycles
      && (l.gB.brief ==> s'.cpu.cycles < quantum + 8) && (s'.cpu.r.halted || s'.cpu.cycles >= quantum)
    ensures k' >= k && (k' == k <==> s.b.r.halted || quantum == 0)
  {
    hide *;
    ProperMeans(l);
    SeparateMeans(s, l, i, k);
    StaysLater(SoloB(l), k, l.gB);
    var out := OutputOf(false, s.printed);
    var n := SliceTracks(s.cpu, s.b, out, Run(SoloB(l), k), l.m, l.imgB, l.gB, quantum);
    k' := k + n;
    RunAdd(SoloB(l), k, n);
    SliceBIs(s, l.imgB, quantum);
    var s' := SliceB(s, l.imgB, quantum);
    OutputsAppend(s.printed, false, s'.cpu.out);
    OtherTracks(s.cpu.m, s'.cpu.m, s.a, OutputOf(true, s.printed), Run(SoloA(l), i), l.imgA, l.gA, l.imgB, l.gB);
    MakeSeparate(s', l, i, k');
  }

  lemma ReadySeparate(l: Load)
    requires Proper(l)
    ensures Separate(Ready(l.m), l, 0, 0)
  {
    hide LoadInterp, AgreeOn, HasImage, Fit;
    ProperMeans(l);
    LoadHasImage(l.m, l.imgA);
    LoadHasImage(l.m, l.imgB);
    LoadKeeps(l.m, l.imgA, l.gA.rd);
    LoadKeeps(l.m, l.imgB, l.gB.rd);
    AgreeSym(l.m, LoadInterp(l.m, l.imgA), l.gA.rd);
    AgreeSym(l.m, LoadInterp(l.m, l.imgB), l.gB.rd);
    RunZero(SoloA(l));
    RunZero(SoloB(l));
    hide Run;
  }

  lemma AgreeSym(m: Mem, m': Mem, where: iset<int>)
    requires AgreeOn(m, m', where)
    ensures AgreeOn(m', m, where)
  {
    hide BitAt;
  }

  lemma ResetKeeps(s: System, l: Load, i: nat, k: nat)
    requires Separate(s, l, i, k)
    ensures Separate(Reset(s), l, i, k) && Reset(s).a == s.a && Reset(s).b == s.b
  {
    hide Tracks, OutputOf, Run, Solo;
  }

  /** What a solo run prints between its steps i and j. */
  function Between(s: State, i: nat, j: nat): seq<Word> {
    if |Run(s, i).out| <= |Run(s, j).out| then Run(s, j).out[|Run(s, i).out|..] else []
  }

  lemma SlicePrintsA(s: System, l: Load, i: nat, k: nat, quantum: nat, i': nat)
    requires Separate(s, l, i, k) && Separate(SliceA(s, l.imgA, quantum), l, i', k)
    ensures SliceA(s, l.imgA, quantum).printed == s.printed + Tagged(true, Between(SoloA(l), i, i'))
  {
    hide *;
    var s' := SliceA(s, l.imgA, quantum);
    SliceAIs(s, l.imgA, quantum);
    OutputsAppend(s.printed, true, s'.cpu.out);
    SeparateTracks(s, l, i, k);
    SeparateTracks(s', l, i', k);
    BetweenIs(SoloA(l), i, i', s'.cpu.out);
  }

  lemma SlicePrintsB(s: System, l: Load, i: nat, k: nat, quantum: nat, k': nat)
    requires Separate(s, l, i, k) && Separate(SliceB(s, l.imgB, quantum), l, i, k')
    ensures SliceB(s, l.imgB, quantum).printed == s.printed + Tagged(false, Between(SoloB(l), k, k'))
  {
    hide *;
    var s' := SliceB(s, l.imgB, quantum);
    SliceBIs(s, l.imgB, quantum);
    OutputsAppend(s.printed, false, s'.cpu.out);
    SeparateTracks(s, l, i, k);
    SeparateTracks(s', l, i, k');
    BetweenIs(SoloB(l), k, k', s'.cpu.out);
  }

  lemma BetweenIs(s: State, i: nat, j: nat, out: seq<Word>)
    requires Run(s, j).out == Run(s, i).out + out
    ensures Between(s, i, j) == out
  {
    hide Run;
  }

  lemma NothingBetween(s: State, i: nat, byA: bool)
    ensures Tagged(byA, Between(s, i, i)) == []
  {
    hide Run;
  }

  /** A turn of the loop serves A before B: it prints what A's solo run prints between where A was and where it is, then
      the same for B; a process that has halted is passed over. */
  lemma TurnInOrder(s: System, l: Load, i: nat, k: nat, quantum: nat) returns (i': nat, k': nat)
    requires Proper(l) && Separate(s, l, i, k)
    ensures var s' := Round(s, l.imgA, l.imgB, quantum);
      && Separate(s', l, i', k')
      && s'.printed == s.printed + Tagged(true, Between(SoloA(l), i, i')) + Tagged(false, Between(SoloB(l), k, k'))
    ensures i' >= i && (i' == i <==> s.a.r.halted || quantum == 0)
    ensures k' >= k && (k' == k <==> s.b.r.halted || quantum == 0)
  {
    i', k' := i, k;
    var s1 := s;
    hide Separate, Proper, SliceA, SliceB, Between, Tagged;
    NothingBetween(SoloA(l), i, true);
    NothingBetween(SoloB(l), k, false);
    if !s.a.r.halted {
      s1 := SliceA(s, l.imgA, quantum);
      i' := SliceAKeeps(s, l, i, k, quantum);
      SlicePrintsA(s, l, i, k, quantum, i');
    }
    if !s1.b.r.halted {
      k' := SliceBKeeps(s1, l, i', k, quantum);
      SlicePrintsB(s1, l, i', k, quantum, k');
    }
  }

  lemma StartKeeps(l: Load, quantum: nat) returns (i: nat, k: nat)
    requires Proper(l)
    ensures Separate(Start(l.m, l.imgA, l.imgB, quantum), l, i, k)
  {
    hide Separate, Proper, SliceA, SliceB, Ready, Reset;
    ReadySeparate(l);
    ResetKeeps(Ready(l.m), l, 0, 0);
    i := SliceAKeeps(Reset(Ready(l.m)), l, 0, 0, quantum);
    var s1 := SliceA(Reset(Ready(l.m)), l.imgA, quantum);
    ResetKeeps(s1, l, i, 0);
    k := SliceBKeeps(Reset(s1), l, i, 0, quantum);
  }

  function After(l: Load, quantum: nat, n: nat): System {
    Rounds(Start(l.m, l.imgA, l.imgB, quantum), l.imgA, l.imgB, quantum, n)
  }

  lemma AfterStep(l: Load, quantum: nat, n: nat)
    ensures After(l, quantum, 0) == Start(l.m, l.imgA, l.imgB, quantum)
    ensures n > 0 ==> After(l, quantum, n) == Round(After(l, quantum, n - 1), l.imgA, l.imgB, quantum)
  {
    hide Round, Start;
  }

  /** After any number of turns each process is somewhere along its solo run. */
  lemma {:induction false} RoundsSeparate(l: Load, quantum: nat, n: nat) returns (i: nat, k: nat)
    requires Proper(l)
    ensures Separate(After(l, quantum, n), l, i, k)
  {
    hide *;
    AfterStep(l, quantum, n);
    if n == 0 {
      i, k := StartKeeps(l, quantum);
    } else {
      i, k := RoundsSeparate(l, quantum, n - 1);
      i, k := TurnInOrder(After(l, quantum, n - 1), l, i, k, quantum);
    }
  }

  /** Non-interference, for every quantum: after any number of turns the saved registers of each process, the memory it
      reads, what it has printed, the cycles it has been charged and whether it has halted are those of its solo run
      after some number of steps. */
  lemma NonInterference(l: Load, quantum: nat, n: nat) returns (i: nat, k: nat)
    requires Proper(l)
    ensures var s := After(l, quantum, n); var a, b := Run(SoloA(l), i), Run(SoloB(l), k);
      && SavedAs(s.cpu.m, s.a, a, l.gA) && OutputOf(true, s.printed) == a.out
      && SavedAs(s.cpu.m, s.b, b, l.gB) && OutputOf(false, s.printed) == b.out
      && s.a.total == a.cycles && s.a.r.halted == a.r.halted && s.b.total == b.cycles && s.b.r.halted == b.r.halted
  {
    hide *;
    i, k := RoundsSeparate(l, quantum, n);
    SeparateTracks(After(l, quantum, n), l, i, k);
  }

  lemma SeparateTracks(s: System, l: Load, i: nat, k: nat)
    requires Separate(s, l, i, k)
    ensures var a, b := Run(SoloA(l), i), Run(SoloB(l), k);
      && SavedAs(s.cpu.m, s.a, a, l.gA) && OutputOf(true, s.printed) == a.out
      && SavedAs(s.cpu.m, s.b, b, l.gB) && OutputOf(false, s.printed) == b.out
      && s.a.total == a.cycles && s.a.r.halted == a.r.halted && s.b.total == b.cycles && s.b.r.halted == b.r.halted
  {
    hide *;
    SeparateMeans(s, l, i, k);
    TracksMeans(s.cpu.m, s.a, OutputOf(true, s.printed), Run(SoloA(l), i), l.imgA, l.gA);
    TracksMeans(s.cpu.m, s.b, OutputOf(false, s.printed), Run(SoloB(l), k), l.imgB, l.gB);
  }

  /** Along a run the output only grows, and stays once halted. */
  lemma Along(s: State, i: nat, k: nat)
    ensures i <= k || Run(s, k).r.halted ==> Run(s, i).out <= Run(s, k).out
    ensures Run(s, i).r.halted && Run(s, k).r.halted
      ==> Run(s, i).out == Run(s, k).out && Run(s, i).cycles == Run(s, k).cycles
  {
    hide *;
    if i <= k {
      RunAdd(s, i, k - i);
      RunKeeps(Run(s, i), k - i);
      OutKept(Run(s, i), Run(s, k));
      if Run(s, i).r.halted {
        HaltedRun(Run(s, i), k - i);
      }
    } else if Run(s, k).r.halted {
      RunAdd(s, k, i - k);
      HaltedRun(Run(s, k), i - k);
    }
  }

  /** In the interleaved run a process that halts alone (after t steps) has printed a prefix of its solo output; one that
      has halted here has printed all its solo run ever does, and used as many cycles. */
  lemma OutputPrefix(l: Load, quantum: nat, n: nat, t: nat)
    requires Proper(l)
    ensures var s := After(l, quantum, n); var a, b := Run(SoloA(l), t), Run(SoloB(l), t);
      && (a.r.halted ==> OutputOf(true, s.printed) <= a.out) && (s.a.r.halted ==> a.out <= OutputOf(true, s.printed))
      && (b.r.halted ==> OutputOf(false, s.printed) <= b.out) && (s.b.r.halted ==> b.out <= OutputOf(false, s.printed))
      && (a.r.halted && s.a.r.halted ==> s.a.total == a.cycles)
      && (b.r.halted && s.b.r.halted ==> s.b.total == b.cycles)
  {
    hide *;
    var i, k := NonInterference(l, quantum, n);
    Along(SoloA(l), i, t);
    Along(SoloA(l), t, i);
    Along(SoloB(l), k, t);
    Along(SoloB(l), t, k);
  }

  // ----- termination -----

  function Left(i: nat, total: nat): nat { if i < total then total - i else 0 }

  /** A process that has not halted has steps of its solo run left. */
  lemma StillGoing(s: State, i: nat, total: nat)
    requires Run(s, total).r.halted && !Run(s, i).r.halted
    ensures i < total
  {
    hide *;
    if i >= total {
      RunAdd(s, total, i - total);
      HaltedRun(Run(s, total), i - total);
    }
  }

  lemma DoneMeans(s: System)
    ensures Done(s) <==> s.a.r.halted && s.b.r.halted
  {
  }

  lemma {:induction false} FinishesFrom(l: Load, quantum: nat, n: nat, i: nat, k: nat, ta: nat, tb: nat)
    returns (e: nat)
    requires Proper(l) && quantum > 0 && Separate(After(l, quantum, n), l, i, k)
    requires Run(SoloA(l), ta).r.halted && Run(SoloB(l), tb).r.halted
    ensures Done(After(l, quantum, e))
    decreases Left(i, ta) + Left(k, tb)
  {
    hide *;
    var s := After(l, quantum, n);
    SeparateTracks(s, l, i, k);
    DoneMeans(s);
    e := n;
    if !Done(s) {
      var i', k' := TurnInOrder(s, l, i, k, quantum);
      AfterStep(l, quantum, n + 1);
      if !s.a.r.halted {
        StillGoing(SoloA(l), i, ta);
      }
      if !s.b.r.halted {
        StillGoing(SoloB(l), k, tb);
      }
      Shrinks(i, i', ta);
      Shrinks(k, k', tb);
      e := FinishesFrom(l, quantum, n + 1, i', k', ta, tb);
    }
  }

  lemma Shrinks(i: nat, i': nat, total: nat)
    requires i <= i'
    ensures Left(i', total) <= Left(i, total)
    ensures i < i' && i < total ==> Left(i', total) < Left(i, total)
  {
  }

  ghost predicate Terminates(l: Load, quantum: nat) {
    exists n: nat :: Done(After(l, quantum, n))
  }

  lemma TerminatesBy(l: Load, quantum: nat, n: nat)
    requires Done(After(l, quantum, n))
    ensures Terminates(l, quantum)
  {
  }

  lemma TerminationTime(l: Load, quantum: nat) returns (n: nat)
    requires Terminates(l, quantum)
    ensures Done(After(l, quantum, n))
  {
    n :| Done(After(l, quantum, n));
  }

  /** With a quantum of zero nothing runs. */
  lemma {:induction false} NothingRuns(l: Load, n: nat) returns (i: nat, k: nat)
    requires Proper(l)
    ensures i == 0 && k == 0 && Separate(After(l, 0, n), l, i, k)
  {
    hide *;
    AfterStep(l, 0, n);
    if n == 0 {
      ReadySeparate(l);
      ResetKeeps(Ready(l.m), l, 0, 0);
      i := SliceAKeeps(Reset(Ready(l.m)), l, 0, 0, 0);
      var s1 := SliceA(Reset(Ready(l.m)), l.imgA, 0);
      ResetKeeps(s1, l, i, 0);
      k := SliceBKeeps(Reset(s1), l, i, 0, 0);
      StartIs(l, 0);
    } else {
      i, k := NothingRuns(l, n - 1);
      i, k := TurnInOrder(After(l, 0, n - 1), l, i, k, 0);
    }
  }

  lemma StartIs(l: Load, quantum: nat)
    ensures Start(l.m, l.imgA, l.imgB, quantum)
      == SliceB(Reset(SliceA(Reset(Ready(l.m)), l.imgA, quantum)), l.imgB, quantum)
  {
    hide SliceA, SliceB, Ready, Reset;
  }

  lemma SoloRuns(l: Load)
    ensures !SoloA(l).r.halted && !SoloB(l).r.halted
  {
  }

  /** The round-robin loop terminates exactly when the quantum is at least one and both solo runs halt. */
  lemma TerminatesExactly(l: Load, quantum: nat)
    requires Proper(l)
    ensures Terminates(l, quantum) <==> quantum > 0 && Halts(SoloA(l)) && Halts(SoloB(l))
  {
    hide *;
    if quantum > 0 && Halts(SoloA(l)) && Halts(SoloB(l)) {
      var ta, tb := TwoHaltingTimes(SoloA(l), SoloB(l));
      var i, k := RoundsSeparate(l, quantum, 0);
      var e := FinishesFrom(l, quantum, 0, i, k, ta, tb);
      TerminatesBy(l, quantum, e);
    }
    if Terminates(l, quantum) {
      var n := TerminationTime(l, quantum);
      DoneMeans(After(l, quantum, n));
      if quantum == 0 {
        var i, k := NothingRuns(l, n);
        SeparateTracks(After(l, 0, n), l, i, k);
        RunZero(SoloA(l));
        SoloRuns(l);
      } else {
        var i, k := NonInterference(l, quantum, n);
        HaltsBy(SoloA(l), i);
        HaltsBy(SoloB(l), k);
      }
    }
  }

  lemma TwoHaltingTimes(s: State, t: State) returns (i: nat, k: nat)
    requires Halts(s) && Halts(t)
    ensures Run(s, i).r.halted && Run(t, k).r.halted
  {
    hide *;
    i := HaltingTime(s);
    k := HaltingTime(t);
  }
}
